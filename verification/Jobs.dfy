/**
 The outbound_jobs table and its repository (app/tracking/repository.py:223-372).
 `now()` and generated ids enter as parameters. Times are integers on one clock.
 */
module Jobs {
  import opened Wrappers
  import opened Bytes
  import Messages

  type JobId = nat
  type Time = int

  datatype JobStatus = Queued | InProgress | Delivered | FailedNack | ExchangeFailure

  datatype ReceiptInfo = ReceiptInfo(transId: Bytes, serverId: Bytes, timeC: Bytes)

  datatype Job = Job(
    partner: Bytes,
    fromId: Bytes,
    toId: Bytes,
    refnum: Option<Bytes>,
    digest: Bytes,
    ciphertext: Bytes,
    messageId: Option<Messages.MessageId>,
    status: JobStatus,
    attemptCount: nat,
    nextAttemptAt: Time,
    lastErrorCode: Option<Bytes>,
    receipt: Option<ReceiptInfo>
  )

  type JobTable = map<JobId, Job>

  predicate Terminal(s: JobStatus) {
    s == Delivered || s == FailedNack || s == ExchangeFailure
  }

  predicate Due(job: Job, now: Time) {
    job.status == Queued && job.nextAttemptAt <= now
  }

  function Claimed(job: Job): Job {
    job.(status := InProgress, attemptCount := job.attemptCount + 1)
  }

  /** The claim's UPDATE over the selected ids. */
  function ClaimAll(jobs: JobTable, ids: set<JobId>): JobTable {
    map j | j in jobs :: if j in ids then Claimed(jobs[j]) else jobs[j]
  }

  function IdSet(ids: seq<JobId>): set<JobId> {
    set j | j in ids
  }

  /** The rows a claim selects from: due, and not locked by another transaction. */
  function DueUnlocked(jobs: JobTable, now: Time, locked: set<JobId>): set<JobId> {
    set j | j in jobs && Due(jobs[j], now) && j !in locked
  }

  /** A fetched row, as a worker keeps it. */
  datatype Claim = Claim(id: JobId, job: Job)

  /** How one attempt concludes a job. */
  datatype Conclusion =
    | Deliver(receipt: ReceiptInfo)
    | Nack(code: Bytes)
    | Retry(at: Time)
    | Exhausted
    | UnknownPartner

  function Concluded(job: Job, c: Conclusion): Job {
    match c
    case Deliver(receipt) => job.(status := Delivered, receipt := Some(receipt))
    case Nack(code) => job.(status := FailedNack, lastErrorCode := Some(code))
    case Retry(at) => job.(status := Queued, nextAttemptAt := at)
    case Exhausted => job.(status := ExchangeFailure)
    case UnknownPartner => job.(status := ExchangeFailure)
  }

  /** The concluding UPDATE: `WHERE id = ...`, whatever the row's status is. */
  function ConcludeJob(jobs: JobTable, id: JobId, c: Conclusion): JobTable {
    if id in jobs then jobs[id := Concluded(jobs[id], c)] else jobs
  }

  /** The message row's status after a concluding job update, if the worker touches the message at all. */
  function MessageStatusOf(c: Conclusion): Option<Messages.Status> {
    match c
    case Deliver(_) => Some(Messages.Delivered)
    case Nack(_) => Some(Messages.FailedNack)
    case Exhausted => Some(Messages.ExchangeFailure)
    case Retry(_) => None
    case UnknownPartner => None
  }

  function ConcludeMessage(rows: Messages.Table, id: Messages.MessageId, c: Conclusion): Messages.Table {
    match c
    case Deliver(_) => Messages.UpdateStatus(rows, id, Messages.Delivered, None, Some(true))
    case Nack(code) => Messages.UpdateStatus(rows, id, Messages.FailedNack, Some(code), Some(true))
    case Exhausted => Messages.UpdateStatus(rows, id, Messages.ExchangeFailure, None, None)
    case Retry(_) => rows
    case UnknownPartner => rows
  }

  predicate Ascending(jobs: JobTable, ids: seq<JobId>) {
    && (forall i :: 0 <= i < |ids| ==> ids[i] in jobs)
    && (forall i, k :: 0 <= i < k < |ids| ==>
          ids[i] != ids[k] && jobs[ids[i]].nextAttemptAt <= jobs[ids[k]].nextAttemptAt)
  }

  /** Distinct members of `due` in order of due time, none of them later than a member left out. */
  predicate EarliestFirst(jobs: JobTable, due: set<JobId>, ids: seq<JobId>)
    requires due <= jobs.Keys
  {
    && Ascending(jobs, ids)
    && (forall j :: j in ids ==> j in due)
    && (forall i, k :: 0 <= i < |ids| && k in due && k !in ids ==> jobs[ids[i]].nextAttemptAt <= jobs[k].nextAttemptAt)
  }

  /** The rows a SELECT returns for `ids`. */
  function Snapshot(jobs: JobTable, ids: seq<JobId>): seq<Claim>
    requires forall i :: 0 <= i < |ids| ==> ids[i] in jobs
  {
    seq(|ids|, i requires 0 <= i < |ids| => Claim(ids[i], jobs[ids[i]]))
  }

  /** `job.attempt_count += 1` on each fetched row, after the claim has committed. */
  function Bumped(batch: seq<Claim>): seq<Claim> {
    seq(|batch|, i requires 0 <= i < |batch| =>
      Claim(batch[i].id, batch[i].job.(attemptCount := batch[i].job.attemptCount + 1)))
  }

  lemma {:induction false} IdsCount(ids: seq<JobId>)
    requires forall i, k :: 0 <= i < k < |ids| ==> ids[i] != ids[k]
    ensures |IdSet(ids)| == |ids|
    decreases |ids|
  {
    if ids != [] {
      var init, last := ids[..|ids| - 1], ids[|ids| - 1];
      IdsCount(init);
      assert IdSet(ids) == IdSet(init) + {last};
      assert last !in IdSet(init);
    } else {
      assert IdSet(ids) == {};
    }
  }

  lemma WaitingLess(waiting: set<JobId>, taken: set<JobId>)
    requires taken <= waiting
    ensures |waiting - taken| == |waiting| - |taken|
    ensures |taken| == |waiting| ==> taken == waiting
  {
    assert waiting == (waiting - taken) + taken;
    if |waiting - taken| == 0 {
      assert waiting - taken == {};
    }
  }

  /** A selection as large as the set it is from leaves nothing out. */
  lemma AllSelected(due: set<JobId>, ids: seq<JobId>)
    requires forall j :: j in ids ==> j in due
    requires forall i, k :: 0 <= i < k < |ids| ==> ids[i] != ids[k]
    ensures |ids| == |due| ==> forall j :: j in due ==> j in ids
  {
    IdsCount(ids);
    if |ids| == |due| {
      forall j | j in due ensures j in ids {
        WaitingLess(due, IdSet(ids));
        assert j in IdSet(ids);
      }
    }
  }

  class OutboundJobRepository {
    var jobs: JobTable

    constructor ()
      ensures jobs == map[]
    {
      jobs := map[];
    }

    /** A new job is queued, never attempted, and due at once. */
    method Create(job: Job, id: JobId, now: Time)
      requires id !in jobs
      modifies this
      ensures jobs == old(jobs)[id := job.(status := Queued, attemptCount := 0, nextAttemptAt := now)]
      ensures forall t :: Due(jobs[id], t) <==> now <= t
      ensures forall j, t :: j in jobs && Due(jobs[j], t) ==> j == id || (j in old(jobs) && Due(old(jobs)[j], t))
    {
      jobs := jobs[id := job.(status := Queued, attemptCount := 0, nextAttemptAt := now)];
    }

    /** The earliest of a non-empty set of jobs. */
    method Earliest(ids: set<JobId>) returns (best: JobId)
      requires ids != {} && ids <= jobs.Keys
      ensures best in ids && forall j :: j in ids ==> jobs[best].nextAttemptAt <= jobs[j].nextAttemptAt
    {
      best :| best in ids;
      var rest := ids - {best};
      while rest != {}
        invariant rest <= ids && best in ids
        invariant forall j :: j in ids - rest ==> jobs[best].nextAttemptAt <= jobs[j].nextAttemptAt
        decreases |rest|
      {
        var j :| j in rest;
        if jobs[j].nextAttemptAt < jobs[best].nextAttemptAt {
          best := j;
        }
        rest := rest - {j};
      }
    }

    /** Up to `limit` ids of `due`, earliest first: none left out is earlier than one selected. */
    method Select(due: set<JobId>, limit: nat) returns (ids: seq<JobId>)
      requires due <= jobs.Keys
      ensures EarliestFirst(jobs, due, ids)
      ensures |ids| == if |due| < limit then |due| else limit
    {
      var rest := due;
      ids := [];
      while |ids| < limit && rest != {}
        invariant rest <= due && |ids| + |rest| == |due| && |ids| <= limit
        invariant forall j :: j in ids <==> j in due && j !in rest
        invariant Ascending(jobs, ids)
        invariant forall i, k :: 0 <= i < |ids| && k in rest ==> jobs[ids[i]].nextAttemptAt <= jobs[k].nextAttemptAt
        decreases |rest|
      {
        var j := Earliest(rest);
        ids := ids + [j];
        rest := rest - {j};
      }
    }

    /** The claim's first half, SELECT ... FOR UPDATE SKIP LOCKED: the rows it locks and fetches, earliest first. */
    method SelectDue(limit: nat, now: Time, locked: set<JobId>) returns (ids: seq<JobId>, rows: seq<Claim>)
      ensures var due := DueUnlocked(jobs, now, locked);
        && EarliestFirst(jobs, due, ids)
        && |ids| == (if |due| < limit then |due| else limit)
        && rows == Snapshot(jobs, ids)
      ensures forall j :: j in ids ==>
        j in jobs && jobs[j].status == Queued && jobs[j].nextAttemptAt <= now && j !in locked
      ensures forall j ::
        (j in jobs && jobs[j].status == Queued && jobs[j].nextAttemptAt <= now && j !in locked && j !in ids) ==>
        |ids| == limit && forall i :: 0 <= i < |ids| ==> jobs[ids[i]].nextAttemptAt <= jobs[j].nextAttemptAt
    {
      var due := DueUnlocked(jobs, now, locked);
      ids := Select(due, limit);
      rows := Snapshot(jobs, ids);
      AllSelected(due, ids);
    }

    /** The second half: the UPDATE over the locked ids, and the commit. */
    method CommitClaim(ids: seq<JobId>)
      modifies this
      ensures jobs == ClaimAll(old(jobs), IdSet(ids))
    {
      jobs := ClaimAll(jobs, IdSet(ids));
    }

    /**
     Claim up to `limit` due jobs, earliest first, skipping the rows that other
     transactions have locked. Only the claimed rows change.
     */
    method ClaimDueJobs(limit: nat, now: Time, locked: set<JobId>) returns (claims: seq<Claim>)
      modifies this
      ensures var due := DueUnlocked(old(jobs), now, locked);
        exists ids: seq<JobId> ::
          && EarliestFirst(old(jobs), due, ids)
          && |ids| == (if |due| < limit then |due| else limit)
          && claims == Bumped(Snapshot(old(jobs), ids))
          && jobs == ClaimAll(old(jobs), IdSet(ids))
    {
      var ids, rows := SelectDue(limit, now, locked);
      if ids == [] {
        assert ClaimAll(jobs, IdSet(ids)) == jobs;
        return [];
      }
      CommitClaim(ids);
      claims := Bumped(rows);
    }

    method MarkDelivered(id: JobId, receipt: ReceiptInfo)
      modifies this
      ensures jobs == ConcludeJob(old(jobs), id, Deliver(receipt))
    {
      if id in jobs {
        jobs := jobs[id := jobs[id].(status := Delivered, receipt := Some(receipt))];
      }
    }

    method MarkFailedNack(id: JobId, code: Bytes)
      modifies this
      ensures jobs == ConcludeJob(old(jobs), id, Nack(code))
    {
      if id in jobs {
        jobs := jobs[id := jobs[id].(status := FailedNack, lastErrorCode := Some(code))];
      }
    }

    method Reschedule(id: JobId, at: Time)
      modifies this
      ensures jobs == ConcludeJob(old(jobs), id, Retry(at))
    {
      if id in jobs {
        jobs := jobs[id := jobs[id].(status := Queued, nextAttemptAt := at)];
      }
    }

    /** The same UPDATE serves an exhausted schedule and an unknown partner. */
    method MarkExchangeFailure(id: JobId)
      modifies this
      ensures jobs == ConcludeJob(old(jobs), id, Exhausted) == ConcludeJob(old(jobs), id, UnknownPartner)
    {
      if id in jobs {
        jobs := jobs[id := jobs[id].(status := ExchangeFailure)];
      }
    }
  }
}
