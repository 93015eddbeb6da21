/**
 The outbound queue as a protocol: any number of workers (app/worker.py) and
 enqueuers (app/outbound/enqueue.py) over the two tables, in any interleaving of
 lock, commit, abort, attempt, job update, message update, crash, restart and the
 passing of time. Inbound rows of the messages table may change at any moment.
 */
module Queue {
  import opened Wrappers
  import opened Bytes
  import opened Jobs
  import Messages

  type WorkerId = nat
  type Schedule = seq<int>

  /** What a worker is doing. `batch` in Worker holds the claims it still has, the current one first. */
  datatype Mode =
    | Idle
    | Locking                                               // rows selected FOR UPDATE, claim not yet committed
    | Working                                               // claim committed
    | Touching(job: JobId, message: Messages.MessageId, conclusion: Conclusion)  // job updated, message not yet
    | Dead

  datatype Worker = Worker(mode: Mode, batch: seq<Claim>)

  /** One attempt at a job: when it was claimed and, once concluded, when that was. */
  datatype Round = Round(claimedAt: Time, endedAt: Option<Time>)

  /** What the enqueuer copies into both of its rows. */
  datatype Order = Order(
    partner: Bytes, fromId: Bytes, toId: Bytes, refnum: Option<Bytes>, digest: Bytes, ciphertext: Bytes
  )

  datatype State = State(
    jobs: JobTable,
    messages: Messages.Table,
    pending: map<Messages.MessageId, Order>,  // messages whose enqueuer has not created the job yet
    workers: map<WorkerId, Worker>,
    now: Time,
    history: map<JobId, seq<Round>>,          // auxiliary: every attempt so far
    lost: set<JobId>,                         // auxiliary: concluded jobs whose message will never be touched
    unknown: set<JobId>                       // auxiliary: jobs given up because their partner is not configured
  )

  function OrderRow(o: Order): Messages.Row {
    Messages.Row(Messages.Outbound, o.partner, o.digest, o.fromId, o.toId, o.refnum, Messages.Queued, None, None, None)
  }

  function OrderJob(o: Order, m: Messages.MessageId, now: Time): Job {
    Job(o.partner, o.fromId, o.toId, o.refnum, o.digest, o.ciphertext, Some(m), Queued, 0, now, None, None)
  }

  // ------------------------------------------------------------------
  // One attempt's conclusion (app/worker.py:35-110)
  // ------------------------------------------------------------------

  /** An attempt that raises anything but DeliveryAttemptError does not conclude: it kills the worker. */
  datatype Attempt = Failed | Receipted(ok: bool, receipt: ReceiptInfo, code: Bytes)

  function FailureConclusion(attemptCount: nat, schedule: Schedule, now: Time): Conclusion {
    if attemptCount >= |schedule| then Exhausted else Retry(now + schedule[attemptCount])
  }

  function ConclusionOf(job: Job, partnerKnown: bool, attempt: Attempt, schedule: Schedule, now: Time): Conclusion {
    if !partnerKnown then UnknownPartner
    else match attempt
         case Failed => FailureConclusion(job.attemptCount, schedule, now)
         case Receipted(ok, receipt, code) => if ok then Deliver(receipt) else Nack(code)
  }

  // ------------------------------------------------------------------
  // Steps
  // ------------------------------------------------------------------

  datatype Step =
    | EnqueueMessage(m: Messages.MessageId, order: Order)
    | EnqueueJob(m: Messages.MessageId, j: JobId)
    | EnqueueCrash(m: Messages.MessageId)
    | Start(w: WorkerId)
    | Lock(w: WorkerId, ids: seq<JobId>)
    | Commit(w: WorkerId)
    | Abort(w: WorkerId)
    | Conclude(w: WorkerId, partnerKnown: bool, attempt: Attempt)
    | TouchMessage(w: WorkerId)
    | Finish(w: WorkerId)
    | Crash(w: WorkerId)
    | Tick(elapsed: nat)
    | InboundActivity(rows: Messages.Table)

  predicate Holds(s: State, w: WorkerId, j: JobId) {
    w in s.workers && exists i :: 0 <= i < |s.workers[w].batch| && s.workers[w].batch[i].id == j
  }

  predicate LockedByAnyone(s: State, j: JobId) {
    exists w :: w in s.workers && s.workers[w].mode == Locking && Holds(s, w, j)
  }

  /** Inbound rows come and change, outbound rows do not move. */
  predicate OutboundUntouched(rows: Messages.Table, rows': Messages.Table) {
    && (forall m :: m in rows && rows[m].direction == Messages.Outbound ==> m in rows' && rows'[m] == rows[m])
    && (forall m :: m in rows' && rows'[m].direction == Messages.Outbound ==> m in rows)
    && (forall m :: m in rows ==> m in rows' && rows'[m].direction == rows[m].direction)
  }

  predicate Is(s: State, w: WorkerId, mode: Mode) {
    w in s.workers && s.workers[w].mode == mode
  }

  predicate Enabled(s: State, step: Step) {
    match step
    case EnqueueMessage(m, order) => m !in s.messages && !Messages.Conflicts(s.messages, OrderRow(order))
    case EnqueueJob(m, j) => m in s.pending && j !in s.jobs
    case EnqueueCrash(m) => m in s.pending
    case Start(w) => w !in s.workers || s.workers[w].mode == Dead
    case Lock(w, ids) =>
      && Is(s, w, Idle)
      && ids != []
      && (forall i :: 0 <= i < |ids| ==> ids[i] in s.jobs && Due(s.jobs[ids[i]], s.now) && !LockedByAnyone(s, ids[i]))
      && (forall i, k :: 0 <= i < k < |ids| ==> ids[i] != ids[k])
    case Commit(w) => Is(s, w, Locking)
    case Abort(w) => Is(s, w, Locking)
    case Conclude(w, _, _) => Is(s, w, Working) && s.workers[w].batch != []
    case TouchMessage(w) => w in s.workers && s.workers[w].mode.Touching?
    case Finish(w) => Is(s, w, Working) && s.workers[w].batch == []
    case Crash(w) => w in s.workers
    case Tick(_) => true
    case InboundActivity(rows) => OutboundUntouched(s.messages, rows)
  }

  function BatchIds(batch: seq<Claim>): set<JobId> {
    set c | c in batch :: c.id
  }

  function OpenRounds(history: map<JobId, seq<Round>>, ids: set<JobId>, now: Time): map<JobId, seq<Round>> {
    map j | j in history :: if j in ids then history[j] + [Round(now, None)] else history[j]
  }

  function CloseRound(history: map<JobId, seq<Round>>, j: JobId, now: Time): map<JobId, seq<Round>> {
    if j in history && history[j] != [] then
      var last := |history[j]| - 1;
      history[j := history[j][last := Round(history[j][last].claimedAt, Some(now))]]
    else history
  }

  function WithWorker(s: State, w: WorkerId, worker: Worker): State {
    s.(workers := s.workers[w := worker])
  }

  /** After the job's concluding UPDATE: on to its message, if there is one to touch, else to the next claim. */
  function AfterConclusion(claim: Claim, c: Conclusion, rest: seq<Claim>): Worker {
    if MessageStatusOf(c).Some? && claim.job.messageId.Some?
    then Worker(Touching(claim.id, claim.job.messageId.value, c), rest)
    else Worker(Working, rest)
  }

  function Apply(s: State, step: Step, schedule: Schedule): State
    requires Enabled(s, step)
  {
    match step
    case EnqueueMessage(m, order) => s.(messages := s.messages[m := OrderRow(order)], pending := s.pending[m := order])
    case EnqueueJob(m, j) =>
      s.(jobs := s.jobs[j := OrderJob(s.pending[m], m, s.now)], pending := s.pending - {m},
         history := s.history[j := []])
    case EnqueueCrash(m) => s.(pending := s.pending - {m})
    case Start(w) => WithWorker(s, w, Worker(Idle, []))
    case Lock(w, ids) => WithWorker(s, w, Worker(Locking, Snapshot(s.jobs, ids)))
    case Commit(w) =>
      var batch := s.workers[w].batch;
      WithWorker(s, w, Worker(Working, Bumped(batch))).(
        jobs := ClaimAll(s.jobs, BatchIds(batch)),
        history := OpenRounds(s.history, BatchIds(batch), s.now))
    case Abort(w) => WithWorker(s, w, Worker(Idle, []))
    case Conclude(w, partnerKnown, attempt) =>
      var claim := s.workers[w].batch[0];
      var c := ConclusionOf(claim.job, partnerKnown, attempt, schedule, s.now);
      WithWorker(s, w, AfterConclusion(claim, c, s.workers[w].batch[1..])).(
        jobs := ConcludeJob(s.jobs, claim.id, c),
        history := CloseRound(s.history, claim.id, s.now),
        lost := if partnerKnown then s.lost else s.lost + {claim.id},
        unknown := if partnerKnown then s.unknown else s.unknown + {claim.id})
    case TouchMessage(w) =>
      var mode := s.workers[w].mode;
      WithWorker(s, w, Worker(Working, s.workers[w].batch)).(
        messages := ConcludeMessage(s.messages, mode.message, mode.conclusion))
    case Finish(w) => WithWorker(s, w, Worker(Idle, []))
    case Crash(w) =>
      var mode := s.workers[w].mode;
      WithWorker(s, w, Worker(Dead, [])).(
        lost := if mode.Touching? then s.lost + {mode.job} else s.lost)
    case Tick(elapsed) => s.(now := s.now + elapsed)
    case InboundActivity(rows) => s.(messages := rows)
  }

  predicate Init(s: State) {
    && s.jobs == map[] && s.pending == map[] && s.workers == map[] && s.history == map[] && s.lost == {}
    && s.unknown == {}
    && forall m :: m in s.messages ==> s.messages[m].direction == Messages.Inbound
  }

  /** A run: states and the steps between them. */
  ghost predicate Run(states: seq<State>, steps: seq<Step>, schedule: Schedule) {
    && |states| == |steps| + 1
    && Init(states[0])
    && forall i :: 0 <= i < |steps| ==>
       Enabled(states[i], steps[i]) && states[i + 1] == Apply(states[i], steps[i], schedule)
  }

  // ------------------------------------------------------------------
  // Invariant, in four groups
  // ------------------------------------------------------------------

  /** The number of attempts a job gets: the schedule's length, and one when it is empty. */
  function MaxAttempts(schedule: Schedule): nat {
    if schedule == [] then 1 else |schedule|
  }

  predicate Held(s: State, w: WorkerId, i: int) {
    w in s.workers && 0 <= i < |s.workers[w].batch|
  }

  /** A held claim describes its row: queued and due while locked, in progress once committed. */
  predicate ClaimMatches(s: State, w: WorkerId, i: int)
    requires Held(s, w, i)
  {
    var claim := s.workers[w].batch[i];
    && claim.id in s.jobs
    && claim.job.status == Queued && claim.job.nextAttemptAt <= s.now
    && s.jobs[claim.id] == if s.workers[w].mode == Locking then claim.job else claim.job.(status := InProgress)
  }

  /** No row is held twice. */
  ghost predicate Exclusive(s: State) {
    forall w, i, w', i' ::
      Held(s, w, i) && Held(s, w', i') && s.workers[w].batch[i].id == s.workers[w'].batch[i'].id ==>
      w == w' && i == i'
  }

  ghost predicate HoldingInv(s: State) {
    && (forall w, i :: Held(s, w, i) ==> ClaimMatches(s, w, i))
    && (forall w :: w in s.workers && s.workers[w].mode in {Idle, Dead} ==> s.workers[w].batch == [])
    && Exclusive(s)
  }

  /** Attempt counts: fewer than the maximum while queued, between one and the maximum afterwards. */
  predicate WithinBounds(job: Job, max: nat) {
    if job.status == Queued then job.attemptCount < max else 1 <= job.attemptCount <= max
  }

  ghost predicate BoundsInv(s: State, schedule: Schedule) {
    && (forall j :: j in s.jobs ==> WithinBounds(s.jobs[j], MaxAttempts(schedule)))
    && (forall j :: j in s.jobs && s.jobs[j].status == ExchangeFailure && j !in s.unknown ==>
          s.jobs[j].attemptCount == MaxAttempts(schedule))
  }

  predicate TouchingJob(s: State, w: WorkerId, j: JobId) {
    w in s.workers && s.workers[w].mode.Touching? && s.workers[w].mode.job == j
  }

  /** The job is concluded and its message shows it. */
  ghost predicate Touched(s: State, j: JobId)
    requires j in s.jobs
  {
    Terminal(s.jobs[j].status) && j !in s.lost && !exists w :: TouchingJob(s, w, j)
  }

  function MessageStatusFor(status: JobStatus): Messages.Status {
    match status
    case Delivered => Messages.Delivered
    case FailedNack => Messages.FailedNack
    case ExchangeFailure => Messages.ExchangeFailure
    case _ => Messages.Queued
  }

  /** A job and the outbound message it was created with. */
  predicate Linked(s: State, j: JobId, m: Messages.MessageId) {
    && j in s.jobs && s.jobs[j].messageId == Some(m)
    && m in s.messages && m !in s.pending
    && var job, row := s.jobs[j], s.messages[m];
    && row.direction == Messages.Outbound
    && row.partner == job.partner && row.digest == job.digest && row.refnum == job.refnum
    && row.fromId == job.fromId && row.toId == job.toId
  }

  predicate HasJob(s: State, m: Messages.MessageId) {
    exists j :: j in s.jobs && s.jobs[j].messageId == Some(m)
  }

  ghost predicate LinkInv(s: State) {
    && (forall j :: j in s.jobs ==> s.jobs[j].messageId.Some? && Linked(s, j, s.jobs[j].messageId.value))
    && (forall j, j' :: j in s.jobs && j' in s.jobs && s.jobs[j].messageId == s.jobs[j'].messageId ==> j == j')
    && (forall m :: m in s.pending ==> m in s.messages && s.messages[m] == OrderRow(s.pending[m]) && !HasJob(s, m))
  }

  ghost predicate TouchInv(s: State) {
    && (forall w :: w in s.workers && s.workers[w].mode.Touching? ==>
          var mode := s.workers[w].mode;
          && mode.job in s.jobs && mode.job !in s.lost
          && s.jobs[mode.job].messageId == Some(mode.message)
          && Terminal(s.jobs[mode.job].status)
          && MessageStatusOf(mode.conclusion) == Some(MessageStatusFor(s.jobs[mode.job].status)))
    && (forall w, w', j :: TouchingJob(s, w, j) && TouchingJob(s, w', j) ==> w == w')
    && (forall j :: j in s.lost ==> j in s.jobs && Terminal(s.jobs[j].status))
  }

  ghost predicate StatusInv(s: State) {
    && (forall j :: j in s.jobs && s.jobs[j].messageId.Some? && Linked(s, j, s.jobs[j].messageId.value) ==>
          s.messages[s.jobs[j].messageId.value].status ==
          if Touched(s, j) then MessageStatusFor(s.jobs[j].status) else Messages.Queued)
    && (forall m ::
          (m in s.messages && s.messages[m].direction == Messages.Outbound
           && s.messages[m].status != Messages.Queued) ==>
          HasJob(s, m))
  }

  /** Attempt `n`, counted from 0, started no earlier than the failure of the one before plus `schedule[n]`. */
  predicate PacedAt(rounds: seq<Round>, schedule: Schedule, n: int)
    requires 1 <= n < |rounds|
  {
    && rounds[n - 1].endedAt.Some?
    && n < |schedule|
    && rounds[n].claimedAt >= rounds[n - 1].endedAt.value + schedule[n]
  }

  predicate Paced(rounds: seq<Round>, schedule: Schedule) {
    forall n :: 1 <= n < |rounds| ==> PacedAt(rounds, schedule, n)
  }

  predicate Timely(rounds: seq<Round>, now: Time) {
    forall k :: 0 <= k < |rounds| ==>
      rounds[k].claimedAt <= now && (rounds[k].endedAt.Some? ==> rounds[k].claimedAt <= rounds[k].endedAt.value <= now)
  }

  predicate JobHistory(job: Job, rounds: seq<Round>, schedule: Schedule, now: Time) {
    && |rounds| == job.attemptCount
    && Paced(rounds, schedule) && Timely(rounds, now)
    && (rounds != [] ==> (rounds[|rounds| - 1].endedAt.None? <==> job.status == InProgress))
    && (rounds != [] && job.status == Queued ==>
          |rounds| < |schedule| && job.nextAttemptAt == rounds[|rounds| - 1].endedAt.value + schedule[|rounds|])
  }

  ghost predicate HistoryInv(s: State, schedule: Schedule) {
    s.history.Keys == s.jobs.Keys && forall j :: j in s.jobs ==> JobHistory(s.jobs[j], s.history[j], schedule, s.now)
  }

  ghost predicate Inv(s: State, schedule: Schedule) {
    HoldingInv(s) && BoundsInv(s, schedule) && LinkInv(s) && TouchInv(s) && StatusInv(s) && HistoryInv(s, schedule)
  }
}
