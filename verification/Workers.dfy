/**
 The worker process (app/worker.py), call by call over the two repositories. Before each of
 its calls other workers, enqueuers, the inbound side and the clock may take any steps of
 theirs; each call may raise, its effect applied or not, and anything a delivery attempt
 raises but DeliveryAttemptError ends the worker too. It is proved to take the protocol's
 steps: exactly which ones, in which order, for every reply and every failure.
 */
module Workers {
  import opened Wrappers
  import opened Bytes
  import opened Jobs
  import opened QueueStretches
  import Messages
  import Queue
  import QueueInvariant
  import QueueRuns
  import Receipts

  type Reply = Result<Receipts.Receipt, Receipts.AttemptError>

  /** What an attempt amounts to for the queue: the receipt's status decides, and its code is what is stored. */
  function AttemptOf(reply: Reply): Queue.Attempt {
    match reply
    case Err(_) => Queue.Failed
    case Ok(r) =>
      Queue.Receipted(r.IsOk(), ReceiptInfo(r.transId, r.serverId, r.timeC), Receipts.StatusCode(r.requestStatus))
  }

  /**
   The calls a worker makes in a poll cycle; all but the first two once for each claim, by
   its position in the batch.
   */
  datatype Call = Selecting | Committing | Attempting | ConcludingJob | TouchingMessage

  datatype Point = Point(cycle: nat, index: nat, call: Call)

  /** Everything outside the worker: what others do just before a call, whether it raises, and the partners' replies. */
  datatype World = World(
    others: Point -> seq<Queue.Step>, fault: Point -> Fault, reply: (nat, nat) -> Reply
  )

  /** The configured partners and the retry schedule. */
  datatype Settings = Settings(partners: set<Bytes>, schedule: Queue.Schedule)

  /** Nobody else does anything. */
  ghost predicate Quiet(world: World) {
    forall p :: world.others(p) == []
  }

  // ------------------------------------------------------------------
  // One claim, and the steps it takes
  // ------------------------------------------------------------------

  /** A claim being processed: which, and where in the worker's program. */
  datatype Turn = Turn(claim: Claim, cycle: nat, index: nat)

  function At(turn: Turn, call: Call): Point {
    Point(turn.cycle, turn.index, call)
  }

  predicate Known(turn: Turn, settings: Settings) {
    turn.claim.job.partner in settings.partners
  }

  function AttemptAt(turn: Turn, world: World): Queue.Attempt {
    AttemptOf(world.reply(turn.cycle, turn.index))
  }

  /** The conclusion the claim is given at the time of its job update. */
  function Verdict(turn: Turn, settings: Settings, world: World, now: Time): Conclusion {
    Queue.ConclusionOf(turn.claim.job, Known(turn, settings), AttemptAt(turn, world), settings.schedule, now)
  }

  /** The conclusion concerns the message row as well. */
  predicate Touches(claim: Claim, c: Conclusion) {
    MessageStatusOf(c).Some? && claim.job.messageId.Some?
  }

  /** An unknown partner gets no attempt; any other claim's attempt may be the worker's end. */
  predicate AttemptRaises(turn: Turn, settings: Settings, world: World) {
    Known(turn, settings) && world.fault(At(turn, Attempting)) != Fine
  }

  /** The job's concluding update takes effect. */
  predicate JobUpdated(turn: Turn, settings: Settings, world: World) {
    !AttemptRaises(turn, settings, world) && world.fault(At(turn, ConcludingJob)) != RaisesBefore
  }

  /**
   The worker goes on to the message update, and that takes effect. Whether there is one
   does not depend on the time.
   */
  predicate MessageUpdated(turn: Turn, settings: Settings, world: World) {
    && JobUpdated(turn, settings, world) && world.fault(At(turn, ConcludingJob)) == Fine
    && Touches(turn.claim, Verdict(turn, settings, world, 0))
    && world.fault(At(turn, TouchingMessage)) != RaisesBefore
  }

  predicate Survives(turn: Turn, settings: Settings, world: World) {
    && JobUpdated(turn, settings, world) && world.fault(At(turn, ConcludingJob)) == Fine
    && (Touches(turn.claim, Verdict(turn, settings, world, 0)) ==> world.fault(At(turn, TouchingMessage)) == Fine)
  }

  /**
   The protocol's steps for a claim, in order: its two updates as far as they come about,
   and the crash if anything raises.
   */
  function StepsFor(w: Queue.WorkerId, turn: Turn, settings: Settings, world: World): seq<Queue.Step> {
    (if JobUpdated(turn, settings, world)
     then [Queue.Conclude(w, Known(turn, settings), AttemptAt(turn, world))] else [])
    + (if MessageUpdated(turn, settings, world) then [Queue.TouchMessage(w)] else [])
    + (if Survives(turn, settings, world) then [] else [Queue.Crash(w)])
  }

  /** The steps for the first `n` claims of a batch. */
  function BatchSteps(
    w: Queue.WorkerId, claims: seq<Claim>, cycle: nat, n: nat, settings: Settings, world: World
  ): seq<Queue.Step>
    requires n <= |claims|
  {
    if n == 0 then []
    else
      BatchSteps(w, claims, cycle, n - 1, settings, world)
      + StepsFor(w, Turn(claims[n - 1], cycle, n - 1), settings, world)
  }

  /** The claim's row as its conclusion leaves it, whatever else has happened to others. */
  predicate ConcludedAt(jobs: JobTable, turn: Turn, settings: Settings, world: World, now: Time) {
    && turn.claim.id in jobs
    && jobs[turn.claim.id] == Concluded(turn.claim.job.(status := InProgress), Verdict(turn, settings, world, now))
  }

  predicate StrandedAt(jobs: JobTable, claim: Claim) {
    claim.id in jobs && jobs[claim.id] == claim.job.(status := InProgress)
  }

  /** The message row shows the conclusion: its status, its error code and that a receipt was verified, if one was. */
  predicate Shown(rows: Messages.Table, claim: Claim, c: Conclusion)
    requires Touches(claim, c)
  {
    var m := claim.job.messageId.value;
    && m in rows && rows[m].direction == Messages.Outbound
    && Some(rows[m].status) == MessageStatusOf(c)
    && rows[m].errorCode == (if c.Nack? then Some(c.code) else None)
    && rows[m].receiptVerified == (if c.Exhausted? then None else Some(true))
  }

  lemma VerdictKind(turn: Turn, settings: Settings, world: World, now: Time)
    ensures var c, c' := Verdict(turn, settings, world, now), Verdict(turn, settings, world, 0);
      && (Touches(turn.claim, c) <==> Touches(turn.claim, c'))
      && (Touches(turn.claim, c) ==> c == c')
      && (MessageStatusOf(c).Some? <==> MessageStatusOf(c').Some?)
      && (MessageStatusOf(c).Some? ==> c == c' && Terminal(Concluded(turn.claim.job, c).status))
  {
  }

  // ------------------------------------------------------------------
  // What the protocol's steps do, one by one
  // ------------------------------------------------------------------

  lemma IsMeans(s: Queue.State, w: Queue.WorkerId, mode: Queue.Mode)
    ensures Queue.Is(s, w, mode) <==> w in s.workers && s.workers[w].mode == mode
  {
  }

  lemma CrashIs(s: Queue.State, w: Queue.WorkerId, schedule: Queue.Schedule)
    requires w in s.workers
    ensures Queue.Enabled(s, Queue.Crash(w)) && Actor(Queue.Crash(w)) == Some(w)
    ensures var t := Queue.Apply(s, Queue.Crash(w), schedule);
      && t.jobs == s.jobs && t.messages == s.messages && t.now == s.now
      && w in t.workers && t.workers[w] == Queue.Worker(Queue.Dead, [])
  {
  }

  lemma TouchIs(s: Queue.State, w: Queue.WorkerId, schedule: Queue.Schedule)
    requires w in s.workers && s.workers[w].mode.Touching?
    ensures Queue.Enabled(s, Queue.TouchMessage(w)) && Actor(Queue.TouchMessage(w)) == Some(w)
    ensures var t, mode := Queue.Apply(s, Queue.TouchMessage(w), schedule), s.workers[w].mode;
      && t.jobs == s.jobs && t.messages == ConcludeMessage(s.messages, mode.message, mode.conclusion) && t.now == s.now
      && w in t.workers && t.workers[w] == Queue.Worker(Queue.Working, s.workers[w].batch)
  {
    hide ConcludeMessage;
  }

  lemma ConcludeIs(s: Queue.State, w: Queue.WorkerId, known: bool, attempt: Queue.Attempt, schedule: Queue.Schedule)
    requires w in s.workers && s.workers[w].mode == Queue.Working && s.workers[w].batch != []
    ensures Queue.Enabled(s, Queue.Conclude(w, known, attempt)) && Actor(Queue.Conclude(w, known, attempt)) == Some(w)
    ensures var t, claim := Queue.Apply(s, Queue.Conclude(w, known, attempt), schedule), s.workers[w].batch[0];
      var c := Queue.ConclusionOf(claim.job, known, attempt, schedule, s.now);
      && t.jobs == ConcludeJob(s.jobs, claim.id, c) && t.messages == s.messages && t.now == s.now
      && w in t.workers
      && t.workers[w] == (
           if Touches(claim, c)
           then Queue.Worker(Queue.Touching(claim.id, claim.job.messageId.value, c), s.workers[w].batch[1..])
           else Queue.Worker(Queue.Working, s.workers[w].batch[1..]))
  {
    hide ConcludeJob, Queue.ConclusionOf, Queue.CloseRound;
  }

  lemma LockIs(s: Queue.State, w: Queue.WorkerId, ids: seq<JobId>, schedule: Queue.Schedule)
    requires w in s.workers && s.workers[w].mode == Queue.Idle && ids != []
    requires forall i :: 0 <= i < |ids| ==>
      ids[i] in s.jobs && Due(s.jobs[ids[i]], s.now) && !Queue.LockedByAnyone(s, ids[i])
    requires forall i, k :: 0 <= i < k < |ids| ==> ids[i] != ids[k]
    ensures Queue.Enabled(s, Queue.Lock(w, ids)) && Actor(Queue.Lock(w, ids)) == Some(w)
    ensures var t := Queue.Apply(s, Queue.Lock(w, ids), schedule);
      && t.jobs == s.jobs && t.messages == s.messages
      && w in t.workers && t.workers[w] == Queue.Worker(Queue.Locking, Snapshot(s.jobs, ids))
  {
    hide Queue.LockedByAnyone, Snapshot;
  }

  lemma CommitIs(s: Queue.State, w: Queue.WorkerId, schedule: Queue.Schedule)
    requires w in s.workers && s.workers[w].mode == Queue.Locking
    ensures Queue.Enabled(s, Queue.Commit(w)) && Actor(Queue.Commit(w)) == Some(w)
    ensures var t, batch := Queue.Apply(s, Queue.Commit(w), schedule), s.workers[w].batch;
      && t.jobs == ClaimAll(s.jobs, Queue.BatchIds(batch)) && t.messages == s.messages
      && w in t.workers && t.workers[w] == Queue.Worker(Queue.Working, Bumped(batch))
  {
    hide ClaimAll, Queue.BatchIds, Bumped, Queue.OpenRounds;
  }

  lemma FinishIs(s: Queue.State, w: Queue.WorkerId, schedule: Queue.Schedule)
    requires w in s.workers && s.workers[w].mode == Queue.Working && s.workers[w].batch == []
    ensures Queue.Enabled(s, Queue.Finish(w)) && Actor(Queue.Finish(w)) == Some(w)
    ensures var t := Queue.Apply(s, Queue.Finish(w), schedule);
      && t.jobs == s.jobs && t.messages == s.messages
      && w in t.workers && t.workers[w] == Queue.Worker(Queue.Idle, [])
  {
  }

  lemma SnapshotIds(jobs: JobTable, ids: seq<JobId>)
    requires forall i :: 0 <= i < |ids| ==> ids[i] in jobs
    ensures Queue.BatchIds(Snapshot(jobs, ids)) == IdSet(ids)
    ensures |Bumped(Snapshot(jobs, ids))| == |ids|
  {
    var batch := Snapshot(jobs, ids);
    forall j | j in ids ensures j in Queue.BatchIds(batch) {
      var i :| 0 <= i < |ids| && ids[i] == j;
      assert batch[i] in batch && batch[i].id == j;
    }
  }

  /** The rows a claim selects from: due, and not locked by another transaction. */
  function Claimable(s: Queue.State): set<JobId> {
    set j | j in s.jobs && Due(s.jobs[j], s.now) && !Queue.LockedByAnyone(s, j)
  }

  lemma ClaimableMeans(s: Queue.State, ids: seq<JobId>)
    requires EarliestFirst(s.jobs, Claimable(s), ids)
    ensures forall i :: 0 <= i < |ids| ==>
      ids[i] in s.jobs && Due(s.jobs[ids[i]], s.now) && !Queue.LockedByAnyone(s, ids[i])
    ensures forall i, k :: 0 <= i < k < |ids| ==> ids[i] != ids[k]
  {
    hide Queue.LockedByAnyone;
    forall i | 0 <= i < |ids| ensures ids[i] in Claimable(s) {
      assert ids[i] in ids;
    }
  }

  /** A working worker's claims are the rows it holds, in progress. */
  lemma BatchIsHeld(s: Queue.State, w: Queue.WorkerId, schedule: Queue.Schedule, i: nat)
    requires Queue.Inv(s, schedule) && w in s.workers && i < |s.workers[w].batch| && s.workers[w].mode != Queue.Locking
    ensures StrandedAt(s.jobs, s.workers[w].batch[i])
  {
    QueueRuns.InvParts(s, schedule);
    hide Queue.Inv, Queue.BoundsInv, Queue.LinkInv, Queue.TouchInv, Queue.StatusInv, Queue.HistoryInv, Queue.Exclusive;
    assert Queue.Held(s, w, i) && Queue.ClaimMatches(s, w, i);
  }

  /** The message a worker is about to touch is an outbound one. */
  lemma TouchedIsOutbound(s: Queue.State, w: Queue.WorkerId, schedule: Queue.Schedule)
    requires Queue.Inv(s, schedule) && w in s.workers && s.workers[w].mode.Touching?
    ensures var m := s.workers[w].mode.message; m in s.messages && s.messages[m].direction == Messages.Outbound
  {
    QueueRuns.InvParts(s, schedule);
    var j := s.workers[w].mode.job;
    hide Queue.Inv, Queue.HoldingInv, Queue.BoundsInv, Queue.StatusInv, Queue.HistoryInv;
    assert Queue.Linked(s, j, s.jobs[j].messageId.value);
  }

  lemma ConcludedMessageShows(rows: Messages.Table, claim: Claim, c: Conclusion)
    requires Touches(claim, c)
    requires claim.job.messageId.value in rows && rows[claim.job.messageId.value].direction == Messages.Outbound
    ensures Shown(ConcludeMessage(rows, claim.job.messageId.value, c), claim, c)
  {
  }

  // ------------------------------------------------------------------
  // What the steps of a claim come to when nobody interferes
  // ------------------------------------------------------------------

  lemma PerformPair(s: Queue.State, first: Queue.Step, second: Queue.Step, schedule: Queue.Schedule)
    requires Queue.Enabled(s, first) && Queue.Enabled(Queue.Apply(s, first, schedule), second)
    ensures Perform(s, [first, second], schedule) ==
      Some(Queue.Apply(Queue.Apply(s, first, schedule), second, schedule))
  {
    hide Queue.Enabled, Queue.Apply;
    var t := Queue.Apply(s, first, schedule);
    PerformOne(s, first, schedule);
    PerformOne(t, second, schedule);
    PerformMore(s, [first], t, [second], schedule);
    assert [first] + [second] == [first, second];
  }

  /**
   Undisturbed, a claim's steps change the job's row as concluded, the message's row as
   concluded, each if and only if its update takes effect, and nothing else.
   */
  lemma UndisturbedEffect(s: Queue.State, w: Queue.WorkerId, turn: Turn, settings: Settings, world: World)
    requires w in s.workers && s.workers[w].mode == Queue.Working
    requires s.workers[w].batch != [] && s.workers[w].batch[0] == turn.claim
    ensures
      var c := Verdict(turn, settings, world, s.now);
      var end := Perform(s, StepsFor(w, turn, settings, world), settings.schedule);
      && end.Some? && end.value.now == s.now
      && end.value.jobs == (if JobUpdated(turn, settings, world) then ConcludeJob(s.jobs, turn.claim.id, c) else s.jobs)
      && end.value.messages == (
           if MessageUpdated(turn, settings, world) && Touches(turn.claim, c)
           then ConcludeMessage(s.messages, turn.claim.job.messageId.value, c) else s.messages)
      && w in end.value.workers
      && end.value.workers[w] == (
           if Survives(turn, settings, world) then Queue.Worker(Queue.Working, s.workers[w].batch[1..])
           else Queue.Worker(Queue.Dead, []))
  {
    hide *;
    var schedule, crash, touch := settings.schedule, Queue.Crash(w), Queue.TouchMessage(w);
    var conclude := Queue.Conclude(w, Known(turn, settings), AttemptAt(turn, world));
    StepsForCases(w, turn, settings, world);
    VerdictKind(turn, settings, world, s.now);
    OutcomesAre(turn, settings, world);
    VerdictMeans(turn, settings, world, s.now);
    if !JobUpdated(turn, settings, world) {
      CrashIs(s, w, schedule);
      PerformOne(s, crash, schedule);
      return;
    }
    ConcludeIs(s, w, Known(turn, settings), AttemptAt(turn, world), schedule);
    var t := Queue.Apply(s, conclude, schedule);
    PerformOne(s, conclude, schedule);
    CrashIs(t, w, schedule);
    if !MessageUpdated(turn, settings, world) {
      if !Survives(turn, settings, world) {
        PerformPair(s, conclude, crash, schedule);
      }
      return;
    }
    TouchIs(t, w, schedule);
    PerformPair(s, conclude, touch, schedule);
    var u := Queue.Apply(t, touch, schedule);
    CrashIs(u, w, schedule);
    PerformOne(u, crash, schedule);
    PerformMore(s, [conclude, touch], u, [crash], schedule);
    assert [conclude, touch] + [crash] == [conclude, touch, crash];
  }

  lemma VerdictMeans(turn: Turn, settings: Settings, world: World, now: Time)
    ensures Verdict(turn, settings, world, now) == Queue.ConclusionOf(
      turn.claim.job, Known(turn, settings), AttemptAt(turn, world), settings.schedule, now)
  {
    hide Queue.ConclusionOf, Known, AttemptAt;
  }

  lemma OutcomesAre(turn: Turn, settings: Settings, world: World)
    ensures MessageUpdated(turn, settings, world) ==>
      JobUpdated(turn, settings, world) && Touches(turn.claim, Verdict(turn, settings, world, 0))
    ensures Survives(turn, settings, world) && !MessageUpdated(turn, settings, world) ==>
      JobUpdated(turn, settings, world) && !Touches(turn.claim, Verdict(turn, settings, world, 0))
    ensures Survives(turn, settings, world) ==> JobUpdated(turn, settings, world)
  {
    hide JobUpdated, Touches, Verdict, At;
  }

  lemma StepsForCases(w: Queue.WorkerId, turn: Turn, settings: Settings, world: World)
    ensures
      var conclude := Queue.Conclude(w, Known(turn, settings), AttemptAt(turn, world));
      && var steps := StepsFor(w, turn, settings, world);
      && var updated, survives := JobUpdated(turn, settings, world), Survives(turn, settings, world);
      && var shown := MessageUpdated(turn, settings, world);
      && (!updated && !shown && !survives ==> steps == [Queue.Crash(w)])
      && (updated && !shown && survives ==> steps == [conclude])
      && (updated && !shown && !survives ==> steps == [conclude, Queue.Crash(w)])
      && (updated && shown && survives ==> steps == [conclude, Queue.TouchMessage(w)])
      && (updated && shown && !survives ==> steps == [conclude, Queue.TouchMessage(w), Queue.Crash(w)])
  {
    hide JobUpdated, Survives, MessageUpdated, Known, AttemptAt;
  }

  /** Undisturbed, the claim's two steps leave the table and the claims that ClaimDueJobs does. */
  lemma ClaimingFollowsProtocol(s: Queue.State, w: Queue.WorkerId, ids: seq<JobId>, schedule: Queue.Schedule)
    requires w in s.workers && s.workers[w].mode == Queue.Idle && ids != []
    requires EarliestFirst(s.jobs, Claimable(s), ids)
    ensures forall i :: 0 <= i < |ids| ==> ids[i] in s.jobs
    ensures var end := Perform(s, [Queue.Lock(w, ids), Queue.Commit(w)], schedule);
      && end.Some?
      && end.value.jobs == ClaimAll(s.jobs, IdSet(ids))
      && end.value.messages == s.messages
      && w in end.value.workers && end.value.workers[w] == Queue.Worker(Queue.Working, Bumped(Snapshot(s.jobs, ids)))
  {
    ClaimableMeans(s, ids);
    hide *;
    LockIs(s, w, ids, schedule);
    CommitIs(Queue.Apply(s, Queue.Lock(w, ids), schedule), w, schedule);
    SnapshotIds(s.jobs, ids);
    PerformPair(s, Queue.Lock(w, ids), Queue.Commit(w), schedule);
  }

  // ------------------------------------------------------------------
  // Stretches of the run in which the worker takes given steps
  // ------------------------------------------------------------------

  /**
   The trace leads from one state to the other, the worker's own steps in it are `own`,
   and alone in the world it is those.
   */
  ghost predicate Went(
    s: Queue.State, t: Queue.State, trace: seq<Queue.Step>, own: seq<Queue.Step>,
    w: Queue.WorkerId, schedule: Queue.Schedule, world: World
  ) {
    && Perform(s, trace, schedule) == Some(t) && Own(trace, w) == own
    && (Quiet(world) ==> trace == own)
  }

  lemma WentNowhere(s: Queue.State, w: Queue.WorkerId, schedule: Queue.Schedule, world: World)
    ensures Went(s, s, [], [], w, schedule, world)
  {
  }

  lemma WentOneStep(s: Queue.State, step: Queue.Step, w: Queue.WorkerId, schedule: Queue.Schedule, world: World)
    requires Queue.Enabled(s, step) && Actor(step) == Some(w)
    ensures Went(s, Queue.Apply(s, step, schedule), [step], [step], w, schedule, world)
  {
    PerformOne(s, step, schedule);
    hide Queue.Enabled, Queue.Apply, Actor, Perform;
    assert [step][1..] == [];
    assert Own([], w) == [];
  }

  lemma WentOn(
    s: Queue.State, t: Queue.State, u: Queue.State, first: seq<Queue.Step>, own: seq<Queue.Step>,
    second: seq<Queue.Step>, more: seq<Queue.Step>, w: Queue.WorkerId, schedule: Queue.Schedule, world: World
  )
    requires Went(s, t, first, own, w, schedule, world) && Went(t, u, second, more, w, schedule, world)
    ensures Went(s, u, first + second, own + more, w, schedule, world)
  {
    PerformMore(s, first, t, second, schedule);
    OwnMore(first, second, w);
    hide Perform, Own, Quiet;
  }

  lemma WentAlong(
    s: Queue.State, steps: seq<Queue.Step>, w: Queue.WorkerId, schedule: Queue.Schedule, world: World, p: Point
  )
    requires Queue.Inv(s, schedule) && steps == world.others(p)
    ensures Went(s, Interleave(s, steps, w, schedule), Taken(s, steps, w, schedule), [], w, schedule, world)
  {
    InterleaveKeeps(s, steps, w, schedule);
    hide Queue.Inv, Perform, Own, Interleave, Taken;
  }

  // ------------------------------------------------------------------
  // A whole batch, undisturbed and with no call raising
  // ------------------------------------------------------------------

  /** No call raises. */
  ghost predicate Calm(world: World) {
    forall p :: world.fault(p) == Fine
  }

  lemma CalmSurvives(turn: Turn, settings: Settings, world: World)
    requires Calm(world)
    ensures JobUpdated(turn, settings, world) && Survives(turn, settings, world)
  {
    hide Touches, Verdict;
  }

  /** Every delay a failure can call for is a real one; the first entry never is called for. */
  predicate RealDelays(schedule: Queue.Schedule) {
    forall i :: 1 <= i < |schedule| ==> schedule[i] > 0
  }

  /** A claimed row before and after its conclusion at `now`: no attempt is lost, and it is not due again at once. */
  predicate Settles(row: Job, row': Job, now: Time, schedule: Queue.Schedule) {
    row'.attemptCount == row.attemptCount && (RealDelays(schedule) ==> !Due(row', now))
  }

  lemma VerdictSettles(turn: Turn, settings: Settings, world: World, row: Job, now: Time)
    requires turn.claim.job.attemptCount >= 1
    ensures Settles(row, Concluded(row, Verdict(turn, settings, world, now)), now, settings.schedule)
  {
    hide AttemptOf;
  }

  ghost predicate DistinctClaims(claims: seq<Claim>) {
    && (forall i :: 0 <= i < |claims| ==> claims[i].job.attemptCount >= 1)
    && (forall i, k :: 0 <= i < k < |claims| ==> claims[i].id != claims[k].id)
  }

  predicate IsAmong(claims: seq<Claim>, n: nat, j: JobId)
    requires n <= |claims|
  {
    exists i :: 0 <= i < n && claims[i].id == j
  }

  /** The first `n` claims' rows are settled, all others are as they were. */
  ghost predicate BatchSettles(
    jobs: JobTable, jobs': JobTable, claims: seq<Claim>, n: nat, now: Time, schedule: Queue.Schedule
  )
    requires n <= |claims|
  {
    && jobs'.Keys == jobs.Keys
    && forall j :: j in jobs ==>
      if IsAmong(claims, n, j) then Settles(jobs[j], jobs'[j], now, schedule) else jobs'[j] == jobs[j]
  }

  lemma BatchSettlesOne(
    jobs: JobTable, jobs': JobTable, jobs'': JobTable, claims: seq<Claim>, n: nat, now: Time, schedule: Queue.Schedule)
    requires n < |claims| && DistinctClaims(claims)
    requires BatchSettles(jobs, jobs', claims, n, now, schedule)
    requires jobs''.Keys == jobs'.Keys && forall j :: j in jobs' && j != claims[n].id ==> jobs''[j] == jobs'[j]
    requires claims[n].id in jobs' ==> Settles(jobs'[claims[n].id], jobs''[claims[n].id], now, schedule)
    ensures BatchSettles(jobs, jobs'', claims, n + 1, now, schedule)
  {
    hide Settles;
    forall j | j in jobs
      ensures if IsAmong(claims, n + 1, j) then Settles(jobs[j], jobs''[j], now, schedule) else jobs''[j] == jobs[j]
    {
      if IsAmong(claims, n, j) {
        assert j != claims[n].id;
      } else if j == claims[n].id {
        assert IsAmong(claims, n + 1, j);
      }
    }
  }

  lemma {:induction false} BatchEffect(
    s: Queue.State, w: Queue.WorkerId, claims: seq<Claim>, cycle: nat, n: nat, settings: Settings, world: World)
    requires Calm(world) && DistinctClaims(claims) && n <= |claims|
    requires w in s.workers && s.workers[w] == Queue.Worker(Queue.Working, claims)
    ensures var end := Perform(s, BatchSteps(w, claims, cycle, n, settings, world), settings.schedule);
      && end.Some? && end.value.now == s.now
      && w in end.value.workers && end.value.workers[w] == Queue.Worker(Queue.Working, claims[n..])
      && BatchSettles(s.jobs, end.value.jobs, claims, n, s.now, settings.schedule)
    decreases n
  {
    hide *;
    BatchUnfold(w, claims, cycle, n, settings, world);
    if n == 0 {
      PerformNone(s, settings.schedule);
      NothingSettles(s.jobs, claims, s.now, settings.schedule);
    } else {
      var before := BatchSteps(w, claims, cycle, n - 1, settings, world);
      var turn := Turn(claims[n - 1], cycle, n - 1);
      BatchEffect(s, w, claims, cycle, n - 1, settings, world);
      var u := Perform(s, before, settings.schedule).value;
      assert claims[n - 1..][0] == claims[n - 1] && claims[n - 1..][1..] == claims[n..];
      CalmSurvives(turn, settings, world);
      UndisturbedEffect(u, w, turn, settings, world);
      PerformMore(s, before, u, StepsFor(w, turn, settings, world), settings.schedule);
      ClaimsAre(claims);
      ConclusionSettles(u.jobs, turn, settings, world, s.now);
      BatchSettlesOne(s.jobs, u.jobs, ConcludeJob(u.jobs, turn.claim.id, Verdict(turn, settings, world, s.now)),
                      claims, n - 1, s.now, settings.schedule);
    }
  }

  lemma ClaimsAre(claims: seq<Claim>)
    requires DistinctClaims(claims)
    ensures forall i :: 0 <= i < |claims| ==> claims[i].job.attemptCount >= 1
  {
  }

  lemma NothingSettles(jobs: JobTable, claims: seq<Claim>, now: Time, schedule: Queue.Schedule)
    ensures BatchSettles(jobs, jobs, claims, 0, now, schedule)
  {
    hide Settles;
  }

  lemma ConclusionSettles(jobs: JobTable, turn: Turn, settings: Settings, world: World, now: Time)
    requires turn.claim.job.attemptCount >= 1
    ensures var jobs' := ConcludeJob(jobs, turn.claim.id, Verdict(turn, settings, world, now));
      && jobs'.Keys == jobs.Keys && (forall j :: j in jobs && j != turn.claim.id ==> jobs'[j] == jobs[j])
      && (turn.claim.id in jobs ==> Settles(jobs[turn.claim.id], jobs'[turn.claim.id], now, settings.schedule))
  {
    hide Verdict, Settles, Concluded;
    if turn.claim.id in jobs {
      VerdictSettles(turn, settings, world, jobs[turn.claim.id], now);
    }
  }

  lemma BatchUnfold(w: Queue.WorkerId, claims: seq<Claim>, cycle: nat, n: nat, settings: Settings, world: World)
    requires n <= |claims|
    ensures BatchSteps(w, claims, cycle, n, settings, world) ==
      if n == 0 then []
      else
        BatchSteps(w, claims, cycle, n - 1, settings, world)
        + StepsFor(w, Turn(claims[n - 1], cycle, n - 1), settings, world)
  {
    hide StepsFor;
  }

  // ------------------------------------------------------------------
  // The worker
  // ------------------------------------------------------------------

  const BATCH: nat := 10

  /** What to do with a job, before the clock is read: `Postpone` counts from the failure. */
  datatype Plan = GiveUp | Accept(receipt: ReceiptInfo) | Refuse(code: Bytes) | Exhaust | Postpone(delay: int)

  function Planned(plan: Plan, now: Time): Conclusion {
    match plan
    case GiveUp => UnknownPartner
    case Accept(receipt) => Deliver(receipt)
    case Refuse(code) => Nack(code)
    case Exhaust => Exhausted
    case Postpone(delay) => Retry(now + delay)
  }

  /** The plan is the one the claim's reply calls for. */
  ghost predicate Calls(plan: Plan, turn: Turn, settings: Settings, world: World) {
    forall now :: Planned(plan, now) == Verdict(turn, settings, world, now)
  }

  /** A failed attempt leaves its row due at once if and only if there is a delay for it and it is no real one. */
  lemma BackAtOnceIff(row: Job, n: nat, schedule: Queue.Schedule, now: Time)
    ensures Due(Concluded(row, Queue.FailureConclusion(n, schedule, now)), now) <==> n < |schedule| && schedule[n] <= 0
  {
  }

  /**
   Then a waiting row may be passed over: when a whole batch has just failed and is back with
   no real delay, the next claim may take the same rows again, and must if they are back before
   the waiting one's time.
   */
  lemma PassedOver(
    jobs: JobTable, again: seq<JobId>, waiting: JobId, n: nat, schedule: Queue.Schedule, now: Time)
    requires n < |schedule| && schedule[n] <= 0 && |again| == BATCH
    requires jobs.Keys == IdSet(again) + {waiting} && waiting !in again
    requires forall i, k :: 0 <= i < k < |again| ==> again[i] != again[k]
    requires forall j :: j in again ==> jobs[j] == Concluded(jobs[j], Queue.FailureConclusion(n, schedule, now))
    requires Due(jobs[waiting], now) && jobs[waiting].nextAttemptAt == now
    ensures EarliestFirst(jobs, DueUnlocked(jobs, now, {}), again)
    ensures schedule[n] < 0 ==> forall ids: seq<JobId> ::
      EarliestFirst(jobs, DueUnlocked(jobs, now, {}), ids) && |ids| == BATCH ==> waiting !in ids
  {
    var due := DueUnlocked(jobs, now, {});
    forall j | j in again ensures j in due && jobs[j].nextAttemptAt == now + schedule[n] {
      assert j in IdSet(again);
    }
    forall i | 0 <= i < |again| ensures again[i] in jobs {
      assert again[i] in due;
    }
    if schedule[n] < 0 {
      forall ids: seq<JobId> | EarliestFirst(jobs, due, ids) && |ids| == BATCH ensures waiting !in ids {
        LeftOut(again, ids, waiting);
        EarliestMeans(jobs, due, ids, waiting);
      }
    }
  }

  lemma EarliestMeans(jobs: JobTable, due: set<JobId>, ids: seq<JobId>, j: JobId)
    requires due <= jobs.Keys && EarliestFirst(jobs, due, ids)
    ensures j in ids ==>
      j in jobs && forall k :: k in due && k !in ids ==> jobs[j].nextAttemptAt <= jobs[k].nextAttemptAt
  {
  }

  /** Of two selections of one size, either leaves out something the other has if the other does. */
  lemma LeftOut(again: seq<JobId>, ids: seq<JobId>, waiting: JobId)
    requires |again| == |ids| && waiting !in again
    requires forall i, k :: 0 <= i < k < |again| ==> again[i] != again[k]
    requires forall i, k :: 0 <= i < k < |ids| ==> ids[i] != ids[k]
    ensures waiting in ids ==> exists j :: j in again && j !in ids
  {
    IdsCount(again);
    IdsCount(ids);
    var a, b := IdSet(again), IdSet(ids);
    assert a == (a - b) + (a * b) && b == (b - a) + (a * b);
    if waiting in ids {
      assert waiting in b - a;
      assert |a - b| > 0;
      var j :| j in a - b;
    }
  }

  /** A poll cycle: the state its rows were selected in, the state it ended in, and what it claimed and concluded. */
  datatype Cycle = Cycle(
    at: Queue.State, end: Queue.State, ids: seq<JobId>, claims: seq<Claim>, done: nat, alive: bool,
    trace: seq<Queue.Step>
  )

  class Worker {
    const id: Queue.WorkerId
    const jobs: OutboundJobRepository
    const tracker: Messages.MessageTracker
    const settings: Settings
    const world: World

    constructor (
      id: Queue.WorkerId, jobs: OutboundJobRepository, tracker: Messages.MessageTracker, settings: Settings,
      world: World
    )
      ensures this.id == id && this.jobs == jobs && this.tracker == tracker
      ensures this.settings == settings && this.world == world
    {
      this.id, this.jobs, this.tracker := id, jobs, tracker;
      this.settings, this.world := settings, world;
    }

    /** The two tables are those of the state, and the state is one the protocol allows. */
    ghost predicate Matches(s: Queue.State)
      reads jobs, tracker
    {
      jobs.jobs == s.jobs && tracker.rows == s.messages && Queue.Inv(s, settings.schedule)
    }

    lemma MatchesIs(s: Queue.State)
      ensures Matches(s) <==> jobs.jobs == s.jobs && tracker.rows == s.messages && Queue.Inv(s, settings.schedule)
    {
    }

    ghost predicate Goes(s: Queue.State, t: Queue.State, trace: seq<Queue.Step>, own: seq<Queue.Step>) {
      Went(s, t, trace, own, id, settings.schedule, world)
    }

    lemma GoesOn(
      s: Queue.State, t: Queue.State, u: Queue.State, first: seq<Queue.Step>, own: seq<Queue.Step>,
      second: seq<Queue.Step>, more: seq<Queue.Step>
    )
      requires Goes(s, t, first, own) && Goes(t, u, second, more)
      ensures Goes(s, u, first + second, own + more)
    {
      WentOn(s, t, u, first, own, second, more, id, settings.schedule, world);
    }

    /** Waiting first adds no step of its own. */
    lemma GoesAfter(
      s: Queue.State, t: Queue.State, u: Queue.State, waited: seq<Queue.Step>,
      second: seq<Queue.Step>, own: seq<Queue.Step>
    )
      requires Goes(s, t, waited, []) && Goes(t, u, second, own)
      ensures Goes(s, u, waited + second, own)
    {
      GoesOn(s, t, u, waited, [], second, own);
      assert [] + own == own;
    }

    /** The worker is at work, with these claims still before it. */
    predicate AtWork(s: Queue.State, batch: seq<Claim>) {
      id in s.workers && s.workers[id] == Queue.Worker(Queue.Working, batch)
    }

    predicate Is(s: Queue.State, mode: Queue.Mode) {
      id in s.workers && s.workers[id] == Queue.Worker(mode, [])
    }

    /** Others move before the call made at `p`. */
    method Await(s: Queue.State, p: Point) returns (t: Queue.State, ghost trace: seq<Queue.Step>)
      requires Matches(s)
      modifies jobs, tracker
      ensures Matches(t) && Goes(s, t, trace, [])
      ensures id in s.workers ==> id in t.workers && t.workers[id] == s.workers[id]
      ensures forall j :: j in s.jobs && Terminal(s.jobs[j].status) ==> j in t.jobs && t.jobs[j] == s.jobs[j]
    {
      hide *;
      MatchesIs(s);
      t := Interleave(s, world.others(p), id, settings.schedule);
      trace := Taken(s, world.others(p), id, settings.schedule);
      InterleaveKeeps(s, world.others(p), id, settings.schedule);
      WentAlong(s, world.others(p), id, settings.schedule, world, p);
      GoesIs(s, t, trace, []);
      jobs.jobs := t.jobs;
      tracker.rows := t.messages;
      MatchesIs(t);
    }

    lemma GoesIs(s: Queue.State, t: Queue.State, trace: seq<Queue.Step>, own: seq<Queue.Step>)
      ensures Goes(s, t, trace, own) <==> Went(s, t, trace, own, id, settings.schedule, world)
    {
      hide Went;
    }

    /** A step of the worker's own, its effect on the tables already made. */
    method Take(s: Queue.State, step: Queue.Step) returns (t: Queue.State, ghost trace: seq<Queue.Step>)
      requires Queue.Inv(s, settings.schedule) && Queue.Enabled(s, step) && Actor(step) == Some(id)
      requires var u := Queue.Apply(s, step, settings.schedule); jobs.jobs == u.jobs && tracker.rows == u.messages
      ensures t == Queue.Apply(s, step, settings.schedule) && Matches(t) && Goes(s, t, trace, [step])
    {
      hide *;
      t := Queue.Apply(s, step, settings.schedule);
      trace := [step];
      QueueRuns.InvStep(s, step, settings.schedule);
      WentOneStep(s, step, id, settings.schedule, world);
      GoesIs(s, t, trace, [step]);
      MatchesIs(t);
    }

    /** An exception nobody catches ends the worker. */
    method Die(s: Queue.State) returns (t: Queue.State, ghost trace: seq<Queue.Step>)
      requires Matches(s) && id in s.workers
      ensures Matches(t) && Goes(s, t, trace, [Queue.Crash(id)]) && Is(t, Queue.Dead)
      ensures t.jobs == s.jobs && t.messages == s.messages && t.now == s.now
    {
      hide *;
      MatchesIs(s);
      CrashIs(s, id, settings.schedule);
      t, trace := Take(s, Queue.Crash(id));
      IsIs(t, Queue.Dead);
    }

    lemma IsIs(s: Queue.State, mode: Queue.Mode)
      ensures Is(s, mode) <==> id in s.workers && s.workers[id] == Queue.Worker(mode, [])
    {
    }

    lemma AtWorkIs(s: Queue.State, batch: seq<Claim>)
      ensures AtWork(s, batch) <==> id in s.workers && s.workers[id] == Queue.Worker(Queue.Working, batch)
    {
    }

    lemma RestIsHeld(s: Queue.State)
      requires Matches(s) && id in s.workers && s.workers[id].mode != Queue.Locking
      ensures forall i :: 0 <= i < |s.workers[id].batch| ==> StrandedAt(s.jobs, s.workers[id].batch[i])
    {
      hide *;
      MatchesIs(s);
      forall i | 0 <= i < |s.workers[id].batch| ensures StrandedAt(s.jobs, s.workers[id].batch[i]) {
        BatchIsHeld(s, id, settings.schedule, i);
      }
    }

    /** The concluding UPDATE on the job. */
    method StoreJob(claim: Claim, plan: Plan, now: Time)
      modifies jobs
      ensures jobs.jobs == ConcludeJob(old(jobs.jobs), claim.id, Planned(plan, now))
    {
      match plan
      case GiveUp => jobs.MarkExchangeFailure(claim.id);
      case Accept(receipt) => jobs.MarkDelivered(claim.id, receipt);
      case Refuse(code) => jobs.MarkFailedNack(claim.id, code);
      case Exhaust => jobs.MarkExchangeFailure(claim.id);
      case Postpone(delay) => jobs.Reschedule(claim.id, now + delay);
    }

    /** And the one on its message, where there is one to make. */
    method StoreMessage(m: Messages.MessageId, plan: Plan)
      requires plan.Accept? || plan.Refuse? || plan.Exhaust?
      modifies tracker
      ensures forall now :: tracker.rows == ConcludeMessage(old(tracker.rows), m, Planned(plan, now))
    {
      match plan
      case Accept(_) => tracker.SetStatus(m, Messages.Delivered, None, Some(true));
      case Refuse(code) => tracker.SetStatus(m, Messages.FailedNack, Some(code), Some(true));
      case Exhaust => tracker.SetStatus(m, Messages.ExchangeFailure, None, None);
    }

    /** How a claim's turn has ended: the worker, the claim's row, its message, and the claims still to come. */
    ghost predicate Ended(s: Queue.State, t: Queue.State, turn: Turn, alive: bool) {
      && (alive <==> Survives(turn, settings, world))
      && (id in s.workers && s.workers[id].batch != [] ==>
            && (if alive then AtWork(t, s.workers[id].batch[1..]) else Is(t, Queue.Dead))
            && (if JobUpdated(turn, settings, world) then ConcludedAt(t.jobs, turn, settings, world, t.now)
                else StrandedAt(t.jobs, turn.claim))
            && (MessageUpdated(turn, settings, world) && Touches(turn.claim, Verdict(turn, settings, world, t.now)) ==>
                  Shown(t.messages, turn.claim, Verdict(turn, settings, world, t.now)))
            && (forall i :: 1 <= i < |s.workers[id].batch| ==> StrandedAt(t.jobs, s.workers[id].batch[i])))
    }

    ghost predicate AtTurn(s: Queue.State, turn: Turn) {
      id in s.workers && s.workers[id].mode == Queue.Working && s.workers[id].batch != []
      && s.workers[id].batch[0] == turn.claim
    }

    lemma AtTurnIs(s: Queue.State, turn: Turn)
      ensures AtTurn(s, turn) <==>
        id in s.workers && s.workers[id].mode == Queue.Working && s.workers[id].batch != []
        && s.workers[id].batch[0] == turn.claim
    {
    }

    /** The rows of the claims after the current one. */
    ghost predicate RestStranded(jobs: JobTable, batch: seq<Claim>) {
      forall i :: 1 <= i < |batch| ==> StrandedAt(jobs, batch[i])
    }

    /** The worker's entry after the job update: on to the message, or on to the next claim. */
    ghost predicate Resolved(t: Queue.State, turn: Turn, rest: seq<Claim>) {
      var c := Verdict(turn, settings, world, t.now);
      && id in t.workers
      && t.workers[id] == (
           if Touches(turn.claim, c)
           then Queue.Worker(Queue.Touching(turn.claim.id, turn.claim.job.messageId.value, c), rest)
           else Queue.Worker(Queue.Working, rest))
    }

    lemma ResolvedIs(t: Queue.State, turn: Turn, rest: seq<Claim>)
      ensures Resolved(t, turn, rest) <==>
        var c := Verdict(turn, settings, world, t.now);
        && id in t.workers
        && t.workers[id] == (
             if Touches(turn.claim, c)
             then Queue.Worker(Queue.Touching(turn.claim.id, turn.claim.job.messageId.value, c), rest)
             else Queue.Worker(Queue.Working, rest))
    {
      hide Verdict, Touches;
    }

    lemma CallsIs(plan: Plan, turn: Turn, now: Time)
      requires Calls(plan, turn, settings, world)
      ensures Planned(plan, now) == Verdict(turn, settings, world, now)
    {
      hide Planned, Verdict;
    }

    /** The row before and after the update. */
    lemma RowConcluded(jobs: JobTable, turn: Turn, now: Time)
      requires StrandedAt(jobs, turn.claim)
      ensures
        var jobs' := ConcludeJob(jobs, turn.claim.id, Verdict(turn, settings, world, now));
        ConcludedAt(jobs', turn, settings, world, now)
    {
      hide Verdict, Concluded;
    }

    lemma AllHeld(s: Queue.State, turn: Turn)
      requires Matches(s) && AtTurn(s, turn)
      ensures StrandedAt(s.jobs, turn.claim) && RestStranded(s.jobs, s.workers[id].batch)
    {
      MatchesIs(s);
      RestIsHeld(s);
      hide Matches, StrandedAt;
    }

    lemma RestHeld(t: Queue.State, batch: seq<Claim>)
      requires Matches(t) && id in t.workers && t.workers[id].mode != Queue.Locking && batch != []
      requires t.workers[id].batch == batch[1..]
      ensures RestStranded(t.jobs, batch)
    {
      RestIsHeld(t);
      hide Matches, StrandedAt;
      forall i | 1 <= i < |batch| ensures StrandedAt(t.jobs, batch[i]) {
        assert t.workers[id].batch[i - 1] == batch[i];
      }
    }

    /** The job update, and the crash if it raises. */
    method UpdateJob(s: Queue.State, turn: Turn, plan: Plan) returns (t: Queue.State, ghost trace: seq<Queue.Step>)
      requires Matches(s) && AtTurn(s, turn) && Calls(plan, turn, settings, world)
      modifies jobs, tracker
      ensures Matches(t) && RestStranded(t.jobs, s.workers[id].batch)
      ensures
        var fault := world.fault(At(turn, ConcludingJob));
        var conclude := Queue.Conclude(id, Known(turn, settings), AttemptAt(turn, world));
        && Goes(s, t, trace,
                if fault == RaisesBefore then [Queue.Crash(id)]
                else if fault == RaisesAfter then [conclude, Queue.Crash(id)] else [conclude])
        && (if fault == RaisesBefore then StrandedAt(t.jobs, turn.claim)
            else ConcludedAt(t.jobs, turn, settings, world, t.now))
        && (if fault == Fine then Resolved(t, turn, s.workers[id].batch[1..]) else Is(t, Queue.Dead))
    {
      hide *;
      AtTurnIs(s, turn);
      var p := At(turn, ConcludingJob);
      var u, waited := Await(s, p);
      AtTurnIs(u, turn);
      AllHeld(u, turn);
      if world.fault(p) == RaisesBefore {
        ghost var died;
        t, died := Die(u);
        GoesAfter(s, u, t, waited, died, [Queue.Crash(id)]);
        trace := waited + died;
        return;
      }
      MatchesIs(u);
      CallsIs(plan, turn, u.now);
      VerdictMeans(turn, settings, world, u.now);
      RowConcluded(u.jobs, turn, u.now);
      var step := Queue.Conclude(id, Known(turn, settings), AttemptAt(turn, world));
      ConcludeIs(u, id, Known(turn, settings), AttemptAt(turn, world), settings.schedule);
      StoreJob(turn.claim, plan, u.now);
      ghost var stored;
      t, stored := Take(u, step);
      ResolvedIs(t, turn, s.workers[id].batch[1..]);
      RestHeld(t, s.workers[id].batch);
      GoesAfter(s, u, t, waited, stored, [step]);
      trace := waited + stored;
      if world.fault(p) == RaisesAfter {
        ghost var died;
        ghost var before := t;
        t, died := Die(t);
        GoesOn(s, before, t, trace, [step], died, [Queue.Crash(id)]);
        assert [step] + [Queue.Crash(id)] == [step, Queue.Crash(id)];
        trace := trace + died;
      }
    }

    /** The message update, and the crash if it raises. The concluded job does not change meanwhile. */
    method UpdateMessage(s: Queue.State, turn: Turn, plan: Plan, ghost batch: seq<Claim>)
      returns (t: Queue.State, ghost trace: seq<Queue.Step>)
      requires Matches(s) && batch != [] && Resolved(s, turn, batch[1..])
      requires ConcludedAt(s.jobs, turn, settings, world, s.now)
      requires Calls(plan, turn, settings, world) && Touches(turn.claim, Verdict(turn, settings, world, s.now))
      modifies jobs, tracker
      ensures Matches(t) && RestStranded(t.jobs, batch)
      ensures ConcludedAt(t.jobs, turn, settings, world, t.now)
      ensures Touches(turn.claim, Verdict(turn, settings, world, t.now))
      ensures
        var fault := world.fault(At(turn, TouchingMessage));
        && Goes(s, t, trace,
                if fault == RaisesBefore then [Queue.Crash(id)]
                else if fault == RaisesAfter then [Queue.TouchMessage(id), Queue.Crash(id)]
                else [Queue.TouchMessage(id)])
        && (fault != RaisesBefore ==> Shown(t.messages, turn.claim, Verdict(turn, settings, world, t.now)))
        && (if fault == Fine then AtWork(t, batch[1..]) else Is(t, Queue.Dead))
    {
      hide *;
      var c := Verdict(turn, settings, world, s.now);
      ResolvedIs(s, turn, batch[1..]);
      VerdictKind(turn, settings, world, s.now);
      ConcludedIsTerminal(s.jobs, turn, s.now);
      var p := At(turn, TouchingMessage);
      var u, waited := Await(s, p);
      VerdictKind(turn, settings, world, u.now);
      ConcludedStays(s, u, turn);
      RestHeld(u, batch);
      if world.fault(p) == RaisesBefore {
        ghost var died;
        t, died := Die(u);
        GoesAfter(s, u, t, waited, died, [Queue.Crash(id)]);
        trace := waited + died;
        return;
      }
      MatchesIs(u);
      TouchIs(u, id, settings.schedule);
      TouchedIsOutbound(u, id, settings.schedule);
      ConcludedMessageShows(u.messages, turn.claim, c);
      CallsIs(plan, turn, s.now);
      TouchingPlan(plan, turn.claim, s.now);
      StoreMessage(turn.claim.job.messageId.value, plan);
      ghost var stored;
      t, stored := Take(u, Queue.TouchMessage(id));
      AtWorkIs(t, batch[1..]);
      GoesAfter(s, u, t, waited, stored, [Queue.TouchMessage(id)]);
      trace := waited + stored;
      if world.fault(p) == RaisesAfter {
        ghost var died;
        ghost var before := t;
        t, died := Die(t);
        GoesOn(s, before, t, trace, [Queue.TouchMessage(id)], died, [Queue.Crash(id)]);
        assert [Queue.TouchMessage(id)] + [Queue.Crash(id)] == [Queue.TouchMessage(id), Queue.Crash(id)];
        trace := trace + died;
      }
    }

    lemma TouchingPlan(plan: Plan, claim: Claim, now: Time)
      requires Touches(claim, Planned(plan, now))
      ensures plan.Accept? || plan.Refuse? || plan.Exhaust?
      ensures claim.job.messageId.Some?
    {
    }

    lemma ConcludedIsTerminal(jobs: JobTable, turn: Turn, now: Time)
      requires ConcludedAt(jobs, turn, settings, world, now) && Touches(turn.claim, Verdict(turn, settings, world, now))
      ensures turn.claim.id in jobs && Terminal(jobs[turn.claim.id].status)
    {
    }

    lemma ConcludedStays(s: Queue.State, u: Queue.State, turn: Turn)
      requires ConcludedAt(s.jobs, turn, settings, world, s.now)
      requires Verdict(turn, settings, world, s.now) == Verdict(turn, settings, world, u.now)
      requires turn.claim.id in u.jobs && turn.claim.id in s.jobs && u.jobs[turn.claim.id] == s.jobs[turn.claim.id]
      ensures ConcludedAt(u.jobs, turn, settings, world, u.now)
    {
      hide Verdict, Concluded;
    }

    /** What the three outcomes of a turn amount to, in terms of what raises where. */
    lemma FaultsMean(turn: Turn)
      requires !AttemptRaises(turn, settings, world)
      ensures JobUpdated(turn, settings, world) <==> world.fault(At(turn, ConcludingJob)) != RaisesBefore
      ensures Survives(turn, settings, world) ==> JobUpdated(turn, settings, world)
      ensures MessageUpdated(turn, settings, world) <==>
        && world.fault(At(turn, ConcludingJob)) == Fine && Touches(turn.claim, Verdict(turn, settings, world, 0))
        && world.fault(At(turn, TouchingMessage)) != RaisesBefore
      ensures Survives(turn, settings, world) <==>
        && world.fault(At(turn, ConcludingJob)) == Fine
        && (Touches(turn.claim, Verdict(turn, settings, world, 0)) ==> world.fault(At(turn, TouchingMessage)) == Fine)
    {
      hide AttemptRaises, Touches, Verdict, At;
    }

    lemma StruckMeans(turn: Turn)
      requires AttemptRaises(turn, settings, world)
      ensures !JobUpdated(turn, settings, world) && !MessageUpdated(turn, settings, world)
      ensures !Survives(turn, settings, world)
    {
      hide AttemptRaises, Touches, Verdict, At;
    }

    lemma EndedIs(s: Queue.State, t: Queue.State, turn: Turn, alive: bool)
      requires AtTurn(s, turn)
      ensures Ended(s, t, turn, alive) <==>
        && (alive <==> Survives(turn, settings, world))
        && (if alive then AtWork(t, s.workers[id].batch[1..]) else Is(t, Queue.Dead))
        && (if JobUpdated(turn, settings, world) then ConcludedAt(t.jobs, turn, settings, world, t.now)
            else StrandedAt(t.jobs, turn.claim))
        && (MessageUpdated(turn, settings, world) && Touches(turn.claim, Verdict(turn, settings, world, t.now)) ==>
              Shown(t.messages, turn.claim, Verdict(turn, settings, world, t.now)))
        && RestStranded(t.jobs, s.workers[id].batch)
    {
      hide Survives, JobUpdated, MessageUpdated, ConcludedAt, StrandedAt, Touches, Verdict, Shown, AtWork, Is;
    }

    /** Conclude a claim as planned: its job, then its message if the conclusion concerns one. */
    method ConcludeAs(s: Queue.State, turn: Turn, plan: Plan)
      returns (t: Queue.State, alive: bool, ghost trace: seq<Queue.Step>)
      requires Matches(s) && AtTurn(s, turn) && Calls(plan, turn, settings, world)
      requires !AttemptRaises(turn, settings, world)
      modifies jobs, tracker
      ensures Matches(t) && Goes(s, t, trace, StepsFor(id, turn, settings, world)) && Ended(s, t, turn, alive)
    {
      hide *;
      FaultsMean(turn);
      StepsForCases(id, turn, settings, world);
      AtTurnIs(s, turn);
      ghost var batch := s.workers[id].batch;
      var u, first := UpdateJob(s, turn, plan);
      VerdictKind(turn, settings, world, u.now);
      if world.fault(At(turn, ConcludingJob)) != Fine {
        t, alive, trace := u, false, first;
        EndedIs(s, t, turn, alive);
        return;
      }
      ResolvedIs(u, turn, batch[1..]);
      CallsIs(plan, turn, u.now);
      PlanTouches(plan, turn.claim, u.now);
      if (plan.Accept? || plan.Refuse? || plan.Exhaust?) && turn.claim.job.messageId.Some? {
        ghost var second;
        t, second := UpdateMessage(u, turn, plan, batch);
        VerdictKind(turn, settings, world, t.now);
        ghost var conclude := Queue.Conclude(id, Known(turn, settings), AttemptAt(turn, world));
        ghost var fault := world.fault(At(turn, TouchingMessage));
        ghost var more := if fault == RaisesBefore then [Queue.Crash(id)]
                          else if fault == RaisesAfter then [Queue.TouchMessage(id), Queue.Crash(id)]
                          else [Queue.TouchMessage(id)];
        GoesOn(s, u, t, first, [conclude], second, more);
        assert [conclude] + more == StepsFor(id, turn, settings, world);
        trace := first + second;
        alive := world.fault(At(turn, TouchingMessage)) == Fine;
      } else {
        t, alive, trace := u, true, first;
        AtWorkIs(t, batch[1..]);
      }
      EndedIs(s, t, turn, alive);
    }

    lemma PlanTouches(plan: Plan, claim: Claim, now: Time)
      ensures Touches(claim, Planned(plan, now)) <==>
        (plan.Accept? || plan.Refuse? || plan.Exhaust?) && claim.job.messageId.Some?
    {
    }

    lemma PlansCall(turn: Turn)
      ensures
        var reply, job := world.reply(turn.cycle, turn.index), turn.claim.job;
        if job.partner !in settings.partners then Calls(GiveUp, turn, settings, world)
        else if reply.Err? then
          if job.attemptCount >= |settings.schedule| then Calls(Exhaust, turn, settings, world)
          else Calls(Postpone(settings.schedule[job.attemptCount]), turn, settings, world)
        else
          var r := reply.value;
          if r.IsOk() then Calls(Accept(ReceiptInfo(r.transId, r.serverId, r.timeC)), turn, settings, world)
          else Calls(Refuse(Receipts.StatusCode(r.requestStatus)), turn, settings, world)
      ensures Known(turn, settings) <==> turn.claim.job.partner in settings.partners
      ensures AttemptRaises(turn, settings, world) <==>
        turn.claim.job.partner in settings.partners && world.fault(At(turn, Attempting)) != Fine
    {
      hide At, Receipts.StatusCode;
    }

    /**
     A delivery failure: reschedule by the schedule entry the attempt count selects, or
     declare an Exchange Failure.
     */
    method HandleFailure(s: Queue.State, turn: Turn) returns (t: Queue.State, alive: bool, ghost trace: seq<Queue.Step>)
      requires Matches(s) && AtTurn(s, turn) && !AttemptRaises(turn, settings, world)
      requires turn.claim.job.partner in settings.partners && world.reply(turn.cycle, turn.index).Err?
      modifies jobs, tracker
      ensures Matches(t) && Goes(s, t, trace, StepsFor(id, turn, settings, world)) && Ended(s, t, turn, alive)
    {
      hide *;
      PlansCall(turn);
      if turn.claim.job.attemptCount >= |settings.schedule| {
        t, alive, trace := ConcludeAs(s, turn, Exhaust);
      } else {
        var delay := settings.schedule[turn.claim.job.attemptCount];
        t, alive, trace := ConcludeAs(s, turn, Postpone(delay));
      }
    }

    /**
     One claimed job. The worker takes exactly the steps its reply and the failures call for,
     others' in between; its job's row ends as its conclusion says, or in progress if the
     worker died before; its message shows the conclusion if that update took effect; and the
     claims still to come are in progress, processed next or stranded.
     */
    method ProcessJob(s: Queue.State, turn: Turn) returns (t: Queue.State, alive: bool, ghost trace: seq<Queue.Step>)
      requires Matches(s) && AtTurn(s, turn)
      modifies jobs, tracker
      ensures Matches(t) && Goes(s, t, trace, StepsFor(id, turn, settings, world)) && Ended(s, t, turn, alive)
    {
      hide *;
      PlansCall(turn);
      AtTurnIs(s, turn);
      if turn.claim.job.partner !in settings.partners {
        t, alive, trace := ConcludeAs(s, turn, GiveUp);
        return;
      }
      var p := At(turn, Attempting);
      var u, waited := Await(s, p);
      AtTurnIs(u, turn);
      ghost var rest;
      if world.fault(p) != Fine {
        StruckMeans(turn);
        StepsForCases(id, turn, settings, world);
        AllHeld(u, turn);
        t, rest := Die(u);
        alive := false;
        EndedIs(s, t, turn, alive);
      } else {
        var reply := world.reply(turn.cycle, turn.index);
        if reply.Err? {
          t, alive, rest := HandleFailure(u, turn);
        } else if reply.value.IsOk() {
          var receipt := reply.value;
          t, alive, rest := ConcludeAs(u, turn, Accept(ReceiptInfo(receipt.transId, receipt.serverId, receipt.timeC)));
        } else {
          t, alive, rest := ConcludeAs(u, turn, Refuse(Receipts.StatusCode(reply.value.requestStatus)));
        }
        EndedIs(u, t, turn, alive);
        EndedIs(s, t, turn, alive);
      }
      GoesAfter(s, u, t, waited, rest, StepsFor(id, turn, settings, world));
      trace := waited + rest;
    }

    /**
     A claimed batch, in order: all of it, or up to the claim at which the worker died; the
     claims after that one, and that one too if its job update never took effect, stay in
     progress.
     */
    method ProcessBatch(s: Queue.State, claims: seq<Claim>, cycle: nat)
      returns (t: Queue.State, done: nat, ghost trace: seq<Queue.Step>)
      requires Matches(s) && AtWork(s, claims)
      modifies jobs, tracker
      ensures Matches(t) && done <= |claims|
      ensures
        var n := if done < |claims| then done + 1 else done;
        Goes(s, t, trace, BatchSteps(id, claims, cycle, n, settings, world))
      ensures if done == |claims| then AtWork(t, []) else Is(t, Queue.Dead)
      ensures forall i :: 0 <= i < done ==> Survives(Turn(claims[i], cycle, i), settings, world)
      ensures done < |claims| ==>
        && !Survives(Turn(claims[done], cycle, done), settings, world)
        && (!JobUpdated(Turn(claims[done], cycle, done), settings, world) ==> StrandedAt(t.jobs, claims[done]))
      ensures forall i :: done < i < |claims| ==> StrandedAt(t.jobs, claims[i])
    {
      hide *;
      AtWorkIs(s, claims);
      BatchUnfold(id, claims, cycle, 0, settings, world);
      t, done, trace := s, 0, [];
      WentNowhere(s, id, settings.schedule, world);
      GoesIs(s, s, [], []);
      assert claims[0..] == claims;
      while done < |claims|
        invariant done <= |claims| && Matches(t) && AtWork(t, claims[done..])
        invariant Goes(s, t, trace, BatchSteps(id, claims, cycle, done, settings, world))
        invariant forall i :: 0 <= i < done ==> Survives(Turn(claims[i], cycle, i), settings, world)
      {
        var turn := Turn(claims[done], cycle, done);
        AtWorkIs(t, claims[done..]);
        AtTurnIs(t, turn);
        ghost var before, rest := t, claims[done..];
        var alive;
        ghost var taken;
        t, alive, taken := ProcessJob(t, turn);
        EndedIs(before, t, turn, alive);
        BatchUnfold(id, claims, cycle, done + 1, settings, world);
        GoesOn(s, before, t, trace, BatchSteps(id, claims, cycle, done, settings, world),
               taken, StepsFor(id, turn, settings, world));
        trace := trace + taken;
        if !alive {
          RestStrandedIs(t.jobs, rest);
          assert forall i :: done < i < |claims| ==> rest[i - done] == claims[i];
          return;
        }
        assert rest[1..] == claims[done + 1..];
        done := done + 1;
      }
      assert claims[|claims|..] == [];
    }

    lemma RestStrandedIs(jobs: JobTable, batch: seq<Claim>)
      ensures RestStranded(jobs, batch) <==> forall i :: 1 <= i < |batch| ==> StrandedAt(jobs, batch[i])
    {
      hide StrandedAt;
    }

    /** The steps of a claim of `ids`: none when nothing is due. */
    function ClaimSteps(ids: seq<JobId>, cycle: nat): seq<Queue.Step> {
      if world.fault(Point(cycle, 0, Selecting)) != Fine then [Queue.Crash(id)]
      else if ids == [] then []
      else
        [Queue.Lock(id, ids)]
        + (match world.fault(Point(cycle, 0, Committing))
           case Fine => [Queue.Commit(id)]
           case RaisesBefore => [Queue.Crash(id)]
           case RaisesAfter => [Queue.Commit(id), Queue.Crash(id)])
    }

    predicate ClaimSurvives(ids: seq<JobId>, cycle: nat) {
      && world.fault(Point(cycle, 0, Selecting)) == Fine
      && (ids != [] ==> world.fault(Point(cycle, 0, Committing)) == Fine)
    }

    lemma ClaimStepsAre(ids: seq<JobId>, cycle: nat)
      ensures
        var steps := ClaimSteps(ids, cycle);
        var select, commit := world.fault(Point(cycle, 0, Selecting)), world.fault(Point(cycle, 0, Committing));
        && (select != Fine ==> steps == [Queue.Crash(id)] && !ClaimSurvives(ids, cycle))
        && (select == Fine && ids == [] ==> steps == [] && ClaimSurvives(ids, cycle))
        && (select == Fine && ids != [] ==>
              && (ClaimSurvives(ids, cycle) <==> commit == Fine)
              && (commit == Fine ==> steps == [Queue.Lock(id, ids), Queue.Commit(id)])
              && (commit == RaisesBefore ==> steps == [Queue.Lock(id, ids), Queue.Crash(id)])
              && (commit == RaisesAfter ==> steps == [Queue.Lock(id, ids), Queue.Commit(id), Queue.Crash(id)]))
    {
    }

    /**
     Claim a batch: lock and fetch the earliest of the due rows nobody else has locked, then
     update them and commit. `at` is the state the rows were selected in.
     */
    method ClaimBatch(s: Queue.State, cycle: nat)
      returns (t: Queue.State, ids: seq<JobId>, claims: seq<Claim>, alive: bool,
               ghost at: Queue.State, ghost trace: seq<Queue.Step>)
      requires Matches(s) && Is(s, Queue.Idle)
      modifies jobs, tracker
      ensures Matches(t) && Goes(s, t, trace, ClaimSteps(ids, cycle)) && (alive <==> ClaimSurvives(ids, cycle))
      ensures exists waited: seq<Queue.Step> :: waited <= trace && Goes(s, at, waited, [])
      ensures world.fault(Point(cycle, 0, Selecting)) == Fine ==>
        && EarliestFirst(at.jobs, Claimable(at), ids)
        && |ids| == (if |Claimable(at)| < BATCH then |Claimable(at)| else BATCH)
      ensures |ids| <= BATCH && forall i :: 0 <= i < |ids| ==> ids[i] in at.jobs
      ensures alive ==> |claims| == |ids| && claims == Bumped(Snapshot(at.jobs, ids))
      ensures if !alive then Is(t, Queue.Dead) else if ids == [] then Is(t, Queue.Idle) else AtWork(t, claims)
    {
      hide *;
      IsIs(s, Queue.Idle);
      ids, claims := [], [];
      var p := Point(cycle, 0, Selecting);
      ghost var waited;
      t, waited := Await(s, p);
      at, trace := t, waited;
      IsIs(t, Queue.Idle);
      MatchesIs(t);
      ClaimStepsAre([], cycle);
      if world.fault(p) != Fine {
        ghost var died;
        t, died := Die(t);
        GoesAfter(s, at, t, waited, died, [Queue.Crash(id)]);
        trace, alive := waited + died, false;
        return;
      }
      var locked := set j | j in t.jobs && Queue.LockedByAnyone(t, j);
      var rows;
      ids, rows := jobs.SelectDue(BATCH, t.now, locked);
      UnlockedAre(t, locked);
      ClaimableMeans(t, ids);
      ClaimStepsAre(ids, cycle);
      SnapshotIds(t.jobs, ids);
      claims := Bumped(rows);
      if ids == [] {
        alive := true;
      } else {
        t, alive, trace := LockAndCommit(s, t, ids, rows, cycle, waited);
      }
    }

    lemma UnlockedAre(s: Queue.State, locked: set<JobId>)
      requires locked == set j | j in s.jobs && Queue.LockedByAnyone(s, j)
      ensures DueUnlocked(s.jobs, s.now, locked) == Claimable(s)
    {
      hide Queue.LockedByAnyone, Due;
    }

    method LockAndCommit(
      ghost s: Queue.State, at: Queue.State, ids: seq<JobId>, rows: seq<Claim>, cycle: nat,
      ghost waited: seq<Queue.Step>
    ) returns (t: Queue.State, alive: bool, ghost trace: seq<Queue.Step>)
      requires Matches(at) && Is(at, Queue.Idle) && Goes(s, at, waited, []) && ids != []
      requires forall i :: 0 <= i < |ids| ==>
        ids[i] in at.jobs && Due(at.jobs[ids[i]], at.now) && !Queue.LockedByAnyone(at, ids[i])
      requires forall i, k :: 0 <= i < k < |ids| ==> ids[i] != ids[k]
      requires rows == Snapshot(at.jobs, ids) && world.fault(Point(cycle, 0, Selecting)) == Fine
      modifies jobs, tracker
      ensures Matches(t) && Goes(s, t, trace, ClaimSteps(ids, cycle)) && waited <= trace
      ensures alive <==> ClaimSurvives(ids, cycle)
      ensures if alive then AtWork(t, Bumped(rows)) else Is(t, Queue.Dead)
    {
      hide *;
      ClaimStepsAre(ids, cycle);
      IsIs(at, Queue.Idle);
      MatchesIs(at);
      LockIs(at, id, ids, settings.schedule);
      ghost var locking, more;
      t, locking := Take(at, Queue.Lock(id, ids));
      GoesAfter(s, at, t, waited, locking, [Queue.Lock(id, ids)]);
      trace := waited + locking;
      ghost var before := t;
      var p := Point(cycle, 0, Committing);
      t, more := Await(t, p);
      GoesOn(s, before, t, trace, [Queue.Lock(id, ids)], more, []);
      assert [Queue.Lock(id, ids)] + [] == [Queue.Lock(id, ids)];
      trace, before := trace + more, t;
      if world.fault(p) == RaisesBefore {
        t, more := Die(t);
        GoesOn(s, before, t, trace, [Queue.Lock(id, ids)], more, [Queue.Crash(id)]);
        assert [Queue.Lock(id, ids)] + [Queue.Crash(id)] == [Queue.Lock(id, ids), Queue.Crash(id)];
        trace, alive := trace + more, false;
        return;
      }
      MatchesIs(t);
      SnapshotIds(at.jobs, ids);
      CommitIs(t, id, settings.schedule);
      jobs.CommitClaim(ids);
      t, more := Take(t, Queue.Commit(id));
      AtWorkIs(t, Bumped(rows));
      GoesOn(s, before, t, trace, [Queue.Lock(id, ids)], more, [Queue.Commit(id)]);
      assert [Queue.Lock(id, ids)] + [Queue.Commit(id)] == [Queue.Lock(id, ids), Queue.Commit(id)];
      trace, before, alive := trace + more, t, true;
      if world.fault(p) == RaisesAfter {
        t, more := Die(t);
        GoesOn(s, before, t, trace, [Queue.Lock(id, ids), Queue.Commit(id)], more, [Queue.Crash(id)]);
        assert [Queue.Lock(id, ids), Queue.Commit(id)] + [Queue.Crash(id)]
            == [Queue.Lock(id, ids), Queue.Commit(id), Queue.Crash(id)];
        trace, alive := trace + more, false;
      }
    }

    /** The steps of a whole cycle: a claim, the batch as far as the worker gets, and the end of the batch. */
    function CycleSteps(ids: seq<JobId>, claims: seq<Claim>, done: nat, cycle: nat): seq<Queue.Step>
      requires done <= |claims|
    {
      ClaimSteps(ids, cycle)
      + (if ids == [] || !ClaimSurvives(ids, cycle) then []
         else
           BatchSteps(id, claims, cycle, if done < |claims| then done + 1 else done, settings, world)
           + (if done == |claims| then [Queue.Finish(id)] else []))
    }

    /** The steps of a cycle, if it is one. */
    function StepsOf(c: Cycle, cycle: nat): seq<Queue.Step> {
      if c.done <= |c.claims| then CycleSteps(c.ids, c.claims, c.done, cycle) else []
    }

    /**
     A cycle that starts in `s`: the ids claimed are the earliest rows claimable in a state on
     the way, as many as there are up to the batch size; the claims are those rows with their
     attempt counts bumped; they are processed in order, up to one at which the worker dies,
     which stays in progress if its job update never took effect, like all those after it;
     and the worker's own steps are just these.
     */
    ghost predicate Cycled(s: Queue.State, c: Cycle, cycle: nat) {
      && c.done <= |c.claims| && |c.ids| <= BATCH
      && Goes(s, c.end, c.trace, CycleSteps(c.ids, c.claims, c.done, cycle))
      && (exists waited: seq<Queue.Step> :: waited <= c.trace && Goes(s, c.at, waited, []))
      && (world.fault(Point(cycle, 0, Selecting)) == Fine ==>
            && EarliestFirst(c.at.jobs, Claimable(c.at), c.ids)
            && |c.ids| == (if |Claimable(c.at)| < BATCH then |Claimable(c.at)| else BATCH))
      && (c.ids != [] && ClaimSurvives(c.ids, cycle) ==> Processed(c, cycle))
      && (c.alive <==> ClaimSurvives(c.ids, cycle) && (c.ids != [] ==> c.done == |c.claims|))
      && Is(c.end, if c.alive then Queue.Idle else Queue.Dead)
    }

    ghost predicate Processed(c: Cycle, cycle: nat)
      requires c.done <= |c.claims|
    {
      && |c.claims| == |c.ids| && (forall i :: 0 <= i < |c.ids| ==> c.ids[i] in c.at.jobs)
      && c.claims == Bumped(Snapshot(c.at.jobs, c.ids))
      && (forall i :: 0 <= i < c.done ==> Survives(Turn(c.claims[i], cycle, i), settings, world))
      && (c.done < |c.claims| ==>
            && !Survives(Turn(c.claims[c.done], cycle, c.done), settings, world)
            && (!JobUpdated(Turn(c.claims[c.done], cycle, c.done), settings, world) ==>
                  StrandedAt(c.end.jobs, c.claims[c.done])))
      && (forall i :: c.done < i < |c.claims| ==> StrandedAt(c.end.jobs, c.claims[i]))
    }

    lemma CycledIs(s: Queue.State, c: Cycle, cycle: nat)
      ensures Cycled(s, c, cycle) <==>
        && c.done <= |c.claims| && |c.ids| <= BATCH
        && Goes(s, c.end, c.trace, CycleSteps(c.ids, c.claims, c.done, cycle))
        && (exists waited: seq<Queue.Step> :: waited <= c.trace && Goes(s, c.at, waited, []))
        && (world.fault(Point(cycle, 0, Selecting)) == Fine ==>
              && EarliestFirst(c.at.jobs, Claimable(c.at), c.ids)
              && |c.ids| == (if |Claimable(c.at)| < BATCH then |Claimable(c.at)| else BATCH))
        && (c.ids != [] && ClaimSurvives(c.ids, cycle) ==> Processed(c, cycle))
        && (c.alive <==> ClaimSurvives(c.ids, cycle) && (c.ids != [] ==> c.done == |c.claims|))
        && Is(c.end, if c.alive then Queue.Idle else Queue.Dead)
      ensures c.done <= |c.claims| ==> StepsOf(c, cycle) == CycleSteps(c.ids, c.claims, c.done, cycle)
    {
      hide Goes, CycleSteps, EarliestFirst, Claimable, ClaimSurvives, Processed, Is, BATCH;
    }

    lemma ProcessedIs(c: Cycle, cycle: nat)
      requires c.done <= |c.claims|
      ensures Processed(c, cycle) <==>
        && |c.claims| == |c.ids| && (forall i :: 0 <= i < |c.ids| ==> c.ids[i] in c.at.jobs)
        && c.claims == Bumped(Snapshot(c.at.jobs, c.ids))
        && (forall i :: 0 <= i < c.done ==> Survives(Turn(c.claims[i], cycle, i), settings, world))
        && (c.done < |c.claims| ==>
              && !Survives(Turn(c.claims[c.done], cycle, c.done), settings, world)
              && (!JobUpdated(Turn(c.claims[c.done], cycle, c.done), settings, world) ==>
                    StrandedAt(c.end.jobs, c.claims[c.done])))
        && (forall i :: c.done < i < |c.claims| ==> StrandedAt(c.end.jobs, c.claims[i]))
    {
      hide Survives, JobUpdated, StrandedAt, Bumped, Snapshot;
    }

    /** One poll cycle. */
    method RunCycle(s: Queue.State, cycle: nat) returns (t: Queue.State, alive: bool, ghost c: Cycle)
      requires Matches(s) && Is(s, Queue.Idle)
      modifies jobs, tracker
      ensures Matches(t) && c.end == t && c.alive == alive && Cycled(s, c, cycle)
    {
      hide *;
      ghost var claimed, processed, finished, at, trace;
      var ids, claims;
      var done := 0;
      t, ids, claims, alive, at, trace := ClaimBatch(s, cycle);
      ClaimStepsAre(ids, cycle);
      CycleStepsAre(ids, claims, 0, cycle);
      if ids == [] || !alive {
        c := Cycle(at, t, ids, [], 0, alive, trace);
        CycleStepsAre(ids, [], 0, cycle);
        CycledIs(s, c, cycle);
        return;
      }
      claimed := t;
      t, done, processed := ProcessBatch(t, claims, cycle);
      CycleStepsAre(ids, claims, done, cycle);
      ghost var own := BatchSteps(id, claims, cycle, if done < |claims| then done + 1 else done, settings, world);
      GoesOn(s, claimed, t, trace, ClaimSteps(ids, cycle), processed, own);
      trace := trace + processed;
      alive := done == |claims|;
      if alive {
        AtWorkIs(t, []);
        MatchesIs(t);
        FinishIs(t, id, settings.schedule);
        ghost var before := t;
        t, finished := Take(t, Queue.Finish(id));
        GoesOn(s, before, t, trace, ClaimSteps(ids, cycle) + own, finished, [Queue.Finish(id)]);
        trace := trace + finished;
        IsIs(t, Queue.Idle);
      }
      c := Cycle(at, t, ids, claims, done, alive, trace);
      ProcessedIs(c, cycle);
      CycledIs(s, c, cycle);
    }

    lemma CycleStepsAre(ids: seq<JobId>, claims: seq<Claim>, done: nat, cycle: nat)
      requires done <= |claims|
      ensures
        var own := BatchSteps(id, claims, cycle, if done < |claims| then done + 1 else done, settings, world);
        var claim, steps := ClaimSteps(ids, cycle), CycleSteps(ids, claims, done, cycle);
        && (ids == [] || !ClaimSurvives(ids, cycle) ==> steps == claim)
        && (ids != [] && ClaimSurvives(ids, cycle) && done < |claims| ==> steps == claim + own)
        && (ids != [] && ClaimSurvives(ids, cycle) && done == |claims| ==> steps == claim + own + [Queue.Finish(id)])
    {
      hide ClaimSteps, ClaimSurvives, BatchSteps;
    }

    function StateAt(s: Queue.State, cycles: seq<Cycle>, i: nat): Queue.State
      requires i <= |cycles|
    {
      if i == 0 then s else cycles[i - 1].end
    }

    /** The cycles follow one another from the one state to the other, and all but the last the worker survived. */
    ghost predicate Chained(s: Queue.State, cycles: seq<Cycle>, t: Queue.State, alive: bool) {
      && t == StateAt(s, cycles, |cycles|)
      && (forall i :: 0 <= i < |cycles| ==> Cycled(StateAt(s, cycles, i), cycles[i], i))
      && (forall i :: 0 <= i < |cycles| ==> (cycles[i].alive <==> alive || i < |cycles| - 1))
    }

    /** The worker's own steps over all cycles, one cycle's after the other's. */
    function OwnOf(cycles: seq<Cycle>): seq<Queue.Step> {
      if cycles == [] then []
      else OwnOf(cycles[..|cycles| - 1]) + StepsOf(cycles[|cycles| - 1], |cycles| - 1)
    }

    lemma ChainedNone(s: Queue.State)
      ensures Chained(s, [], s, true) && OwnOf([]) == []
    {
      hide Cycled, StepsOf;
    }

    lemma ChainedMore(s: Queue.State, cycles: seq<Cycle>, t: Queue.State, c: Cycle)
      requires Chained(s, cycles, t, true) && Cycled(t, c, |cycles|)
      ensures Chained(s, cycles + [c], c.end, c.alive)
    {
      hide Cycled, StateAt;
      var all := cycles + [c];
      StateAtIs(s, all, |all|);
      forall i | 0 <= i < |all| ensures Cycled(StateAt(s, all, i), all[i], i) {
        StateAtIs(s, all, i);
        StateAtIs(s, cycles, i);
        if i < |cycles| {
          assert all[i] == cycles[i] && Cycled(StateAt(s, cycles, i), cycles[i], i);
        }
      }
    }

    lemma StateAtIs(s: Queue.State, cycles: seq<Cycle>, i: nat)
      requires i <= |cycles|
      ensures StateAt(s, cycles, i) == if i == 0 then s else cycles[i - 1].end
    {
    }

    lemma OwnOfMore(cycles: seq<Cycle>, c: Cycle)
      ensures OwnOf(cycles + [c]) == OwnOf(cycles) + StepsOf(c, |cycles|)
    {
      hide StepsOf;
      assert (cycles + [c])[..|cycles|] == cycles;
    }

    /**
     The main loop: as many cycles as called for, one after another, or up to the one in which
     a call raises, and then the worker's crash is its last step. It takes no other steps than
     its cycles'; and with nobody else there and no call raising it attempts every job that
     could be claimed when it started, given cycles enough.
     */
    method RunWorker(s: Queue.State, iterations: nat)
      returns (t: Queue.State, alive: bool, ghost cycles: seq<Cycle>, ghost trace: seq<Queue.Step>)
      requires Matches(s) && Is(s, Queue.Idle)
      modifies jobs, tracker
      ensures Matches(t) && Is(t, if alive then Queue.Idle else Queue.Dead)
      ensures Chained(s, cycles, t, alive) && Goes(s, t, trace, OwnOf(cycles))
      ensures |cycles| <= iterations && (alive ==> |cycles| == iterations) && (!alive ==> cycles != [])
      ensures forall i :: 0 <= i < |OwnOf(cycles)| ==>
        && (OwnOf(cycles)[i].Lock? ==> |OwnOf(cycles)[i].ids| <= BATCH)
        && (OwnOf(cycles)[i].Crash? <==> !alive && i == |OwnOf(cycles)| - 1)
      ensures Calm(world) ==> alive
      ensures Quiet(world) && Calm(world) && Reachable(s, iterations) ==> AllTried(s, t)
    {
      hide *;
      t, alive, cycles, trace := s, true, [], [];
      WentNowhere(s, id, settings.schedule, world);
      GoesIs(s, s, [], []);
      ChainedNone(s);
      EmptyIsCrashFree();
      var count := 0;
      while count < iterations && alive
        invariant count <= iterations && |cycles| == count
        invariant Matches(t) && Is(t, if alive then Queue.Idle else Queue.Dead)
        invariant Chained(s, cycles, t, alive) && Goes(s, t, trace, OwnOf(cycles))
        invariant if alive then CrashFree(OwnOf(cycles)) else CrashLast(OwnOf(cycles)) && cycles != []
        invariant Calm(world) ==> alive
        decreases iterations - count, alive
      {
        ghost var before, c := t, Cycle(t, t, [], [], 0, true, []);
        t, alive, c := RunCycle(t, count);
        CycledIs(before, c, count);
        GoesOn(s, before, t, trace, OwnOf(cycles), c.trace, StepsOf(c, count));
        CycleCrashes(before, c, count);
        CrashesOn(OwnOf(cycles), StepsOf(c, count));
        CalmCycle(before, c, count);
        ChainedMore(s, cycles, before, c);
        OwnOfMore(cycles, c);
        trace, cycles := trace + c.trace, cycles + [c];
        count := count + 1;
      }
      CrashesAre(OwnOf(cycles));
      if Quiet(world) && Calm(world) && Reachable(s, iterations) {
        AllAreTried(s, cycles, t);
      }
    }

    lemma CalmCycle(s: Queue.State, c: Cycle, cycle: nat)
      requires Cycled(s, c, cycle)
      ensures Calm(world) ==> c.alive && ClaimSurvives(c.ids, cycle) && (c.ids != [] ==> c.done == |c.claims|)
    {
      hide *;
      CycledIs(s, c, cycle);
      if Calm(world) {
        CalmClaims(c.ids, cycle);
        if c.ids != [] {
          ProcessedIs(c, cycle);
          if c.done < |c.claims| {
            CalmSurvives(Turn(c.claims[c.done], cycle, c.done), settings, world);
          }
        }
      }
    }

    lemma CalmClaims(ids: seq<JobId>, cycle: nat)
      requires Calm(world)
      ensures ClaimSurvives(ids, cycle) && world.fault(Point(cycle, 0, Selecting)) == Fine
      ensures world.fault(Point(cycle, 0, Committing)) == Fine
    {
    }

    // ------------------------------------------------------------------
    // With nobody else there, and no call raising
    // ------------------------------------------------------------------

    /**
     The cycles are enough for every claimable job's turn to come: one batch takes them all,
     or there are batches enough for them and nothing comes back due at once.
     */
    ghost predicate Reachable(s: Queue.State, iterations: nat) {
      && |Claimable(s)| <= BATCH * iterations
      && (|Claimable(s)| <= BATCH || RealDelays(settings.schedule))
    }

    /** Every queued job whose time had come, and that nobody had locked, has been attempted since. */
    ghost predicate AllTried(s: Queue.State, t: Queue.State) {
      forall j ::
        (j in s.jobs && s.jobs[j].status == Queued && s.jobs[j].nextAttemptAt <= s.now
         && !Queue.LockedByAnyone(s, j)) ==>
        j in t.jobs && t.jobs[j].attemptCount > s.jobs[j].attemptCount
    }

    lemma AllTriedIs(s: Queue.State, t: Queue.State)
      ensures AllTried(s, t) <==> forall j :: j in Claimable(s) ==>
        j in s.jobs && j in t.jobs && t.jobs[j].attemptCount > s.jobs[j].attemptCount
    {
      hide Queue.LockedByAnyone;
    }

    /** What an undisturbed cycle does: it attempts the rows it claims and leaves everything else as it was. */
    ghost predicate Attempts(s: Queue.State, t: Queue.State, ids: seq<JobId>) {
      && t.now == s.now && t.jobs.Keys == s.jobs.Keys && t.workers.Keys == s.workers.Keys
      && Is(s, Queue.Idle) && Is(t, Queue.Idle)
      && (forall v :: v in s.workers && v != id ==> t.workers[v] == s.workers[v])
      && (forall j :: j in s.jobs && j !in ids ==> t.jobs[j] == s.jobs[j])
      && (forall j :: j in s.jobs && j in ids ==>
            && t.jobs[j].attemptCount == s.jobs[j].attemptCount + 1
            && (RealDelays(settings.schedule) ==> !Due(t.jobs[j], s.now)))
    }

    lemma QuietCycle(s: Queue.State, c: Cycle, cycle: nat)
      requires Cycled(s, c, cycle) && Is(s, Queue.Idle) && Quiet(world) && Calm(world)
      ensures c.at == s && Attempts(s, c.end, c.ids)
      ensures EarliestFirst(s.jobs, Claimable(s), c.ids)
      ensures |c.ids| == (if |Claimable(s)| < BATCH then |Claimable(s)| else BATCH)
    {
      hide *;
      CycledIs(s, c, cycle);
      CalmCycle(s, c, cycle);
      CalmClaims(c.ids, cycle);
      var waited: seq<Queue.Step> :| waited <= c.trace && Goes(s, c.at, waited, []);
      QuietGoes(s, c.at, waited, []);
      PerformNone(s, settings.schedule);
      QuietGoes(s, c.end, c.trace, StepsOf(c, cycle));
      ClaimStepsAre(c.ids, cycle);
      CycleStepsAre(c.ids, c.claims, c.done, cycle);
      IsIs(s, Queue.Idle);
      IsIs(c.end, Queue.Idle);
      OwnKeepsOthers(s, c.trace, id, settings.schedule);
      if c.ids == [] {
        NothingAttempted(s);
      } else {
        ProcessedIs(c, cycle);
        BatchAttempted(s, c, cycle);
      }
    }

    lemma QuietGoes(s: Queue.State, t: Queue.State, trace: seq<Queue.Step>, own: seq<Queue.Step>)
      requires Goes(s, t, trace, own) && Quiet(world)
      ensures trace == own && Perform(s, own, settings.schedule) == Some(t) && Own(own, id) == own
    {
      hide Quiet, Perform, Own;
    }

    lemma NothingAttempted(s: Queue.State)
      requires Is(s, Queue.Idle)
      ensures Attempts(s, s, [])
    {
    }

    lemma BatchAttempted(s: Queue.State, c: Cycle, cycle: nat)
      requires Calm(world) && Is(s, Queue.Idle) && c.ids != [] && c.done == |c.claims| == |c.ids|
      requires EarliestFirst(s.jobs, Claimable(s), c.ids) && (forall i :: 0 <= i < |c.ids| ==> c.ids[i] in s.jobs)
      requires c.claims == Bumped(Snapshot(s.jobs, c.ids))
      requires var own := BatchSteps(id, c.claims, cycle, |c.claims|, settings, world);
        var steps := [Queue.Lock(id, c.ids), Queue.Commit(id)] + own + [Queue.Finish(id)];
        Perform(s, steps, settings.schedule) == Some(c.end)
      requires c.end.now == s.now && c.end.workers.Keys == s.workers.Keys && Is(c.end, Queue.Idle)
      requires forall v :: v in s.workers && v != id ==> c.end.workers[v] == s.workers[v]
      ensures Attempts(s, c.end, c.ids)
    {
      hide *;
      var schedule, claim := settings.schedule, [Queue.Lock(id, c.ids), Queue.Commit(id)];
      var own := BatchSteps(id, c.claims, cycle, |c.claims|, settings, world);
      IsIs(s, Queue.Idle);
      ClaimingFollowsProtocol(s, id, c.ids, schedule);
      var u := Perform(s, claim, schedule).value;
      ClaimTakesNoTime(s, c.ids);
      ClaimsDistinct(s, c.ids);
      BatchEffect(u, id, c.claims, cycle, |c.claims|, settings, world);
      var v := Perform(u, own, schedule).value;
      assert c.claims[|c.claims|..] == [];
      FinishIs(v, id, schedule);
      PerformOne(v, Queue.Finish(id), schedule);
      PerformMore(s, claim, u, own, schedule);
      PerformMore(s, claim + own, v, [Queue.Finish(id)], schedule);
      BatchIsAttempt(s, c, u.jobs);
    }

    lemma ClaimTakesNoTime(s: Queue.State, ids: seq<JobId>)
      requires id in s.workers && Perform(s, [Queue.Lock(id, ids), Queue.Commit(id)], settings.schedule).Some?
      ensures Perform(s, [Queue.Lock(id, ids), Queue.Commit(id)], settings.schedule).value.now == s.now
    {
      hide Perform;
      var steps := [Queue.Lock(id, ids), Queue.Commit(id)];
      assert steps[1..] == [Queue.Commit(id)] && steps[1..][1..] == [];
      assert Own([], id) == [];
      assert Own(steps[1..], id) == [Queue.Commit(id)] + [];
      assert Own(steps, id) == [Queue.Lock(id, ids)] + [Queue.Commit(id)];
      OwnKeepsOthers(s, steps, id, settings.schedule);
    }

    lemma ClaimsDistinct(s: Queue.State, ids: seq<JobId>)
      requires EarliestFirst(s.jobs, Claimable(s), ids) && (forall i :: 0 <= i < |ids| ==> ids[i] in s.jobs)
      ensures DistinctClaims(Bumped(Snapshot(s.jobs, ids)))
    {
      hide Claimable;
    }

    lemma BatchIsAttempt(s: Queue.State, c: Cycle, claimed: JobTable)
      requires |c.claims| == |c.ids| && (forall i :: 0 <= i < |c.ids| ==> c.ids[i] in s.jobs)
      requires c.claims == Bumped(Snapshot(s.jobs, c.ids)) && claimed == ClaimAll(s.jobs, IdSet(c.ids))
      requires BatchSettles(claimed, c.end.jobs, c.claims, |c.claims|, s.now, settings.schedule)
      requires c.end.now == s.now && c.end.workers.Keys == s.workers.Keys && Is(s, Queue.Idle) && Is(c.end, Queue.Idle)
      requires forall v :: v in s.workers && v != id ==> c.end.workers[v] == s.workers[v]
      ensures Attempts(s, c.end, c.ids)
    {
      hide Is, RealDelays, Due;
      forall j | j in s.jobs ensures IsAmong(c.claims, |c.claims|, j) <==> j in c.ids {
        if j in c.ids {
          var i :| 0 <= i < |c.ids| && c.ids[i] == j;
          assert c.claims[i].id == j;
        }
      }
    }

    /** An undisturbed cycle leaves claimable what it did not claim, and nothing else if nothing comes back at once. */
    lemma ClaimableAfter(s: Queue.State, t: Queue.State, ids: seq<JobId>)
      requires Attempts(s, t, ids)
      ensures forall j :: j in Claimable(s) && j !in ids ==> j in Claimable(t)
      ensures RealDelays(settings.schedule) ==> Claimable(t) == Claimable(s) - IdSet(ids)
    {
      hide RealDelays;
      forall j ensures Queue.LockedByAnyone(t, j) <==> Queue.LockedByAnyone(s, j) {
        LockedSame(s, t, j);
        LockedSame(t, s, j);
      }
      hide Queue.LockedByAnyone;
    }

    lemma LockedSame(s: Queue.State, t: Queue.State, j: JobId)
      requires Is(s, Queue.Idle) && Is(t, Queue.Idle) && t.workers.Keys == s.workers.Keys
      requires forall v :: v in s.workers && v != id ==> t.workers[v] == s.workers[v]
      ensures Queue.LockedByAnyone(s, j) ==> Queue.LockedByAnyone(t, j)
    {
      if Queue.LockedByAnyone(s, j) {
        var w :| w in s.workers && s.workers[w].mode == Queue.Locking && Queue.Holds(s, w, j);
        assert Queue.Holds(t, w, j);
      }
    }

    /** `k` undisturbed cycles after `s`: no count has gone down, and who has had no turn still waits for one. */
    ghost predicate Along(s: Queue.State, u: Queue.State, k: nat) {
      && Is(u, Queue.Idle) && u.jobs.Keys == s.jobs.Keys && (k == 0 ==> u == s)
      && (forall j :: j in s.jobs ==> u.jobs[j].attemptCount >= s.jobs[j].attemptCount)
      && (forall j :: j in Claimable(s) ==> j in Claimable(u) || u.jobs[j].attemptCount > s.jobs[j].attemptCount)
      && (RealDelays(settings.schedule) ==>
            |Claimable(u)| == if |Claimable(s)| < BATCH * k then 0 else |Claimable(s)| - BATCH * k)
      && (k > 0 && |Claimable(s)| <= BATCH ==>
            forall j :: j in Claimable(s) ==> u.jobs[j].attemptCount > s.jobs[j].attemptCount)
    }

    lemma AlongStart(s: Queue.State)
      requires Is(s, Queue.Idle)
      ensures Along(s, s, 0)
    {
      hide Claimable, RealDelays;
    }

    lemma AlongOn(s: Queue.State, u: Queue.State, k: nat, t: Queue.State, ids: seq<JobId>)
      requires Along(s, u, k) && Attempts(u, t, ids) && EarliestFirst(u.jobs, Claimable(u), ids)
      requires |ids| == (if |Claimable(u)| < BATCH then |Claimable(u)| else BATCH)
      ensures Along(s, t, k + 1)
    {
      hide *;
      AlongIs(s, u, k);
      AlongIs(s, t, k + 1);
      ClaimableAfter(u, t, ids);
      AttemptsRaise(u, t, ids);
      ClaimedAreClaimable(u, ids);
      IdSetIs(ids);
      WaitingLess(Claimable(u), IdSet(ids));
      ClaimableExist(s);
      BatchIsTen();
      forall j | j in Claimable(s) ensures j in Claimable(t) || t.jobs[j].attemptCount > s.jobs[j].attemptCount {
        assert j in s.jobs;
      }
    }

    lemma BatchIsTen()
      ensures BATCH == 10
    {
    }

    lemma IdSetIs(ids: seq<JobId>)
      ensures forall j :: j in IdSet(ids) <==> j in ids
    {
    }

    lemma AlongIs(s: Queue.State, u: Queue.State, k: nat)
      ensures Along(s, u, k) <==>
        && Is(u, Queue.Idle) && u.jobs.Keys == s.jobs.Keys && (k == 0 ==> u == s)
        && (forall j :: j in s.jobs ==> u.jobs[j].attemptCount >= s.jobs[j].attemptCount)
        && (forall j :: j in Claimable(s) ==> j in Claimable(u) || u.jobs[j].attemptCount > s.jobs[j].attemptCount)
        && (RealDelays(settings.schedule) ==>
              |Claimable(u)| == if |Claimable(s)| < BATCH * k then 0 else |Claimable(s)| - BATCH * k)
        && (k > 0 && |Claimable(s)| <= BATCH ==>
              forall j :: j in Claimable(s) ==> u.jobs[j].attemptCount > s.jobs[j].attemptCount)
    {
      ClaimableExist(s);
      hide Claimable, RealDelays, Is, BATCH;
    }

    lemma AttemptsRaise(s: Queue.State, t: Queue.State, ids: seq<JobId>)
      requires Attempts(s, t, ids)
      ensures Is(t, Queue.Idle) && t.jobs.Keys == s.jobs.Keys
      ensures forall j :: j in s.jobs ==>
        && t.jobs[j].attemptCount >= s.jobs[j].attemptCount
        && (j in ids ==> t.jobs[j].attemptCount > s.jobs[j].attemptCount)
    {
      hide Is, Due, RealDelays;
    }

    lemma ClaimableExist(s: Queue.State)
      ensures Claimable(s) <= s.jobs.Keys
    {
    }

    lemma ClaimedAreClaimable(s: Queue.State, ids: seq<JobId>)
      requires EarliestFirst(s.jobs, Claimable(s), ids)
      ensures IdSet(ids) <= Claimable(s) && |IdSet(ids)| == |ids|
    {
      hide Claimable;
      IdsCount(ids);
    }

    lemma {:induction false} AlongTheWay(s: Queue.State, cycles: seq<Cycle>, t: Queue.State, k: nat)
      requires Chained(s, cycles, t, true) && Is(s, Queue.Idle) && Quiet(world) && Calm(world) && k <= |cycles|
      ensures Along(s, StateAt(s, cycles, k), k)
    {
      hide *;
      StatesAre(s, cycles, t, k);
      if k == 0 {
        AlongStart(s);
      } else {
        AlongTheWay(s, cycles, t, k - 1);
        var u, c := StateAt(s, cycles, k - 1), cycles[k - 1];
        AlongIsIdle(s, u, k - 1);
        QuietCycle(u, c, k - 1);
        AlongOn(s, u, k - 1, c.end, c.ids);
      }
    }

    lemma StatesAre(s: Queue.State, cycles: seq<Cycle>, t: Queue.State, k: nat)
      requires Chained(s, cycles, t, true) && k <= |cycles|
      ensures StateAt(s, cycles, |cycles|) == t
      ensures if k == 0 then StateAt(s, cycles, k) == s
              else StateAt(s, cycles, k) == cycles[k - 1].end && Cycled(StateAt(s, cycles, k - 1), cycles[k - 1], k - 1)
    {
      hide Cycled;
    }

    lemma AlongIsIdle(s: Queue.State, u: Queue.State, k: nat)
      requires Along(s, u, k)
      ensures Is(u, Queue.Idle)
    {
      hide Claimable, RealDelays, Is;
    }

    lemma AllAreTried(s: Queue.State, cycles: seq<Cycle>, t: Queue.State)
      requires Chained(s, cycles, t, true) && Is(s, Queue.Idle) && Quiet(world) && Calm(world)
      requires Reachable(s, |cycles|)
      ensures AllTried(s, t)
    {
      hide *;
      AlongTheWay(s, cycles, t, |cycles|);
      StatesAre(s, cycles, t, |cycles|);
      ClaimableExist(s);
      AlongIs(s, t, |cycles|);
      ReachableIs(s, |cycles|);
      AllTriedIs(s, t);
      if Claimable(s) != {} {
        SomeAre(Claimable(s));
      }
      NoneAre(Claimable(t));
    }

    lemma ReachableIs(s: Queue.State, iterations: nat)
      ensures Reachable(s, iterations) <==>
        |Claimable(s)| <= BATCH * iterations && (|Claimable(s)| <= BATCH || RealDelays(settings.schedule))
      ensures iterations == 0 ==> BATCH * iterations == 0
    {
      hide Claimable, RealDelays, BATCH;
    }

    lemma SomeAre(ids: set<JobId>)
      requires ids != {}
      ensures |ids| > 0
    {
    }

    lemma NoneAre(ids: set<JobId>)
      ensures |ids| == 0 ==> ids == {}
    {
    }

    predicate CrashFree(steps: seq<Queue.Step>) {
      forall i :: 0 <= i < |steps| ==> !steps[i].Crash? && (steps[i].Lock? ==> |steps[i].ids| <= BATCH)
    }

    predicate CrashLast(steps: seq<Queue.Step>) {
      steps != [] && CrashFree(steps[..|steps| - 1]) && steps[|steps| - 1].Crash?
    }

    lemma CrashesAre(steps: seq<Queue.Step>)
      ensures CrashFree(steps) ==> forall i :: 0 <= i < |steps| ==>
        !steps[i].Crash? && (steps[i].Lock? ==> |steps[i].ids| <= BATCH)
      ensures CrashLast(steps) ==>
        && steps != []
        && forall i :: 0 <= i < |steps| ==>
             (steps[i].Lock? ==> |steps[i].ids| <= BATCH) && (steps[i].Crash? <==> i == |steps| - 1)
    {
      if CrashLast(steps) {
        assert forall i :: 0 <= i < |steps| - 1 ==> steps[..|steps| - 1][i] == steps[i];
      }
    }

    lemma CrashesOn(first: seq<Queue.Step>, second: seq<Queue.Step>)
      requires CrashFree(first)
      ensures CrashFree(second) ==> CrashFree(first + second)
      ensures CrashLast(second) ==> CrashLast(first + second)
    {
      if CrashLast(second) {
        assert (first + second)[..|first + second| - 1] == first + second[..|second| - 1];
      }
    }

    lemma CycleCrashes(s: Queue.State, c: Cycle, cycle: nat)
      requires Cycled(s, c, cycle)
      ensures if c.alive then CrashFree(StepsOf(c, cycle)) else CrashLast(StepsOf(c, cycle))
    {
      hide *;
      CycledIs(s, c, cycle);
      CycleStepsAre(c.ids, c.claims, c.done, cycle);
      ClaimCrashes(c.ids, cycle);
      if c.ids != [] && ClaimSurvives(c.ids, cycle) {
        ProcessedIs(c, cycle);
        BatchCrashFree(c.claims, cycle, c.done);
        var before := BatchSteps(id, c.claims, cycle, c.done, settings, world);
        CrashesOn(ClaimSteps(c.ids, cycle), before);
        if c.done < |c.claims| {
          var turn := Turn(c.claims[c.done], cycle, c.done);
          BatchUnfold(id, c.claims, cycle, c.done + 1, settings, world);
          var last := StepsFor(id, turn, settings, world);
          TurnCrashes(turn);
          CrashesOn(ClaimSteps(c.ids, cycle) + before, last);
          assert ClaimSteps(c.ids, cycle) + (before + last) == ClaimSteps(c.ids, cycle) + before + last;
        } else {
          FinishIsNoCrash();
          CrashesOn(ClaimSteps(c.ids, cycle) + before, [Queue.Finish(id)]);
        }
      }
    }

    lemma FinishIsNoCrash()
      ensures CrashFree([Queue.Finish(id)])
    {
    }

    lemma ClaimCrashes(ids: seq<JobId>, cycle: nat)
      requires |ids| <= BATCH
      ensures if ClaimSurvives(ids, cycle) then CrashFree(ClaimSteps(ids, cycle)) else CrashLast(ClaimSteps(ids, cycle))
    {
      ClaimStepsAre(ids, cycle);
      hide ClaimSteps, ClaimSurvives;
      var lock, commit, crash := Queue.Lock(id, ids), Queue.Commit(id), Queue.Crash(id);
      assert [lock, crash][..1] == [lock] && [lock, commit, crash][..2] == [lock, commit] && [crash][..0] == [];
    }

    lemma TurnCrashes(turn: Turn)
      ensures var steps := StepsFor(id, turn, settings, world);
        if Survives(turn, settings, world) then CrashFree(steps) else CrashLast(steps)
    {
      hide JobUpdated, MessageUpdated, Survives, AttemptAt, Known;
      var steps := StepsFor(id, turn, settings, world);
      if !Survives(turn, settings, world) {
        var body := (if JobUpdated(turn, settings, world)
                     then [Queue.Conclude(id, Known(turn, settings), AttemptAt(turn, world))] else [])
                    + (if MessageUpdated(turn, settings, world) then [Queue.TouchMessage(id)] else []);
        assert steps == body + [Queue.Crash(id)];
        assert steps[..|steps| - 1] == body;
      }
    }

    lemma {:induction false} BatchCrashFree(claims: seq<Claim>, cycle: nat, n: nat)
      requires n <= |claims| && forall i :: 0 <= i < n ==> Survives(Turn(claims[i], cycle, i), settings, world)
      ensures CrashFree(BatchSteps(id, claims, cycle, n, settings, world))
    {
      hide Survives, StepsFor, CrashFree, CrashLast;
      if n == 0 {
        EmptyIsCrashFree();
      } else {
        BatchCrashFree(claims, cycle, n - 1);
        TurnCrashes(Turn(claims[n - 1], cycle, n - 1));
        CrashesOn(BatchSteps(id, claims, cycle, n - 1, settings, world),
                  StepsFor(id, Turn(claims[n - 1], cycle, n - 1), settings, world));
      }
    }

    lemma EmptyIsCrashFree()
      ensures CrashFree([])
    {
    }
  }
}
