/** What holds over whole runs of the outbound queue. */
module QueueRuns {
  import opened Wrappers
  import opened Jobs
  import opened Queue
  import opened QueueInvariant
  import Messages

  // ------------------------------------------------------------------
  // The invariant holds in every reachable state
  // ------------------------------------------------------------------

  lemma InvInit(s: State, schedule: Schedule)
    requires Init(s)
    ensures Inv(s, schedule)
  {
  }

  lemma InvStep(s: State, step: Step, schedule: Schedule)
    requires Inv(s, schedule) && Enabled(s, step)
    ensures Inv(Apply(s, step, schedule), schedule)
  {
    InvParts(s, schedule);
    hide HoldingInv, BoundsInv, LinkInv, TouchInv, StatusInv, HistoryInv, Apply, Enabled;
    HoldingStep(s, step, schedule);
    BoundsStep(s, step, schedule);
    LinkStep(s, step, schedule);
    TouchStep(s, step, schedule);
    StatusStep(s, step, schedule);
    HistoryStep(s, step, schedule);
  }

  lemma InvParts(s: State, schedule: Schedule)
    ensures Inv(s, schedule) <==>
      HoldingInv(s) && BoundsInv(s, schedule) && LinkInv(s) && TouchInv(s) && StatusInv(s) && HistoryInv(s, schedule)
  {
  }

  lemma RunStart(states: seq<State>, steps: seq<Step>, schedule: Schedule)
    requires Run(states, steps, schedule)
    ensures |states| == |steps| + 1 && Init(states[0])
  {
    hide Enabled, Apply, Init;
  }

  lemma RunStep(states: seq<State>, steps: seq<Step>, schedule: Schedule, i: nat)
    requires Run(states, steps, schedule) && i < |steps|
    ensures |states| == |steps| + 1 && Enabled(states[i], steps[i])
    ensures states[i + 1] == Apply(states[i], steps[i], schedule)
  {
    hide Enabled, Apply, Init;
  }

  lemma {:induction false} Invariant(states: seq<State>, steps: seq<Step>, schedule: Schedule, k: nat)
    requires Run(states, steps, schedule) && k < |states|
    ensures Inv(states[k], schedule)
  {
    hide *;
    RunStart(states, steps, schedule);
    if k == 0 {
      InvInit(states[0], schedule);
    } else {
      RunStep(states, steps, schedule, k - 1);
      Invariant(states, steps, schedule, k - 1);
      InvStep(states[k - 1], steps[k - 1], schedule);
    }
  }

  // ------------------------------------------------------------------
  // Claim exclusivity
  // ------------------------------------------------------------------

  /**
   In every reachable state each row is held by at most one worker, once; what is held
   after a commit is in progress; and so the concluding UPDATE of any worker, which
   checks no status, always meets the row in progress with the attempt count the
   worker remembers.
   */
  lemma ClaimsAreExclusive(states: seq<State>, steps: seq<Step>, schedule: Schedule, k: nat)
    requires Run(states, steps, schedule) && k < |states|
    ensures Exclusive(states[k])
    ensures forall w, j :: Holds(states[k], w, j) && states[k].workers[w].mode != Locking ==>
      j in states[k].jobs && states[k].jobs[j].status == InProgress
    ensures k < |steps| && steps[k].Conclude? ==>
      var claim := states[k].workers[steps[k].w].batch[0];
      && claim.id in states[k].jobs
      && states[k].jobs[claim.id] == claim.job.(status := InProgress)
  {
    hide *;
    Invariant(states, steps, schedule, k);
    var s := states[k];
    InvParts(s, schedule);
    HeldRows(s);
    if k < |steps| && steps[k].Conclude? {
      RunStep(states, steps, schedule, k);
      ConcludeMoves(s, steps[k].w, steps[k].partnerKnown, steps[k].attempt, schedule);
      HeldNow(s, steps[k].w);
    }
  }

  lemma HeldRows(s: State)
    requires HoldingInv(s)
    ensures Exclusive(s)
    ensures forall w, j :: Holds(s, w, j) && s.workers[w].mode != Locking ==>
      j in s.jobs && s.jobs[j].status == InProgress
  {
    hide Exclusive;
    forall w, j | Holds(s, w, j) && s.workers[w].mode != Locking ensures j in s.jobs && s.jobs[j].status == InProgress {
      var i :| 0 <= i < |s.workers[w].batch| && s.workers[w].batch[i].id == j;
      assert Held(s, w, i) && ClaimMatches(s, w, i);
    }
  }

  /** Delivered, nacked and exchange-failure rows are final: no later step of the run changes one. */
  lemma {:induction false} TerminalIsFinal(
    states: seq<State>, steps: seq<Step>, schedule: Schedule, i: nat, k: nat, j: JobId)
    requires Run(states, steps, schedule) && i <= k < |states|
    requires j in states[i].jobs && Terminal(states[i].jobs[j].status)
    ensures j in states[k].jobs && states[k].jobs[j] == states[i].jobs[j]
  {
    hide *;
    RunStart(states, steps, schedule);
    if i < k {
      TerminalIsFinal(states, steps, schedule, i, k - 1, j);
      RunStep(states, steps, schedule, k - 1);
      Invariant(states, steps, schedule, k - 1);
      InvParts(states[k - 1], schedule);
      TerminalKept(states[k - 1], steps[k - 1], schedule);
    }
  }

  // ------------------------------------------------------------------
  // Attempts
  // ------------------------------------------------------------------

  /**
   Attempt counts over every run: below the maximum while queued, between one and the
   maximum otherwise. A delivery failure either reschedules, with a schedule index
   between 1 and n-1, or declares an Exchange Failure, at exactly the maximum.
   */
  lemma AttemptsAreBounded(states: seq<State>, steps: seq<Step>, schedule: Schedule, k: nat)
    requires Run(states, steps, schedule) && k < |states|
    ensures forall j :: j in states[k].jobs ==>
      var job := states[k].jobs[j];
      && (job.status == Queued ==> job.attemptCount < MaxAttempts(schedule))
      && (job.status != Queued ==> 1 <= job.attemptCount <= MaxAttempts(schedule))
      && (job.status == ExchangeFailure && j !in states[k].unknown ==> job.attemptCount == MaxAttempts(schedule))
    ensures k < |steps| && steps[k].Conclude? && steps[k].partnerKnown && steps[k].attempt.Failed? ==>
      var claim := states[k].workers[steps[k].w].batch[0];
      var n := claim.job.attemptCount;
      && claim.id in states[k + 1].jobs
      && var after := states[k + 1].jobs[claim.id];
      if n < MaxAttempts(schedule)
      then 1 <= n < |schedule| && after.status == Queued && after.nextAttemptAt == states[k].now + schedule[n]
      else n == MaxAttempts(schedule) && after.status == ExchangeFailure
  {
    hide *;
    Invariant(states, steps, schedule, k);
    var s := states[k];
    forall j | j in s.jobs
      ensures var job := s.jobs[j];
        && (job.status == Queued ==> job.attemptCount < MaxAttempts(schedule))
        && (job.status != Queued ==> 1 <= job.attemptCount <= MaxAttempts(schedule))
        && (job.status == ExchangeFailure && j !in s.unknown ==> job.attemptCount == MaxAttempts(schedule))
    {
      AttemptsOf(s, schedule, j);
    }
    if k < |steps| && steps[k].Conclude? && steps[k].partnerKnown && steps[k].attempt.Failed? {
      RunStep(states, steps, schedule, k);
      FailureStep(s, steps[k], schedule);
    }
  }

  lemma AttemptsOf(s: State, schedule: Schedule, j: JobId)
    requires Inv(s, schedule) && j in s.jobs
    ensures var job := s.jobs[j];
      && (job.status == Queued ==> job.attemptCount < MaxAttempts(schedule))
      && (job.status != Queued ==> 1 <= job.attemptCount <= MaxAttempts(schedule))
      && (job.status == ExchangeFailure && j !in s.unknown ==> job.attemptCount == MaxAttempts(schedule))
  {
    hide HoldingInv, LinkInv, TouchInv, StatusInv, HistoryInv, MaxAttempts;
    assert WithinBounds(s.jobs[j], MaxAttempts(schedule));
  }

  lemma FailureStep(s: State, step: Step, schedule: Schedule)
    requires Inv(s, schedule) && Enabled(s, step) && step.Conclude? && step.partnerKnown && step.attempt.Failed?
    ensures
      var claim := s.workers[step.w].batch[0];
      var t, n := Apply(s, step, schedule), claim.job.attemptCount;
      && claim.id in t.jobs
      && var after := t.jobs[claim.id];
      if n < MaxAttempts(schedule)
      then 1 <= n < |schedule| && after.status == Queued && after.nextAttemptAt == s.now + schedule[n]
      else n == MaxAttempts(schedule) && after.status == ExchangeFailure
  {
    hide *;
    InvParts(s, schedule);
    ConcludeMoves(s, step.w, step.partnerKnown, step.attempt, schedule);
    HeldNow(s, step.w);
    AttemptsOf(s, schedule, s.workers[step.w].batch[0].id);
    FailureIs(s.workers[step.w].batch[0].job, step.attempt, schedule, s.now);
  }

  lemma FailureIs(job: Job, attempt: Attempt, schedule: Schedule, now: Time)
    requires attempt.Failed? && 1 <= job.attemptCount <= MaxAttempts(schedule)
    ensures var after := Concluded(job.(status := InProgress), ConclusionOf(job, true, attempt, schedule, now));
      var n := job.attemptCount;
      if n < MaxAttempts(schedule)
      then n < |schedule| && after.status == Queued && after.nextAttemptAt == now + schedule[n]
      else n == MaxAttempts(schedule) && after.status == ExchangeFailure
  {
  }

  /** What a job still has ahead of it: two events an attempt, claim and conclusion. */
  function Rank(job: Job, max: nat): int {
    match job.status
    case Queued => 2 * (max - job.attemptCount)
    case InProgress => 2 * (max - job.attemptCount) + 1
    case _ => 0
  }

  /** The step claims or concludes the job. */
  predicate Concerns(s: State, step: Step, j: JobId)
    requires Enabled(s, step)
  {
    match step
    case Commit(w) => j in BatchIds(s.workers[w].batch)
    case Conclude(w, _, _) => s.workers[w].batch[0].id == j
    case _ => false
  }

  lemma RankStep(s: State, step: Step, schedule: Schedule, j: JobId)
    requires Inv(s, schedule) && Enabled(s, step) && j in s.jobs
    ensures var t := Apply(s, step, schedule);
      && j in t.jobs
      && 0 <= Rank(t.jobs[j], MaxAttempts(schedule))
           <= Rank(s.jobs[j], MaxAttempts(schedule)) - if Concerns(s, step, j) then 1 else 0
  {
    hide *;
    var t := Apply(s, step, schedule);
    InvStep(s, step, schedule);
    JobsKept(s, step, schedule);
    BoundsOf(s, schedule, j);
    BoundsOf(t, schedule, j);
    RankWithin(t.jobs[j], MaxAttempts(schedule));
    RankWithin(s.jobs[j], MaxAttempts(schedule));
    if Concerns(s, step, j) {
      InvParts(s, schedule);
      ConcernedJob(s, step, schedule, j);
    } else {
      UnconcernedJob(s, step, schedule, j);
    }
  }

  lemma BoundsOf(s: State, schedule: Schedule, j: JobId)
    requires Inv(s, schedule) && j in s.jobs
    ensures WithinBounds(s.jobs[j], MaxAttempts(schedule))
  {
    hide HoldingInv, LinkInv, TouchInv, StatusInv, HistoryInv, WithinBounds;
  }

  lemma RankWithin(job: Job, max: nat)
    requires WithinBounds(job, max)
    ensures 0 <= Rank(job, max) <= 2 * max
    ensures job.status == Queued ==> Rank(job, max) == 2 * (max - job.attemptCount) >= 2
    ensures job.status == InProgress ==> Rank(job, max) == 2 * (max - job.attemptCount) + 1
    ensures job.status != Queued && job.status != InProgress ==> Rank(job, max) == 0
  {
  }

  /** A claim or a conclusion takes one from what the job has ahead of it. */
  lemma ConcernedJob(s: State, step: Step, schedule: Schedule, j: JobId)
    requires HoldingInv(s) && Enabled(s, step) && j in s.jobs && Concerns(s, step, j)
    ensures var a, b := s.jobs[j], Apply(s, step, schedule).jobs[j];
      || (a.status == Queued && b.status == InProgress && b.attemptCount == a.attemptCount + 1)
      || (a.status == InProgress && b.status != InProgress && b.attemptCount == a.attemptCount)
  {
    if step.Commit? {
      CommittedRow(s, step.w, j);
      hide Exclusive, OpenRounds, Bumped;
    } else {
      HeldNow(s, step.w);
      hide HoldingInv, CloseRound, AfterConclusion;
    }
  }

  lemma UnconcernedJob(s: State, step: Step, schedule: Schedule, j: JobId)
    requires Enabled(s, step) && j in s.jobs && !Concerns(s, step, j)
    ensures j in Apply(s, step, schedule).jobs && Apply(s, step, schedule).jobs[j] == s.jobs[j]
  {
    hide ConcludeMessage, ConclusionOf, Concluded, CloseRound, OpenRounds, AfterConclusion, Bumped, BatchIds, Claimed;
  }

  /** How many of the first `k` steps claim or conclude the job. */
  function Events(states: seq<State>, steps: seq<Step>, j: JobId, k: nat): nat
    requires k <= |steps| <= |states|
    requires forall i :: 0 <= i < |steps| ==> Enabled(states[i], steps[i])
  {
    if k == 0 then 0
    else Events(states, steps, j, k - 1) + if Concerns(states[k - 1], steps[k - 1], j) then 1 else 0
  }

  /** A job sees at most 2n claims and conclusions, however many workers there are and however they interleave. */
  lemma {:induction false} EventsAreBounded(states: seq<State>, steps: seq<Step>, schedule: Schedule, j: JobId, k: nat)
    requires Run(states, steps, schedule) && k <= |steps|
    ensures Events(states, steps, j, k) <= 2 * MaxAttempts(schedule)
    ensures j in states[k].jobs ==>
      Events(states, steps, j, k) + Rank(states[k].jobs[j], MaxAttempts(schedule)) <= 2 * MaxAttempts(schedule)
    ensures j !in states[k].jobs ==> Events(states, steps, j, k) == 0
  {
    hide *;
    RunStart(states, steps, schedule);
    if k == 0 {
      NoEventsYet(states, steps, schedule, j);
      return;
    }
    EventsAreBounded(states, steps, schedule, j, k - 1);
    Invariant(states, steps, schedule, k - 1);
    RunStep(states, steps, schedule, k - 1);
    EventsNext(states, steps, schedule, j, k);
    var s, step := states[k - 1], steps[k - 1];
    JobsKept(s, step, schedule);
    Invariant(states, steps, schedule, k);
    if j in states[k].jobs {
      BoundsOf(states[k], schedule, j);
      RankWithin(states[k].jobs[j], MaxAttempts(schedule));
    }
    if j in s.jobs {
      RankStep(s, step, schedule, j);
    } else {
      InvParts(s, schedule);
      NoEventBeforeCreation(s, step, schedule, j);
    }
  }

  lemma NoEventsYet(states: seq<State>, steps: seq<Step>, schedule: Schedule, j: JobId)
    requires Run(states, steps, schedule)
    ensures Events(states, steps, j, 0) == 0 && states[0].jobs == map[]
  {
    hide Enabled, Apply, Concerns;
  }

  lemma EventsNext(states: seq<State>, steps: seq<Step>, schedule: Schedule, j: JobId, k: nat)
    requires Run(states, steps, schedule) && 0 < k <= |steps|
    ensures Enabled(states[k - 1], steps[k - 1])
    ensures Events(states, steps, j, k) ==
      Events(states, steps, j, k - 1) + if Concerns(states[k - 1], steps[k - 1], j) then 1 else 0
  {
    hide Enabled, Apply, Concerns, Init;
  }

  lemma HeldIsKnown(s: State, w: WorkerId)
    requires HoldingInv(s) && w in s.workers
    ensures BatchIds(s.workers[w].batch) <= s.jobs.Keys
  {
    forall c | c in s.workers[w].batch ensures c.id in s.jobs {
      var i :| 0 <= i < |s.workers[w].batch| && s.workers[w].batch[i] == c;
      assert Held(s, w, i) && ClaimMatches(s, w, i);
    }
  }

  lemma NoEventBeforeCreation(s: State, step: Step, schedule: Schedule, j: JobId)
    requires HoldingInv(s) && Enabled(s, step) && j !in s.jobs
    ensures !Concerns(s, step, j)
    ensures var t := Apply(s, step, schedule);
      j in t.jobs ==> Rank(t.jobs[j], MaxAttempts(schedule)) == 2 * MaxAttempts(schedule)
  {
    if step.Commit? || step.Conclude? {
      HeldIsKnown(s, step.w);
      assert step.Conclude? ==> s.workers[step.w].batch[0] in s.workers[step.w].batch;
    }
  }

  // ------------------------------------------------------------------
  // Jobs and messages stay in step
  // ------------------------------------------------------------------

  /**
   In every reachable state, crashes included: jobs map one-to-one to outbound messages
   with the same partner, digest, ids and refnum; an outbound message that is no longer
   queued has a job in the same terminal status; and a job's message shows the job's
   terminal status exactly when its update has been neither lost nor is still to come.
   */
  lemma MessagesFollowJobs(states: seq<State>, steps: seq<Step>, schedule: Schedule, k: nat)
    requires Run(states, steps, schedule) && k < |states|
    ensures var s := states[k];
      && (forall j :: j in s.jobs ==> s.jobs[j].messageId.Some? && Linked(s, j, s.jobs[j].messageId.value))
      && (forall j, j' :: j in s.jobs && j' in s.jobs && s.jobs[j].messageId == s.jobs[j'].messageId ==> j == j')
      && (forall j :: j in s.jobs ==>
            s.messages[s.jobs[j].messageId.value].status ==
            if Touched(s, j) then MessageStatusFor(s.jobs[j].status) else Messages.Queued)
      && (forall m ::
            (m in s.messages && s.messages[m].direction == Messages.Outbound
             && s.messages[m].status != Messages.Queued) ==>
            exists j ::
              && Linked(s, j, m) && Terminal(s.jobs[j].status)
              && s.messages[m].status == MessageStatusFor(s.jobs[j].status))
  {
    hide *;
    Invariant(states, steps, schedule, k);
    InvParts(states[k], schedule);
    InStep(states[k]);
  }

  lemma InStep(s: State)
    requires LinkInv(s) && StatusInv(s)
    ensures
      && (forall j :: j in s.jobs ==> s.jobs[j].messageId.Some? && Linked(s, j, s.jobs[j].messageId.value))
      && (forall j, j' :: j in s.jobs && j' in s.jobs && s.jobs[j].messageId == s.jobs[j'].messageId ==> j == j')
      && (forall j :: j in s.jobs ==>
            s.messages[s.jobs[j].messageId.value].status ==
            if Touched(s, j) then MessageStatusFor(s.jobs[j].status) else Messages.Queued)
      && (forall m ::
            (m in s.messages && s.messages[m].direction == Messages.Outbound
             && s.messages[m].status != Messages.Queued) ==>
            exists j ::
              && Linked(s, j, m) && Terminal(s.jobs[j].status)
              && s.messages[m].status == MessageStatusFor(s.jobs[j].status))
  {
    hide Touched;
    forall m |
      m in s.messages && s.messages[m].direction == Messages.Outbound && s.messages[m].status != Messages.Queued
      ensures exists j ::
        Linked(s, j, m) && Terminal(s.jobs[j].status) && s.messages[m].status == MessageStatusFor(s.jobs[j].status)
    {
      var j :| j in s.jobs && s.jobs[j].messageId == Some(m);
      assert Linked(s, j, m);
      TouchedIsTerminal(s, j);
    }
  }

  /** Nothing is lost unless a worker crashes between its two updates or meets an unknown partner. */
  lemma {:induction false} NothingLost(states: seq<State>, steps: seq<Step>, schedule: Schedule, k: nat)
    requires Run(states, steps, schedule) && k < |states|
    requires forall i :: 0 <= i < k ==>
      && (steps[i].Crash? ==> !states[i].workers[steps[i].w].mode.Touching?)
      && (steps[i].Conclude? ==> steps[i].partnerKnown)
    ensures states[k].lost == {}
  {
    hide *;
    RunStart(states, steps, schedule);
    if k > 0 {
      NothingLost(states, steps, schedule, k - 1);
      RunStep(states, steps, schedule, k - 1);
      LostStep(states[k - 1], steps[k - 1], schedule);
    } else {
      InitLost(states[0]);
    }
  }

  lemma InitLost(s: State)
    requires Init(s)
    ensures s.lost == {}
  {
  }

  lemma LostStep(s: State, step: Step, schedule: Schedule)
    requires Enabled(s, step)
    requires step.Crash? ==> !s.workers[step.w].mode.Touching?
    requires step.Conclude? ==> step.partnerKnown
    ensures Apply(s, step, schedule).lost == s.lost
  {
    hide ConcludeJob, ConcludeMessage, ConclusionOf, ClaimAll, AfterConclusion, CloseRound, OpenRounds, Bumped,
         BatchIds, OutboundUntouched;
  }

  /** With no such crash, all partners known and no worker between its updates, every message agrees with its job. */
  lemma QuietMeansInStep(states: seq<State>, steps: seq<Step>, schedule: Schedule, k: nat)
    requires Run(states, steps, schedule) && k < |states|
    requires forall i :: 0 <= i < k ==>
      && (steps[i].Crash? ==> !states[i].workers[steps[i].w].mode.Touching?)
      && (steps[i].Conclude? ==> steps[i].partnerKnown)
    requires forall w :: w in states[k].workers ==> !states[k].workers[w].mode.Touching?
    ensures var s := states[k];
      forall j :: j in s.jobs ==>
        && s.jobs[j].messageId.Some? && s.jobs[j].messageId.value in s.messages
        && s.messages[s.jobs[j].messageId.value].status == MessageStatusFor(s.jobs[j].status)
  {
    hide *;
    MessagesFollowJobs(states, steps, schedule, k);
    NothingLost(states, steps, schedule, k);
    var s := states[k];
    forall j | j in s.jobs
      ensures && s.jobs[j].messageId.Some? && s.jobs[j].messageId.value in s.messages
              && s.messages[s.jobs[j].messageId.value].status == MessageStatusFor(s.jobs[j].status)
    {
      LinkedExists(s, j, s.jobs[j].messageId.value);
      QuietlyTouched(s, j);
    }
  }

  lemma QuietlyTouched(s: State, j: JobId)
    requires j in s.jobs && s.lost == {} && forall w :: w in s.workers ==> !s.workers[w].mode.Touching?
    ensures !Touched(s, j) ==> MessageStatusFor(s.jobs[j].status) == Messages.Queued
  {
  }

  /** The two events that part a job from its message: an unknown partner, and a crash between the two updates. */
  predicate Parts(s: State, step: Step, j: JobId) {
    || (step.Conclude? && !step.partnerKnown && step.w in s.workers && s.workers[step.w].batch != []
        && s.workers[step.w].batch[0].id == j)
    || (step.Crash? && TouchingJob(s, step.w, j))
  }

  lemma LostMoves(s: State, step: Step, schedule: Schedule, j: JobId)
    requires Enabled(s, step)
    ensures j in Apply(s, step, schedule).lost <==> j in s.lost || Parts(s, step, j)
  {
    hide ConcludeJob, ConcludeMessage, ConclusionOf, ClaimAll, AfterConclusion, CloseRound, OpenRounds,
         Bumped, BatchIds,
         OutboundUntouched;
  }

  predicate PartedBy(states: seq<State>, steps: seq<Step>, k: nat, j: JobId)
    requires k <= |steps| <= |states|
  {
    exists i :: 0 <= i < k && Parts(states[i], steps[i], j)
  }

  /** A job's message is left behind if and only if one of the two events has hit that very job. */
  lemma {:induction false} LostExactly(states: seq<State>, steps: seq<Step>, schedule: Schedule, k: nat, j: JobId)
    requires Run(states, steps, schedule) && k <= |steps|
    ensures |steps| <= |states| && (j in states[k].lost <==> PartedBy(states, steps, k, j))
  {
    hide *;
    RunStart(states, steps, schedule);
    PartedUnfold(states, steps, k, j);
    if k == 0 {
      InitLost(states[0]);
    } else {
      LostExactly(states, steps, schedule, k - 1, j);
      RunStep(states, steps, schedule, k - 1);
      LostMoves(states[k - 1], steps[k - 1], schedule, j);
    }
  }

  lemma PartedUnfold(states: seq<State>, steps: seq<Step>, k: nat, j: JobId)
    requires k <= |steps| <= |states|
    ensures PartedBy(states, steps, k, j) <==>
      k > 0 && (PartedBy(states, steps, k - 1, j) || Parts(states[k - 1], steps[k - 1], j))
  {
    hide Parts;
  }

  /**
   In every reachable state, job by job: the message agrees with its job if and only if the
   job is not concluded, or neither event has hit it and no worker is between its updates.
   */
  lemma AgreementExactly(states: seq<State>, steps: seq<Step>, schedule: Schedule, k: nat, j: JobId)
    requires Run(states, steps, schedule) && k <= |steps| && j in states[k].jobs
    ensures |steps| <= |states|
    ensures var s := states[k];
      && s.jobs[j].messageId.Some? && s.jobs[j].messageId.value in s.messages
      && (s.messages[s.jobs[j].messageId.value].status == MessageStatusFor(s.jobs[j].status) <==>
            || !Terminal(s.jobs[j].status)
            || (!PartedBy(states, steps, k, j) && forall w :: !TouchingJob(s, w, j)))
  {
    hide *;
    RunStart(states, steps, schedule);
    LostExactly(states, steps, schedule, k, j);
    MessagesFollowJobs(states, steps, schedule, k);
    LinkedExists(states[k], j, states[k].jobs[j].messageId.value);
    TouchedIs(states[k], j);
  }

  lemma TouchedIs(s: State, j: JobId)
    requires j in s.jobs
    ensures Touched(s, j) <==> Terminal(s.jobs[j].status) && j !in s.lost && forall w :: !TouchingJob(s, w, j)
    ensures Terminal(s.jobs[j].status) <==> MessageStatusFor(s.jobs[j].status) != Messages.Queued
  {
    hide TouchingJob;
  }

  // ------------------------------------------------------------------
  // Stranded jobs
  // ------------------------------------------------------------------

  /** In progress, and nobody's: no later step will conclude it. */
  predicate Stranded(s: State, j: JobId) {
    j in s.jobs && s.jobs[j].status == InProgress && forall w :: w in s.workers ==> !Holds(s, w, j)
  }

  /** The crash of a worker that holds the job after its claim has committed. */
  predicate Strands(s: State, step: Step, j: JobId) {
    step.Crash? && Holds(s, step.w, j) && s.workers[step.w].mode != Locking
  }

  lemma HoldersMove(s: State, step: Step, schedule: Schedule, v: WorkerId, j: JobId)
    requires Enabled(s, step)
    ensures Holds(Apply(s, step, schedule), v, j) <==> HoldsAfter(s, step, v, j)
  {
    hide ConcludeJob, ConcludeMessage, ConclusionOf, ClaimAll, CloseRound, OpenRounds, BatchIds, OutboundUntouched, Due;
    var t := Apply(s, step, schedule);
    if v in t.workers && v in s.workers {
      if step.Lock? && v == step.w {
        assert forall i :: 0 <= i < |step.ids| ==> t.workers[v].batch[i].id == step.ids[i];
      } else if step.Commit? && v == step.w {
        assert forall i :: 0 <= i < |s.workers[v].batch| ==> t.workers[v].batch[i].id == s.workers[v].batch[i].id;
      } else if step.Conclude? && v == step.w {
        assert t.workers[v].batch == s.workers[v].batch[1..];
        assert forall i :: 1 <= i < |s.workers[v].batch| ==> s.workers[v].batch[1..][i - 1] == s.workers[v].batch[i];
      } else {
        assert v in {v} && (t.workers[v].batch == s.workers[v].batch || t.workers[v].batch == []);
      }
    }
  }

  /**
   Who holds what: one holder at most, none when idle or dead; held rows are queued while
   locked and in progress afterwards.
   */
  lemma HoldingFacts(s: State, w: WorkerId, v: WorkerId, j: JobId)
    requires HoldingInv(s)
    ensures Holds(s, w, j) && Holds(s, v, j) ==> w == v
    ensures Holds(s, w, j) ==>
      j in s.jobs && s.jobs[j].status == if s.workers[w].mode == Locking then Queued else InProgress
    ensures Holds(s, w, j) ==>
      s.workers[w].mode != Idle && s.workers[w].mode != Dead && s.workers[w].batch != []
    ensures w in s.workers && s.workers[w].batch != [] && s.workers[w].batch[0].id == j ==>
      Holds(s, w, j) && !HeldLater(s.workers[w].batch, j)
    ensures w in s.workers && s.workers[w].batch != [] && s.workers[w].batch[0].id != j ==>
      (Holds(s, w, j) <==> HeldLater(s.workers[w].batch, j))
  {
    if Holds(s, w, j) {
      var i :| 0 <= i < |s.workers[w].batch| && s.workers[w].batch[i].id == j;
      assert Held(s, w, i) && ClaimMatches(s, w, i);
      if Holds(s, v, j) {
        var k :| 0 <= k < |s.workers[v].batch| && s.workers[v].batch[k].id == j;
        assert Held(s, v, k);
      }
    }
    if w in s.workers && s.workers[w].batch != [] {
      forall i | 1 <= i < |s.workers[w].batch| ensures s.workers[w].batch[i].id != s.workers[w].batch[0].id {
        assert Held(s, w, 0) && Held(s, w, i);
      }
    }
  }

  lemma StrandedIs(s: State, j: JobId)
    ensures Stranded(s, j) <==> j in s.jobs && s.jobs[j].status == InProgress && forall w :: !Holds(s, w, j)
  {
    hide Holds;
    assert forall w :: w !in s.workers ==> !Holds(s, w, j) by {
      forall w | w !in s.workers ensures !Holds(s, w, j) {
        HoldsIsKnown(s, w, j);
      }
    }
  }

  lemma HoldsIsKnown(s: State, w: WorkerId, j: JobId)
    ensures Holds(s, w, j) ==> w in s.workers
  {
  }

  /** What the step's guard says of the acting worker, and what becomes of the job's row. */
  lemma GuardAndRow(s: State, step: Step, schedule: Schedule, j: JobId)
    requires Enabled(s, step)
    ensures step.Start? ==> step.w !in s.workers || s.workers[step.w].mode == Dead
    ensures step.Lock? ==> step.w in s.workers && s.workers[step.w].mode == Idle
    ensures step.Lock? && j in step.ids ==> j in s.jobs && s.jobs[j].status == Queued
    ensures step.Commit? || step.Abort? ==> step.w in s.workers && s.workers[step.w].mode == Locking
    ensures step.Conclude? ==> step.w in s.workers && s.workers[step.w].mode == Working && s.workers[step.w].batch != []
    ensures step.Finish? ==> step.w in s.workers && s.workers[step.w].batch == []
    ensures step.Crash? ==> step.w in s.workers
    ensures var t := Apply(s, step, schedule);
      && (j in s.jobs ==> j in t.jobs)
      && (j in t.jobs && j !in s.jobs ==> t.jobs[j].status == Queued)
      && (j in s.jobs && !step.Commit? && !(step.Conclude? && s.workers[step.w].batch[0].id == j) ==>
            t.jobs[j] == s.jobs[j])
      && (j in s.jobs && step.Commit? ==>
            t.jobs[j].status == if Holds(s, step.w, j) then InProgress else s.jobs[j].status)
      && (j in s.jobs && step.Conclude? && s.workers[step.w].batch[0].id == j ==> t.jobs[j].status != InProgress)
  {
    hide ConcludeMessage, CloseRound, OpenRounds, OutboundUntouched, Bumped, AfterConclusion;
    if step.Commit? {
      var batch := s.workers[step.w].batch;
      if j in BatchIds(batch) {
        var c :| c in batch && c.id == j;
        assert exists i :: 0 <= i < |batch| && batch[i] == c;
        assert Holds(s, step.w, j);
      } else if Holds(s, step.w, j) {
        var i :| 0 <= i < |batch| && batch[i].id == j;
        assert batch[i] in batch;
      }
    }
  }

  lemma StrandedMoves(s: State, step: Step, schedule: Schedule, j: JobId)
    requires HoldingInv(s) && Enabled(s, step)
    ensures Stranded(Apply(s, step, schedule), j) <==> Stranded(s, j) || Strands(s, step, j)
  {
    hide *;
    var t := Apply(s, step, schedule);
    StrandedIs(s, j);
    StrandedIs(t, j);
    StrandsIs(s, step, j);
    GuardAndRow(s, step, schedule, j);
    forall v ensures Holds(t, v, j) <==> HoldsAfter(s, step, v, j) {
      HoldersMove(s, step, schedule, v, j);
    }
    forall v, w ensures Holds(s, w, j) && Holds(s, v, j) ==> w == v {
      HoldingFacts(s, w, v, j);
    }
    if step.Start? || step.Lock? || step.Commit? || step.Abort? || step.Conclude? || step.Finish? || step.Crash? {
      var w := step.w;
      HoldingFacts(s, w, w, j);
      HoldsAfterIs(s, step, w, j);
      HoldsIsKnown(s, w, j);
      forall v | v != w ensures HoldsAfter(s, step, v, j) <==> Holds(s, v, j) {
        HoldsAfterIs(s, step, v, j);
      }
      if v :| Holds(s, v, j) {
        HoldingFacts(s, v, v, j);
        assert Holds(t, v, j) <==> HoldsAfter(s, step, v, j);
      }
    } else {
      forall v ensures HoldsAfter(s, step, v, j) <==> Holds(s, v, j) {
        HoldsAfterIs(s, step, v, j);
      }
      if v :| Holds(s, v, j) {
        assert Holds(t, v, j) <==> HoldsAfter(s, step, v, j);
      }
    }
  }

  predicate HoldsAfter(s: State, step: Step, v: WorkerId, j: JobId) {
    match step
    case Start(w) => v != w && Holds(s, v, j)
    case Lock(w, ids) => if v == w then j in ids else Holds(s, v, j)
    case Abort(w) => v != w && Holds(s, v, j)
    case Conclude(w, _, _) =>
      if v == w then w in s.workers && HeldLater(s.workers[w].batch, j) else Holds(s, v, j)
    case Finish(w) => v != w && Holds(s, v, j)
    case Crash(w) => v != w && Holds(s, v, j)
    case _ => Holds(s, v, j)
  }

  lemma HoldsAfterIs(s: State, step: Step, v: WorkerId, j: JobId)
    ensures HoldsAfter(s, step, v, j) <==>
      match step
      case Start(w) => v != w && Holds(s, v, j)
      case Lock(w, ids) => if v == w then j in ids else Holds(s, v, j)
      case Abort(w) => v != w && Holds(s, v, j)
      case Conclude(w, _, _) =>
        if v == w then w in s.workers && HeldLater(s.workers[w].batch, j) else Holds(s, v, j)
      case Finish(w) => v != w && Holds(s, v, j)
      case Crash(w) => v != w && Holds(s, v, j)
      case _ => Holds(s, v, j)
  {
    hide Holds, HeldLater;
  }

  lemma StrandsIs(s: State, step: Step, j: JobId)
    ensures Strands(s, step, j) <==> step.Crash? && Holds(s, step.w, j) && s.workers[step.w].mode != Locking
  {
    hide Holds;
  }

  predicate StrandedBy(states: seq<State>, steps: seq<Step>, k: nat, j: JobId)
    requires k <= |steps| <= |states|
  {
    exists i :: 0 <= i < k && Strands(states[i], steps[i], j)
  }

  lemma StrandedUnfold(states: seq<State>, steps: seq<Step>, k: nat, j: JobId)
    requires k <= |steps| <= |states|
    ensures StrandedBy(states, steps, k, j) <==>
      k > 0 && (StrandedBy(states, steps, k - 1, j) || Strands(states[k - 1], steps[k - 1], j))
  {
    hide Strands;
  }

  /**
   A job is in progress with nobody attempting it if and only if a worker that had claimed
   it has crashed while holding it; and then it stays so, since nothing claims it again.
   */
  lemma {:induction false} StrandedExactly(states: seq<State>, steps: seq<Step>, schedule: Schedule, k: nat, j: JobId)
    requires Run(states, steps, schedule) && k <= |steps|
    ensures |steps| <= |states| && (Stranded(states[k], j) <==> StrandedBy(states, steps, k, j))
  {
    hide *;
    RunStart(states, steps, schedule);
    StrandedUnfold(states, steps, k, j);
    if k == 0 {
      NothingStranded(states[0], j);
    } else {
      StrandedExactly(states, steps, schedule, k - 1, j);
      Invariant(states, steps, schedule, k - 1);
      InvParts(states[k - 1], schedule);
      RunStep(states, steps, schedule, k - 1);
      StrandedMoves(states[k - 1], steps[k - 1], schedule, j);
    }
  }

  lemma NothingStranded(s: State, j: JobId)
    requires Init(s)
    ensures !Stranded(s, j)
  {
  }

  predicate HeldLater(batch: seq<Claim>, j: JobId) {
    exists i :: 1 <= i < |batch| && batch[i].id == j
  }

  // ------------------------------------------------------------------
  // Retry timing
  // ------------------------------------------------------------------

  /** schedule[1] + ... + schedule[n]. */
  function DelaysTo(schedule: Schedule, n: nat): int
    requires n == 0 || n < |schedule|
  {
    if n == 0 then 0 else DelaysTo(schedule, n - 1) + schedule[n]
  }

  /** Every retry is claimed within `d` of falling due, and every attempt lasts at most `t`. */
  predicate Prompt(rounds: seq<Round>, schedule: Schedule, d: int, t: int) {
    forall n :: 1 <= n < |rounds| ==>
      PacedAt(rounds, schedule, n) ==>
      && rounds[n - 1].endedAt.value <= rounds[n - 1].claimedAt + t
      && rounds[n].claimedAt <= rounds[n - 1].endedAt.value + schedule[n] + d
  }

  lemma {:induction false} ClaimSpread(rounds: seq<Round>, schedule: Schedule, now: Time, n: nat)
    requires Paced(rounds, schedule) && Timely(rounds, now) && n < |rounds|
    ensures n == 0 || n < |schedule|
    ensures rounds[n].claimedAt >= rounds[0].claimedAt + DelaysTo(schedule, n)
  {
    if n > 0 {
      ClaimSpread(rounds, schedule, now, n - 1);
      assert PacedAt(rounds, schedule, n);
    }
  }

  lemma {:induction false} ClaimSpreadUpper(rounds: seq<Round>, schedule: Schedule, d: int, t: int, n: nat)
    requires Paced(rounds, schedule) && Prompt(rounds, schedule, d, t) && n < |rounds|
    ensures n == 0 || n < |schedule|
    ensures rounds[n].claimedAt <= rounds[0].claimedAt + DelaysTo(schedule, n) + n * (d + t)
  {
    if n > 0 {
      ClaimSpreadUpper(rounds, schedule, d, t, n - 1);
      assert PacedAt(rounds, schedule, n);
      assert n * (d + t) == (n - 1) * (d + t) + (d + t);
    }
  }

  lemma HistoryOf(s: State, schedule: Schedule, j: JobId)
    requires HistoryInv(s, schedule) && j in s.jobs
    ensures j in s.history
    ensures var rounds := s.history[j];
      && |rounds| == s.jobs[j].attemptCount
      && Paced(rounds, schedule) && Timely(rounds, s.now)
      && (rounds != [] && s.jobs[j].status != InProgress ==>
            rounds[|rounds| - 1].endedAt.Some? && rounds[|rounds| - 1].endedAt.value >= rounds[|rounds| - 1].claimedAt)
  {
    hide Paced;
    assert JobHistory(s.jobs[j], s.history[j], schedule, s.now);
  }

  /**
   In every reachable state: a job's attempts are all on record; attempt k+1 was claimed
   no earlier than the failure of attempt k plus schedule[k]; a job that exhausted its
   schedule did so no earlier than its first claim plus all the delays but the first;
   and when retries are claimed within `d` and attempts last at most `t`, the first and
   the last claim are at most those delays plus (n-1)(d+t) apart.
   */
  lemma RetryTiming(states: seq<State>, steps: seq<Step>, schedule: Schedule, k: nat, j: JobId, d: int, t: int)
    requires Run(states, steps, schedule) && k < |states| && j in states[k].jobs
    ensures var s := states[k];
      var max := MaxAttempts(schedule);
      j in s.history && var rounds := s.history[j];
      && |rounds| == s.jobs[j].attemptCount
      && Paced(rounds, schedule)
      && (s.jobs[j].status == ExchangeFailure && j !in s.unknown ==>
            && |rounds| == max && rounds[max - 1].endedAt.Some?
            && rounds[max - 1].endedAt.value >= rounds[0].claimedAt + DelaysTo(schedule, max - 1))
      && (rounds != [] && Prompt(rounds, schedule, d, t) ==>
            var last := |rounds| - 1;
            && (last == 0 || last < |schedule|)
            && DelaysTo(schedule, last)
               <= rounds[last].claimedAt - rounds[0].claimedAt
               <= DelaysTo(schedule, last) + last * (d + t))
  {
    hide *;
    Invariant(states, steps, schedule, k);
    InvParts(states[k], schedule);
    var s := states[k];
    AttemptsOf(s, schedule, j);
    HistoryOf(s, schedule, j);
    var rounds := s.history[j];
    if rounds != [] {
      ClaimSpread(rounds, schedule, s.now, |rounds| - 1);
      if Prompt(rounds, schedule, d, t) {
        ClaimSpreadUpper(rounds, schedule, d, t, |rounds| - 1);
      }
    }
  }

  const DEFAULT_SCHEDULE: Schedule := [0, 900, 2700]

  /**
   With the default schedule, three attempts spread over 30 to 120 minutes before an
   Exchange Failure, as standards 12.3.10 and 12.3.11 ask, whenever claiming late and
   attempting slowly cost at most half an hour together.
   */
  lemma DefaultScheduleWindow(states: seq<State>, steps: seq<Step>, k: nat, j: JobId, d: int, t: int)
    requires Run(states, steps, DEFAULT_SCHEDULE) && k < |states| && j in states[k].jobs
    requires states[k].jobs[j].status == ExchangeFailure && j !in states[k].unknown
    requires j in states[k].history && Prompt(states[k].history[j], DEFAULT_SCHEDULE, d, t) && 0 <= d + t <= 1800
    ensures var rounds := states[k].history[j];
      |rounds| == 3 && 3600 <= rounds[2].claimedAt - rounds[0].claimedAt <= 7200
  {
    RetryTiming(states, steps, DEFAULT_SCHEDULE, k, j, d, t);
    assert DelaysTo(DEFAULT_SCHEDULE, 1) == 900;
    assert DelaysTo(DEFAULT_SCHEDULE, 2) == 3600;
    hide Run, Prompt, Paced;
  }

  // ------------------------------------------------------------------
  // What a concluded row records
  // ------------------------------------------------------------------

  /** A delivered row has its receipt, a nacked one the partner's code, and no other row has either. */
  predicate Recorded(job: Job) {
    (job.receipt.Some? <==> job.status == Delivered) && (job.lastErrorCode.Some? <==> job.status == FailedNack)
  }

  lemma {:induction false} OutcomesAreRecorded(
    states: seq<State>, steps: seq<Step>, schedule: Schedule, k: nat, j: JobId)
    requires Run(states, steps, schedule) && k < |states| && j in states[k].jobs
    ensures Recorded(states[k].jobs[j])
  {
    hide *;
    RunStart(states, steps, schedule);
    if k == 0 {
      NoJobsYet(states[0]);
    } else {
      RunStep(states, steps, schedule, k - 1);
      Invariant(states, steps, schedule, k - 1);
      InvParts(states[k - 1], schedule);
      var s, step := states[k - 1], steps[k - 1];
      if j in s.jobs {
        OutcomesAreRecorded(states, steps, schedule, k - 1, j);
      }
      RecordedStep(s, step, schedule, j);
    }
  }

  lemma NoJobsYet(s: State)
    requires Init(s)
    ensures s.jobs == map[]
  {
  }

  lemma RecordedStep(s: State, step: Step, schedule: Schedule, j: JobId)
    requires HoldingInv(s) && Enabled(s, step) && j in Apply(s, step, schedule).jobs
    requires j in s.jobs ==> Recorded(s.jobs[j])
    ensures Recorded(Apply(s, step, schedule).jobs[j])
  {
    hide *;
    JobsMoveBy(s, step, schedule);
    match step
    case EnqueueJob(m, i) => NewJobIs(s, m, i, schedule);
    case Commit(w) =>
      LockedIsQueued(s, w, j);
      ClaimKeepsRecord(s.jobs, BatchIds(s.workers[w].batch), j);
    case Conclude(w, known, attempt) =>
      ConcludingIs(s, w, known, attempt);
      HeldNow(s, w);
      var claim := s.workers[w].batch[0];
      ConclusionRecords(s.jobs, claim.id, ConclusionOf(claim.job, known, attempt, schedule, s.now), j);
    case _ =>
  }

  lemma LockedIsQueued(s: State, w: WorkerId, j: JobId)
    requires HoldingInv(s) && Enabled(s, Commit(w))
    ensures w in s.workers && (j in s.jobs && j in BatchIds(s.workers[w].batch) ==> s.jobs[j].status == Queued)
  {
    if j in BatchIds(s.workers[w].batch) {
      var i :| 0 <= i < |s.workers[w].batch| && s.workers[w].batch[i].id == j;
      assert Held(s, w, i) && ClaimMatches(s, w, i);
    }
  }

  lemma ConcludingIs(s: State, w: WorkerId, known: bool, attempt: Attempt)
    requires Enabled(s, Conclude(w, known, attempt))
    ensures Is(s, w, Working) && w in s.workers && s.workers[w].batch != []
  {
  }

  lemma NewJobIs(s: State, m: Messages.MessageId, j: JobId, schedule: Schedule)
    requires Enabled(s, EnqueueJob(m, j))
    ensures var jobs := Apply(s, EnqueueJob(m, j), schedule).jobs;
      j in jobs && Recorded(jobs[j]) && forall i :: i in jobs && i != j ==> i in s.jobs && jobs[i] == s.jobs[i]
  {
  }

  lemma ClaimKeepsRecord(jobs: JobTable, ids: set<JobId>, j: JobId)
    requires j in ClaimAll(jobs, ids) && (j in jobs ==> Recorded(jobs[j]) && (j in ids ==> jobs[j].status == Queued))
    ensures Recorded(ClaimAll(jobs, ids)[j])
  {
  }

  lemma ConclusionRecords(jobs: JobTable, id: JobId, c: Conclusion, j: JobId)
    requires j in ConcludeJob(jobs, id, c) && (j in jobs ==> Recorded(jobs[j]))
    requires id in jobs && jobs[id].status == InProgress
    ensures Recorded(ConcludeJob(jobs, id, c)[j])
  {
  }
}
