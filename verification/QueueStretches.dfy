/** Stretches of a queue run: steps performed one after another, one worker's own among them, and others' in between. */
module QueueStretches {
  import opened Wrappers
  import opened Jobs
  import opened Queue
  import QueueInvariant
  import QueueRuns

  function Perform(s: State, steps: seq<Step>, schedule: Schedule): Option<State>
    decreases |steps|
  {
    if steps == [] then Some(s)
    else if Enabled(s, steps[0]) then Perform(Apply(s, steps[0], schedule), steps[1..], schedule)
    else None
  }

  lemma PerformNone(s: State, schedule: Schedule)
    ensures Perform(s, [], schedule) == Some(s)
  {
  }

  lemma PerformUnfold(s: State, steps: seq<Step>, schedule: Schedule)
    ensures steps == [] ==> Perform(s, steps, schedule) == Some(s)
    ensures steps != [] && Enabled(s, steps[0]) ==>
      Perform(s, steps, schedule) == Perform(Apply(s, steps[0], schedule), steps[1..], schedule)
    ensures steps != [] && !Enabled(s, steps[0]) ==> Perform(s, steps, schedule) == None
  {
    hide Enabled, Apply;
  }

  lemma PerformOne(s: State, step: Step, schedule: Schedule)
    requires Enabled(s, step)
    ensures Perform(s, [step], schedule) == Some(Apply(s, step, schedule))
  {
    hide Enabled, Apply;
    var t := Apply(s, step, schedule);
    assert [step][1..] == [];
    assert Perform(t, [], schedule) == Some(t);
  }

  lemma {:induction false} PerformMore(s: State, first: seq<Step>, t: State, second: seq<Step>, schedule: Schedule)
    requires Perform(s, first, schedule) == Some(t)
    ensures Perform(s, first + second, schedule) == Perform(t, second, schedule)
    decreases |first|
  {
    hide Enabled, Apply;
    if first == [] {
      assert first + second == second;
    } else {
      assert (first + second)[0] == first[0] && (first + second)[1..] == first[1..] + second;
      PerformMore(Apply(s, first[0], schedule), first[1..], t, second, schedule);
    }
  }

  /** A stretch that starts in a reachable state stays among the states the invariant describes. */
  lemma {:induction false} PerformKeepsInv(s: State, steps: seq<Step>, schedule: Schedule)
    requires Inv(s, schedule) && Perform(s, steps, schedule).Some?
    ensures Inv(Perform(s, steps, schedule).value, schedule)
    decreases |steps|
  {
    hide Enabled, Apply, Inv;
    if steps != [] {
      QueueRuns.InvStep(s, steps[0], schedule);
      PerformKeepsInv(Apply(s, steps[0], schedule), steps[1..], schedule);
    }
  }

  /** The worker whose step it is. */
  function Actor(step: Step): Option<WorkerId> {
    match step
    case Start(w) => Some(w)
    case Lock(w, _) => Some(w)
    case Commit(w) => Some(w)
    case Abort(w) => Some(w)
    case Conclude(w, _, _) => Some(w)
    case TouchMessage(w) => Some(w)
    case Finish(w) => Some(w)
    case Crash(w) => Some(w)
    case _ => None
  }

  /** The steps of one worker, in order. */
  function Own(steps: seq<Step>, w: WorkerId): seq<Step> {
    if steps == [] then []
    else (if Actor(steps[0]) == Some(w) then [steps[0]] else []) + Own(steps[1..], w)
  }

  lemma {:induction false} OwnMore(first: seq<Step>, second: seq<Step>, w: WorkerId)
    ensures Own(first + second, w) == Own(first, w) + Own(second, w)
    decreases |first|
  {
    hide *;
    OwnUnfold(first, w);
    OwnUnfold(first + second, w);
    if first == [] {
      assert first + second == second;
    } else {
      assert (first + second)[0] == first[0] && (first + second)[1..] == first[1..] + second;
      OwnMore(first[1..], second, w);
    }
  }

  lemma OwnUnfold(steps: seq<Step>, w: WorkerId)
    ensures steps == [] ==> Own(steps, w) == []
    ensures steps != [] && Actor(steps[0]) == Some(w) ==> Own(steps, w) == [steps[0]] + Own(steps[1..], w)
    ensures steps != [] && Actor(steps[0]) != Some(w) ==> Own(steps, w) == Own(steps[1..], w)
  {
    hide Actor;
  }

  /** What others do when they want to take `steps`: those that are possible, and not the worker's own, are taken. */
  function Taken(s: State, steps: seq<Step>, w: WorkerId, schedule: Schedule): seq<Step>
    decreases |steps|
  {
    if steps == [] then []
    else if Actor(steps[0]) != Some(w) && Enabled(s, steps[0])
    then [steps[0]] + Taken(Apply(s, steps[0], schedule), steps[1..], w, schedule)
    else Taken(s, steps[1..], w, schedule)
  }

  function Interleave(s: State, steps: seq<Step>, w: WorkerId, schedule: Schedule): State
    decreases |steps|
  {
    if steps == [] then s
    else if Actor(steps[0]) != Some(w) && Enabled(s, steps[0])
    then Interleave(Apply(s, steps[0], schedule), steps[1..], w, schedule)
    else Interleave(s, steps[1..], w, schedule)
  }

  /** Others leave a worker's own entry, concluded rows, and the rows it holds alone. */
  lemma {:induction false} InterleaveKeeps(s: State, steps: seq<Step>, w: WorkerId, schedule: Schedule)
    requires Inv(s, schedule)
    ensures var t, trace := Interleave(s, steps, w, schedule), Taken(s, steps, w, schedule);
      && Inv(t, schedule) && Perform(s, trace, schedule) == Some(t) && Own(trace, w) == []
      && (w in s.workers ==> w in t.workers && t.workers[w] == s.workers[w])
      && (forall j :: j in s.jobs && Terminal(s.jobs[j].status) ==> j in t.jobs && t.jobs[j] == s.jobs[j])
      && (steps == [] ==> trace == [])
    decreases |steps|
  {
    hide *;
    InterleaveUnfold(s, steps, w, schedule);
    if steps != [] {
      if Actor(steps[0]) != Some(w) && Enabled(s, steps[0]) {
        var t := Apply(s, steps[0], schedule);
        QueueRuns.InvStep(s, steps[0], schedule);
        OtherWorkersStay(s, steps[0], schedule, w);
        QueueRuns.InvParts(s, schedule);
        QueueInvariant.TerminalKept(s, steps[0], schedule);
        InterleaveKeeps(t, steps[1..], w, schedule);
        var rest := Taken(t, steps[1..], w, schedule);
        PerformOne(s, steps[0], schedule);
        PerformMore(s, [steps[0]], t, rest, schedule);
        OwnMore([steps[0]], rest, w);
        NotOwn(steps[0], w);
        TerminalStays(s, t);
      } else {
        InterleaveKeeps(s, steps[1..], w, schedule);
      }
    }
  }

  lemma TerminalStays(s: State, t: State)
    ensures (forall j :: j in s.jobs && Terminal(s.jobs[j].status) ==> j in t.jobs && t.jobs[j] == s.jobs[j]) ==>
      forall j :: j in s.jobs && Terminal(s.jobs[j].status) ==> j in t.jobs && Terminal(t.jobs[j].status)
  {
    hide Terminal;
  }

  lemma InterleaveUnfold(s: State, steps: seq<Step>, w: WorkerId, schedule: Schedule)
    ensures steps == [] ==>
      && Interleave(s, steps, w, schedule) == s && Taken(s, steps, w, schedule) == []
      && Perform(s, [], schedule) == Some(s)
      && Own([], w) == []
    ensures steps != [] && Actor(steps[0]) != Some(w) && Enabled(s, steps[0]) ==>
      var t := Apply(s, steps[0], schedule);
      && Interleave(s, steps, w, schedule) == Interleave(t, steps[1..], w, schedule)
      && Taken(s, steps, w, schedule) == [steps[0]] + Taken(t, steps[1..], w, schedule)
    ensures steps != [] && !(Actor(steps[0]) != Some(w) && Enabled(s, steps[0])) ==>
      && Interleave(s, steps, w, schedule) == Interleave(s, steps[1..], w, schedule)
      && Taken(s, steps, w, schedule) == Taken(s, steps[1..], w, schedule)
  {
    hide Enabled, Apply, Actor;
  }

  lemma NotOwn(step: Step, w: WorkerId)
    requires Actor(step) != Some(w)
    ensures Own([step], w) == []
  {
    hide Actor;
  }

  lemma OtherWorkersStay(s: State, step: Step, schedule: Schedule, w: WorkerId)
    requires Enabled(s, step) && Actor(step) != Some(w)
    ensures w in s.workers ==>
      w in Apply(s, step, schedule).workers && Apply(s, step, schedule).workers[w] == s.workers[w]
  {
    hide ConcludeJob, ConcludeMessage, ConclusionOf, ClaimAll, CloseRound, OpenRounds, BatchIds, OutboundUntouched,
         AfterConclusion, Bumped;
  }

  lemma {:induction false} OwnIsShorter(steps: seq<Step>, w: WorkerId)
    ensures |Own(steps, w)| <= |steps|
    decreases |steps|
  {
    hide *;
    OwnUnfold(steps, w);
    if steps != [] {
      OwnIsShorter(steps[1..], w);
    }
  }

  /** A worker's own steps, with nobody else's between them, take no time and leave the other workers alone. */
  lemma {:induction false} OwnKeepsOthers(s: State, steps: seq<Step>, w: WorkerId, schedule: Schedule)
    requires w in s.workers && Perform(s, steps, schedule).Some? && Own(steps, w) == steps
    ensures var t := Perform(s, steps, schedule).value;
      && t.now == s.now && t.workers.Keys == s.workers.Keys
      && forall v :: v in s.workers && v != w ==> t.workers[v] == s.workers[v]
    decreases |steps|
  {
    hide *;
    PerformUnfold(s, steps, schedule);
    OwnUnfold(steps, w);
    if steps != [] {
      OwnIsShorter(steps[1..], w);
      assert steps == [steps[0]] + steps[1..];
      OwnStepKeeps(s, steps[0], w, schedule);
      OwnKeepsOthers(Apply(s, steps[0], schedule), steps[1..], w, schedule);
    }
  }

  lemma OwnStepKeeps(s: State, step: Step, w: WorkerId, schedule: Schedule)
    requires Enabled(s, step) && Actor(step) == Some(w) && w in s.workers
    ensures var t := Apply(s, step, schedule);
      && t.now == s.now && t.workers.Keys == s.workers.Keys
      && forall v :: v in s.workers && v != w ==> t.workers[v] == s.workers[v]
  {
    hide ConcludeJob, ConcludeMessage, ConclusionOf, ClaimAll, CloseRound, OpenRounds, BatchIds, OutboundUntouched,
         AfterConclusion, Bumped;
  }
}
