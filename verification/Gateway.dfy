/**
 The whole gateway: the inbound pipeline and the outbound queue over one messages table.
 Each protocol's theorems were proved against an environment that leaves its rows alone;
 here each turns out to be such an environment for the other.
 */
module Gateway {
  import opened Wrappers
  import Jobs
  import Messages
  import Queue
  import QueueRuns
  import Inbound
  import InboundInvariant
  import InboundRuns

  /** No step of the inbound side, downstream consumers included, touches an outbound row. */
  lemma InboundLeavesOutbound(s: Inbound.State, step: Inbound.Step, settings: Inbound.Settings)
    requires InboundInvariant.Inv(s, settings) && Inbound.Enabled(s, step, settings) && !step.OutboundActivity?
    ensures Queue.OutboundUntouched(s.rows, Inbound.Apply(s, step, settings).rows)
  {
    hide InboundInvariant.ProgressInv, InboundInvariant.RowInv, InboundInvariant.RowAgrees,
         InboundInvariant.Moves, Queue.OutboundUntouched;
    InboundRuns.InvParts(s, settings);
    var t := Inbound.Apply(s, step, settings);
    if step.MarkProcessed? {
      assert t.rows == Messages.MarkAll(s.rows, Messages.Eligible(s.rows, step.ids), step.status);
      MarkingLeavesOutbound(s.rows, step.ids, step.status);
    } else {
      InboundInvariant.OwnRowAgrees(s, step, settings, InboundInvariant.Actor(step).value);
      MovesLeaveOutbound(s, t);
    }
  }

  lemma MarkingLeavesOutbound(rows: Messages.Table, ids: seq<Messages.MessageId>, status: Messages.Status)
    requires Inbound.OutboundNeverAccepted(rows)
    ensures Queue.OutboundUntouched(rows, Messages.MarkAll(rows, Messages.Eligible(rows, ids), status))
  {
  }

  lemma MovesLeaveOutbound(s: Inbound.State, t: Inbound.State)
    requires InboundInvariant.Moves(s, t)
    ensures Queue.OutboundUntouched(s.rows, t.rows)
  {
    hide Messages.Conflicts;
    if m :| InboundInvariant.InsertsRow(s, t, m) {
    } else if m :| InboundInvariant.Restates(s.rows, t.rows, m) {
    }
  }

  /** No step of the outbound side touches an inbound row, breaks a unique key or accepts a message. */
  lemma QueueLeavesInbound(s: Queue.State, step: Queue.Step, schedule: Queue.Schedule)
    requires Queue.Inv(s, schedule) && Queue.Enabled(s, step) && !step.InboundActivity?
    requires Messages.KeysUnique(s.messages)
    ensures var t := Queue.Apply(s, step, schedule);
      && Inbound.InboundUntouched(s.messages, t.messages)
      && Messages.KeysUnique(t.messages) && Inbound.OutboundNeverAccepted(t.messages)
  {
    var t := Queue.Apply(s, step, schedule);
    QueueRuns.InvStep(s, step, schedule);
    OutboundStatuses(t, schedule);
    QueueMoves(s, step, schedule);
    hide Queue.Apply, Queue.Enabled, Queue.Inv;
  }

  lemma OutboundStatuses(s: Queue.State, schedule: Queue.Schedule)
    requires Queue.Inv(s, schedule)
    ensures Inbound.OutboundNeverAccepted(s.messages)
  {
    QueueRuns.InvParts(s, schedule);
    hide Queue.Inv, Queue.HoldingInv, Queue.BoundsInv, Queue.TouchInv, Queue.HistoryInv, Queue.Touched;
    forall m | m in s.messages && s.messages[m].direction == Messages.Outbound
      ensures s.messages[m].status != Messages.Accepted
    {
      if s.messages[m].status != Messages.Queued {
        var j :| j in s.jobs && s.jobs[j].messageId == Some(m);
        assert Queue.Linked(s, j, m);
      }
    }
  }

  lemma QueueMoves(s: Queue.State, step: Queue.Step, schedule: Queue.Schedule)
    requires Queue.Inv(s, schedule) && Queue.Enabled(s, step) && !step.InboundActivity?
    requires Messages.KeysUnique(s.messages)
    ensures var t := Queue.Apply(s, step, schedule);
      Inbound.InboundUntouched(s.messages, t.messages) && Messages.KeysUnique(t.messages)
  {
    hide *;
    if step.EnqueueMessage? {
      EnqueueIs(s, step, schedule);
      InboundInvariant.InsertKeepsKeys(s.messages, step.m, Queue.OrderRow(step.order));
      NewOutbound(s.messages, step.m, step.order);
    } else if step.TouchMessage? {
      TouchIs(s, step, schedule);
      TouchesOutbound(s, step.w, schedule);
      ConcludeKeepsKeys(s.messages, s.workers[step.w].mode.message, s.workers[step.w].mode.conclusion);
    } else {
      OtherwiseIs(s, step, schedule);
      SameUntouched(s.messages);
    }
  }

  lemma EnqueueIs(s: Queue.State, step: Queue.Step, schedule: Queue.Schedule)
    requires Queue.Enabled(s, step) && step.EnqueueMessage?
    ensures step.m !in s.messages && !Messages.Conflicts(s.messages, Queue.OrderRow(step.order))
    ensures Queue.Apply(s, step, schedule).messages == s.messages[step.m := Queue.OrderRow(step.order)]
  {
    hide Messages.Conflicts, Queue.OrderRow;
  }

  lemma NewOutbound(rows: Messages.Table, m: Messages.MessageId, order: Queue.Order)
    requires m !in rows
    ensures Inbound.InboundUntouched(rows, rows[m := Queue.OrderRow(order)])
  {
  }

  lemma TouchIs(s: Queue.State, step: Queue.Step, schedule: Queue.Schedule)
    requires Queue.Enabled(s, step) && step.TouchMessage?
    ensures step.w in s.workers && s.workers[step.w].mode.Touching?
    ensures var mode := s.workers[step.w].mode;
      Queue.Apply(s, step, schedule).messages == Jobs.ConcludeMessage(s.messages, mode.message, mode.conclusion)
  {
    hide Jobs.ConcludeMessage;
  }

  lemma OtherwiseIs(s: Queue.State, step: Queue.Step, schedule: Queue.Schedule)
    requires Queue.Enabled(s, step) && !step.EnqueueMessage? && !step.TouchMessage? && !step.InboundActivity?
    ensures Queue.Apply(s, step, schedule).messages == s.messages
  {
    hide Queue.ConclusionOf, Queue.CloseRound, Queue.OpenRounds;
  }

  lemma SameUntouched(rows: Messages.Table)
    ensures Inbound.InboundUntouched(rows, rows)
  {
  }

  lemma TouchesOutbound(s: Queue.State, w: Queue.WorkerId, schedule: Queue.Schedule)
    requires Queue.Inv(s, schedule) && w in s.workers && s.workers[w].mode.Touching?
    ensures var m := s.workers[w].mode.message; m in s.messages && s.messages[m].direction == Messages.Outbound
  {
    QueueRuns.InvParts(s, schedule);
    var j := s.workers[w].mode.job;
    assert Queue.Linked(s, j, s.jobs[j].messageId.value);
  }

  lemma ConcludeKeepsKeys(rows: Messages.Table, m: Messages.MessageId, c: Jobs.Conclusion)
    requires Messages.KeysUnique(rows) && m in rows && rows[m].direction == Messages.Outbound
    ensures var rows' := Jobs.ConcludeMessage(rows, m, c);
      Messages.KeysUnique(rows') && Inbound.InboundUntouched(rows, rows')
  {
    var rows' := Jobs.ConcludeMessage(rows, m, c);
    forall a, b | a in rows' && b in rows' && a != b ensures !Messages.SameKey(rows'[a], rows'[b]) {
      assert !Messages.SameKey(rows[a], rows[b]);
    }
  }

  // ------------------------------------------------------------------
  // Both at once
  // ------------------------------------------------------------------

  datatype State = State(queue: Queue.State, inbound: Inbound.State)

  datatype Step = Outward(out: Queue.Step) | Inward(into: Inbound.Step)

  datatype Config = Config(schedule: Queue.Schedule, settings: Inbound.Settings)

  predicate Enabled(s: State, step: Step, config: Config) {
    match step
    case Outward(out) => !out.InboundActivity? && Queue.Enabled(s.queue, out)
    case Inward(into) => !into.OutboundActivity? && Inbound.Enabled(s.inbound, into, config.settings)
  }

  /** One side moves; the other sees the new table. */
  function Apply(s: State, step: Step, config: Config): State
    requires Enabled(s, step, config)
  {
    match step
    case Outward(out) =>
      var queue := Queue.Apply(s.queue, out, config.schedule);
      State(queue, s.inbound.(rows := queue.messages))
    case Inward(into) =>
      var inbound := Inbound.Apply(s.inbound, into, config.settings);
      State(s.queue.(messages := inbound.rows), inbound)
  }

  predicate Init(s: State) {
    Queue.Init(s.queue) && Inbound.Init(s.inbound) && s.queue.messages == s.inbound.rows
  }

  ghost predicate Run(states: seq<State>, steps: seq<Step>, config: Config) {
    && |states| == |steps| + 1
    && Init(states[0])
    && forall i :: 0 <= i < |steps| ==>
       Enabled(states[i], steps[i], config) && states[i + 1] == Apply(states[i], steps[i], config)
  }

  /** A step as each side sees it. */
  function QueueView(step: Step, after: State): Queue.Step {
    match step
    case Outward(out) => out
    case Inward(_) => Queue.InboundActivity(after.inbound.rows)
  }

  function InboundView(step: Step, after: State): Inbound.Step {
    match step
    case Outward(_) => Inbound.OutboundActivity(after.queue.messages)
    case Inward(into) => into
  }

  ghost predicate Inv(s: State, config: Config) {
    && s.queue.messages == s.inbound.rows
    && Queue.Inv(s.queue, config.schedule) && InboundInvariant.Inv(s.inbound, config.settings)
  }

  /** A step and its two views: each is a step of its protocol, and both invariants hold afterwards. */
  ghost predicate Viewed(s: State, step: Step, t: State, config: Config) {
    && Queue.Enabled(s.queue, QueueView(step, t))
    && t.queue == Queue.Apply(s.queue, QueueView(step, t), config.schedule)
    && Inbound.Enabled(s.inbound, InboundView(step, t), config.settings)
    && t.inbound == Inbound.Apply(s.inbound, InboundView(step, t), config.settings)
    && t.queue.messages == t.inbound.rows
  }

  lemma OutwardViewed(s: State, out: Queue.Step, config: Config)
    requires Inv(s, config) && Enabled(s, Outward(out), config)
    ensures Viewed(s, Outward(out), Apply(s, Outward(out), config), config)
  {
    hide *;
    OutwardIs(s, out, config);
    InvIs(s, config);
    KeysAreUnique(s, config);
    QueueLeavesInbound(s.queue, out, config.schedule);
    var t := Apply(s, Outward(out), config);
    ActivityIs(s.inbound, t.queue.messages, config.settings);
    ViewedIs(s, Outward(out), t, config);
    ViewsAre(Outward(out), t);
  }

  lemma InwardViewed(s: State, into: Inbound.Step, config: Config)
    requires Inv(s, config) && Enabled(s, Inward(into), config)
    ensures Viewed(s, Inward(into), Apply(s, Inward(into), config), config)
  {
    hide *;
    InwardIs(s, into, config);
    InvIs(s, config);
    InboundLeavesOutbound(s.inbound, into, config.settings);
    var t := Apply(s, Inward(into), config);
    InboundActivityIs(s.queue, t.inbound.rows, config.schedule);
    ViewedIs(s, Inward(into), t, config);
    ViewsAre(Inward(into), t);
  }

  lemma OutwardIs(s: State, out: Queue.Step, config: Config)
    requires Enabled(s, Outward(out), config)
    ensures !out.InboundActivity? && Queue.Enabled(s.queue, out)
    ensures var queue := Queue.Apply(s.queue, out, config.schedule);
      Apply(s, Outward(out), config) == State(queue, s.inbound.(rows := queue.messages))
  {
    hide Queue.Enabled, Queue.Apply;
  }

  lemma InwardIs(s: State, into: Inbound.Step, config: Config)
    requires Enabled(s, Inward(into), config)
    ensures !into.OutboundActivity? && Inbound.Enabled(s.inbound, into, config.settings)
    ensures var inbound := Inbound.Apply(s.inbound, into, config.settings);
      Apply(s, Inward(into), config) == State(s.queue.(messages := inbound.rows), inbound)
  {
    hide Inbound.Enabled, Inbound.Apply;
  }

  lemma InvIs(s: State, config: Config)
    ensures Inv(s, config) <==>
      && s.queue.messages == s.inbound.rows
      && Queue.Inv(s.queue, config.schedule) && InboundInvariant.Inv(s.inbound, config.settings)
  {
    hide Queue.Inv, InboundInvariant.Inv;
  }

  lemma ActivityIs(s: Inbound.State, rows: Messages.Table, settings: Inbound.Settings)
    requires Inbound.InboundUntouched(s.rows, rows) && Messages.KeysUnique(rows) && Inbound.OutboundNeverAccepted(rows)
    ensures Inbound.Enabled(s, Inbound.OutboundActivity(rows), settings)
    ensures Inbound.Apply(s, Inbound.OutboundActivity(rows), settings) == s.(rows := rows)
  {
    hide Inbound.InboundUntouched, Messages.KeysUnique, Inbound.OutboundNeverAccepted;
  }

  lemma InboundActivityIs(s: Queue.State, rows: Messages.Table, schedule: Queue.Schedule)
    requires Queue.OutboundUntouched(s.messages, rows)
    ensures Queue.Enabled(s, Queue.InboundActivity(rows))
    ensures Queue.Apply(s, Queue.InboundActivity(rows), schedule) == s.(messages := rows)
  {
    hide Queue.OutboundUntouched;
  }

  lemma ViewedIs(s: State, step: Step, t: State, config: Config)
    ensures Viewed(s, step, t, config) <==>
      && Queue.Enabled(s.queue, QueueView(step, t))
      && t.queue == Queue.Apply(s.queue, QueueView(step, t), config.schedule)
      && Inbound.Enabled(s.inbound, InboundView(step, t), config.settings)
      && t.inbound == Inbound.Apply(s.inbound, InboundView(step, t), config.settings)
      && t.queue.messages == t.inbound.rows
  {
    hide Queue.Enabled, Queue.Apply, Inbound.Enabled, Inbound.Apply, QueueView, InboundView;
  }

  lemma ViewsAre(step: Step, t: State)
    ensures step.Outward? ==>
      QueueView(step, t) == step.out && InboundView(step, t) == Inbound.OutboundActivity(t.queue.messages)
    ensures step.Inward? ==>
      QueueView(step, t) == Queue.InboundActivity(t.inbound.rows) && InboundView(step, t) == step.into
  {
  }

  lemma KeysAreUnique(s: State, config: Config)
    requires Inv(s, config)
    ensures Messages.KeysUnique(s.queue.messages)
  {
    InboundRuns.InvParts(s.inbound, config.settings);
  }

  lemma StepViews(s: State, step: Step, config: Config)
    requires Inv(s, config) && Enabled(s, step, config)
    ensures Viewed(s, step, Apply(s, step, config), config) && Inv(Apply(s, step, config), config)
  {
    hide *;
    var t := Apply(s, step, config);
    match step {
      case Outward(out) => OutwardViewed(s, out, config);
      case Inward(into) => InwardViewed(s, into, config);
    }
    ViewedIs(s, step, t, config);
    InvIs(s, config);
    InvIs(t, config);
    QueueRuns.InvStep(s.queue, QueueView(step, t), config.schedule);
    InboundRuns.InvStep(s.inbound, InboundView(step, t), config.settings);
  }

  function QueueStates(states: seq<State>): seq<Queue.State> {
    seq(|states|, i requires 0 <= i < |states| => states[i].queue)
  }

  function InboundStates(states: seq<State>): seq<Inbound.State> {
    seq(|states|, i requires 0 <= i < |states| => states[i].inbound)
  }

  function QueueSteps(states: seq<State>, steps: seq<Step>): seq<Queue.Step>
    requires |states| == |steps| + 1
  {
    seq(|steps|, i requires 0 <= i < |steps| => QueueView(steps[i], states[i + 1]))
  }

  function InboundSteps(states: seq<State>, steps: seq<Step>): seq<Inbound.Step>
    requires |states| == |steps| + 1
  {
    seq(|steps|, i requires 0 <= i < |steps| => InboundView(steps[i], states[i + 1]))
  }

  lemma {:induction false} Invariant(states: seq<State>, steps: seq<Step>, config: Config, k: nat)
    requires Run(states, steps, config) && k < |states|
    ensures Inv(states[k], config)
  {
    hide *;
    RunStart(states, steps, config);
    if k == 0 {
      InvIs(states[0], config);
      QueueRuns.InvInit(states[0].queue, config.schedule);
      InboundRuns.InvInit(states[0].inbound, config.settings);
    } else {
      RunStep(states, steps, config, k - 1);
      Invariant(states, steps, config, k - 1);
      StepViews(states[k - 1], steps[k - 1], config);
    }
  }

  lemma RunStart(states: seq<State>, steps: seq<Step>, config: Config)
    requires Run(states, steps, config)
    ensures |states| == |steps| + 1 && Queue.Init(states[0].queue) && Inbound.Init(states[0].inbound)
    ensures states[0].queue.messages == states[0].inbound.rows
  {
    hide Enabled, Apply, Queue.Init, Inbound.Init;
  }

  lemma RunStep(states: seq<State>, steps: seq<Step>, config: Config, i: nat)
    requires Run(states, steps, config) && i < |steps|
    ensures |states| == |steps| + 1 && Enabled(states[i], steps[i], config)
    ensures states[i + 1] == Apply(states[i], steps[i], config)
  {
    hide Enabled, Apply, Init;
  }

  /**
   Every run of the whole gateway is a run of each protocol: all that was proved of either
   holds of the two together.
   */
  lemma RunsProject(states: seq<State>, steps: seq<Step>, config: Config)
    requires Run(states, steps, config)
    ensures Queue.Run(QueueStates(states), QueueSteps(states, steps), config.schedule)
    ensures Inbound.Run(InboundStates(states), InboundSteps(states, steps), config.settings)
  {
    RunStart(states, steps, config);
    hide Apply, Enabled, Init, Inv, Queue.Init, Inbound.Init, Queue.Apply, Queue.Enabled, Inbound.Apply,
         Inbound.Enabled,
      QueueView, InboundView, Viewed;
    forall i | 0 <= i < |steps|
      ensures Queue.Enabled(states[i].queue, QueueView(steps[i], states[i + 1]))
        && states[i + 1].queue == Queue.Apply(states[i].queue, QueueView(steps[i], states[i + 1]), config.schedule)
      ensures Inbound.Enabled(states[i].inbound, InboundView(steps[i], states[i + 1]), config.settings)
        && var view := InboundView(steps[i], states[i + 1]);
           states[i + 1].inbound == Inbound.Apply(states[i].inbound, view, config.settings)
    {
      RunStep(states, steps, config, i);
      Invariant(states, steps, config, i);
      StepViews(states[i], steps[i], config);
      ViewedIs(states[i], steps[i], states[i + 1], config);
    }
  }
}
