/** What holds over whole runs of the inbound pipeline. */
module InboundRuns {
  import opened Wrappers
  import opened Bytes
  import opened Messages
  import opened ErrorCodes
  import opened Sinks
  import opened Inbound
  import opened InboundInvariant

  // ------------------------------------------------------------------
  // The invariant holds in every reachable state
  // ------------------------------------------------------------------

  lemma InvParts(s: State, settings: Settings)
    ensures Inv(s, settings) <==>
      ProgressInv(s, settings) && RowInv(s) && OwnerInv(s) && NumberInv(s) && TableInv(s) && LogInv(s)
  {
  }

  lemma InvInit(s: State, settings: Settings)
    requires Init(s)
    ensures Inv(s, settings)
  {
  }

  lemma InvStep(s: State, step: Step, settings: Settings)
    requires Inv(s, settings) && Enabled(s, step, settings)
    ensures Inv(Apply(s, step, settings), settings)
  {
    InvParts(s, settings);
    InvParts(Apply(s, step, settings), settings);
    hide *;
    ProgressStep(s, step, settings);
    RowStep(s, step, settings);
    OwnerStep(s, step, settings);
    NumberStep(s, step, settings);
    TableStep(s, step, settings);
    LogStep(s, step, settings);
  }

  lemma RunStart(states: seq<State>, steps: seq<Step>, settings: Settings)
    requires Run(states, steps, settings)
    ensures |states| == |steps| + 1 && Init(states[0])
  {
    hide Enabled, Apply, Init;
  }

  lemma RunStep(states: seq<State>, steps: seq<Step>, settings: Settings, i: nat)
    requires Run(states, steps, settings) && i < |steps|
    ensures |states| == |steps| + 1 && Enabled(states[i], steps[i], settings)
    ensures states[i + 1] == Apply(states[i], steps[i], settings)
  {
    hide Apply, Enabled, Init;
  }

  lemma {:induction false} Invariant(states: seq<State>, steps: seq<Step>, settings: Settings, k: nat)
    requires Run(states, steps, settings) && k < |states|
    ensures Inv(states[k], settings)
  {
    hide *;
    RunStart(states, steps, settings);
    if k == 0 {
      InvInit(states[0], settings);
    } else {
      RunStep(states, steps, settings, k - 1);
      Invariant(states, steps, settings, k - 1);
      InvStep(states[k - 1], steps[k - 1], settings);
    }
  }

  /** What is known about a request stays known. */
  lemma {:induction false} KnownForGood(
    states: seq<State>, steps: seq<Step>, settings: Settings, i: nat, k: nat, r: RequestId)
    requires Run(states, steps, settings) && i <= k < |states| && r in states[i].requests
    ensures r in states[k].requests
    ensures states[k].requests[r].request == states[i].requests[r].request
    ensures states[i].requests[r].transId.Some? ==> states[k].requests[r].transId == states[i].requests[r].transId
    ensures states[i].requests[r].decision.Some? ==> states[k].requests[r].decision == states[i].requests[r].decision
  {
    hide *;
    RunStart(states, steps, settings);
    if i < k {
      KnownForGood(states, steps, settings, i, k - 1, r);
      RunStep(states, steps, settings, k - 1);
      Invariant(states, steps, settings, k - 1);
      InvParts(states[k - 1], settings);
      KnownStays(states[k - 1], steps[k - 1], settings, r);
    }
  }

  // ------------------------------------------------------------------
  // Receipts and rows agree
  // ------------------------------------------------------------------

  /**
   A request that inserted a row and has been answered finds in that row what its receipt
   says. A rejection's code is the row's error code, with status rejected. After an ok
   receipt the row is accepted or a downstream consumer has been told it moved it on; the
   message was decrypted, its signature matched or was not required, its algorithms were
   allowed, and when the rule is on the durability test passed, which means, unless a
   durable sink shares its name with a later one, that some durable sink stored it or none
   is configured.
   */
  predicate Agrees(s: State, l: Local, rows: Table, settings: Settings) {
    l.pc.Answered? && HasRow(l) ==>
      var m, q := l.decision.value.m, l.request;
      && m in rows && q.form.Parsed?
      && rows[m].direction == Messages.Inbound && rows[m].partner == q.partner.name && rows[m].transId == l.transId
      && rows[m].digest == q.form.digest && rows[m].refnum == q.form.fields.refnum
      && rows[m].fromId == q.partner.duns && rows[m].toId == settings.duns
      && match l.pc.answer
         case Nack(code) => rows[m].status == Rejected && rows[m].errorCode == Some(Value(code))
         case Ack =>
           && (rows[m].status == Accepted || (m in s.handed && !Reserved(rows[m].status)))
           && rows[m].errorCode == None
           && l.decryption.Some? && l.decryption.value.Decrypted? && !l.decryption.value.weak
           && (l.decryption.value.signatureOk || !q.partner.requireSignature)
           && rows[m].receiptVerified == Some(l.decryption.value.signatureOk)
           && l.deliveries.Some? && |l.deliveries.value| == |settings.sinks|
           && (settings.requireDurable ==>
                 HasDurableSuccess(settings.sinks, FanOut(settings.sinks, l.deliveries.value)))
           && (settings.requireDurable && DurablesLast(settings.sinks) ==>
                 DurablyStored(settings.sinks, l.deliveries.value))
  }

  lemma AnswerAgrees(s: State, settings: Settings, r: RequestId)
    requires Inv(s, settings) && r in s.requests
    ensures Agrees(s, s.requests[r], s.rows, settings)
  {
    var l := s.requests[r];
    InvParts(s, settings);
    assert Progress(l, settings) && RowAgrees(l, s.rows, s.handed);
    hide Inv, ProgressInv, RowInv, OwnerInv, NumberInv, TableInv, LogInv, HasDurableSuccess, FanOut,
         DurablyStored, DurablesLast, Find, Lower;
    if l.pc.Answered? && HasRow(l) && l.pc.answer.Ack? && DurablesLast(settings.sinks) {
      RightWhenDurablesLast(settings.sinks, l.deliveries.value);
    }
  }

  lemma KeysAreUnique(s: State, settings: Settings)
    requires Inv(s, settings)
    ensures KeysUnique(s.rows)
  {
  }

  /** In every reachable state, whatever calls have raised or crashed on the way, receipts and rows agree. */
  lemma ReceiptAgreesWithRow(states: seq<State>, steps: seq<Step>, settings: Settings, k: nat, r: RequestId)
    requires Run(states, steps, settings) && k < |states| && r in states[k].requests
    ensures Agrees(states[k], states[k].requests[r], states[k].rows, settings)
  {
    hide Inv, Agrees;
    Invariant(states, steps, settings, k);
    AnswerAgrees(states[k], settings, r);
  }

  /** An answered request no longer has a row in processing: such rows belong to requests under way or given up. */
  lemma AnsweredRowsAreSettled(states: seq<State>, steps: seq<Step>, settings: Settings, k: nat, r: RequestId)
    requires Run(states, steps, settings) && k < |states| && r in states[k].requests
    requires states[k].requests[r].pc.Answered? && HasRow(states[k].requests[r])
    ensures var m := states[k].requests[r].decision.value.m;
      m in states[k].rows && states[k].rows[m].status != Processing
  {
    Invariant(states, steps, settings, k);
    InvParts(states[k], settings);
    var s, l := states[k], states[k].requests[r];
    assert Progress(l, settings) && RowAgrees(l, s.rows, s.handed);
  }

  // ------------------------------------------------------------------
  // Find-then-insert is an atomic insert-if-absent
  // ------------------------------------------------------------------

  /** What the uniqueness constraints look at. */
  datatype Key = Key(partner: Bytes, digest: Bytes, refnum: Option<Bytes>)

  function KeyOf(q: Request): Key
    requires q.form.Parsed?
  {
    Key(q.partner.name, q.form.digest, q.form.fields.refnum)
  }

  function RowKey(row: Row): Key {
    Key(row.partner, row.digest, row.refnum)
  }

  /** The inbound rows, reduced to their keys. */
  function Keys(rows: Table): map<MessageId, Key> {
    map m | m in rows && rows[m].direction == Messages.Inbound :: RowKey(rows[m])
  }

  predicate Clash(a: Key, b: Key) {
    a.partner == b.partner && (a.digest == b.digest || (a.refnum.Some? && a.refnum == b.refnum))
  }

  predicate Taken(keys: map<MessageId, Key>, key: Key) {
    exists m :: m in keys && Clash(keys[m], key)
  }

  /** The reference: one atomic step that inserts a request's key unless an inbound row has it, and says which. */
  predicate Atomic(keys: map<MessageId, Key>, e: Entry) {
    && e.request.form.Parsed?
    && if Taken(keys, KeyOf(e.request)) then e.decision == Duplicate(DuplicateCode(e.request))
       else e.decision.Inserted? && e.decision.m !in keys
  }

  function After(keys: map<MessageId, Key>, e: Entry): map<MessageId, Key> {
    if e.decision.Inserted? && e.request.form.Parsed? then keys[e.decision.m := KeyOf(e.request)] else keys
  }

  function Replay(keys: map<MessageId, Key>, log: seq<Entry>): map<MessageId, Key> {
    if log == [] then keys else After(Replay(keys, log[..|log| - 1]), log[|log| - 1])
  }

  /** Every decision on the log is the one the reference takes after those before it. */
  ghost predicate Explains(keys: map<MessageId, Key>, log: seq<Entry>) {
    forall i :: 0 <= i < |log| ==> Atomic(Replay(keys, log[..i]), log[i])
  }

  lemma ConflictIsTaken(rows: Table, q: Request, transId: Option<nat>)
    requires q.form.Parsed?
    ensures Conflicts(rows, Record(q, transId)) <==> Taken(Keys(rows), KeyOf(q))
    ensures Finds(rows, q) ==> Taken(Keys(rows), KeyOf(q))
  {
    var record := Record(q, transId);
    if Conflicts(rows, record) {
      var m :| m in rows && SameKey(rows[m], record);
      assert m in Keys(rows) && Clash(Keys(rows)[m], KeyOf(q));
    }
    if Taken(Keys(rows), KeyOf(q)) {
      var m :| m in Keys(rows) && Clash(Keys(rows)[m], KeyOf(q));
      assert SameKey(rows[m], record);
    }
    if Finds(rows, q) {
      var m :| m in rows && rows[m].partner == q.partner.name && rows[m].direction == Messages.Inbound
        && if ByRefnum(q) then rows[m].refnum == q.form.fields.refnum else rows[m].digest == q.form.digest;
      assert m in Keys(rows) && Clash(Keys(rows)[m], KeyOf(q));
    }
  }

  /** The search never misleads: what it finds is a conflict, and what it misses the insert still catches. */
  lemma SearchDecides(s: State, r: RequestId)
    requires r in s.requests && s.requests[r].request.form.Parsed?
    ensures var t := Searched(s, r);
      && t.rows == s.rows
      && (t.log != s.log ==>
            && |t.log| == |s.log| + 1 && t.log == s.log + [t.log[|s.log|]] && t.log[|s.log|].r == r
            && Atomic(Keys(s.rows), t.log[|s.log|]) && t.log[|s.log|].decision.Duplicate?)
  {
    ConflictIsTaken(s.rows, s.requests[r].request, None);
    hide Conflicts, Finds, Taken, Keys;
  }

  lemma InsertDecides(s: State, r: RequestId, m: MessageId, pc: Pc)
    requires r in s.requests && s.requests[r].request.form.Parsed? && m !in s.rows
    ensures var t := TryInsert(s, r, m, pc);
      && |t.log| == |s.log| + 1 && t.log == s.log + [t.log[|s.log|]] && t.log[|s.log|].r == r
      && Atomic(Keys(s.rows), t.log[|s.log|])
      && Keys(t.rows) == After(Keys(s.rows), t.log[|s.log|])
  {
    var q := s.requests[r].request;
    ConflictIsTaken(s.rows, q, s.requests[r].transId);
    hide Conflicts, Taken;
    var t := TryInsert(s, r, m, pc);
    assert m !in Keys(s.rows);
    if !Conflicts(s.rows, Record(q, s.requests[r].transId)) {
      assert Keys(t.rows) == Keys(s.rows)[m := KeyOf(q)];
    }
  }

  /** Every other step leaves the keys and the log alone. */
  predicate Decides(s: State, step: Step)
  {
    step.Search? || step.Insert? || (step.Raise? && step.applied && At(s, step.r, Inserting))
  }

  lemma UndecidedKeys(s: State, step: Step, settings: Settings)
    requires Inv(s, settings) && Enabled(s, step, settings) && !Decides(s, step)
    ensures Apply(s, step, settings).log == s.log && Keys(Apply(s, step, settings).rows) == Keys(s.rows)
  {
    hide *;
    InvParts(s, settings);
    var t := Apply(s, step, settings);
    ActorIs(step);
    if step.MarkProcessed? {
      MarkedRows(s, step, settings);
      MarkingKeepsKeys(s.rows, Eligible(s.rows, step.ids), step.status);
    } else if step.OutboundActivity? {
      OutboundRows(s, step, settings);
      UntouchedKeepsKeys(s.rows, step.rows);
    } else {
      OwnRowAgrees(s, step, settings, Actor(step).value);
      NoInsert(s, step, settings);
      MovesIs(s, t);
      if t.rows != s.rows {
        var m :| Restates(s.rows, t.rows, m);
        RestatingKeepsRowKeys(s.rows, t.rows, m);
      }
    }
  }

  lemma ActorIs(step: Step)
    ensures Actor(step).None? <==> step.MarkProcessed? || step.OutboundActivity?
  {
  }

  lemma MovesIs(s: State, t: State)
    ensures Moves(s, t) <==>
      t.rows == s.rows || (exists m :: InsertsRow(s, t, m)) || (exists m :: Restates(s.rows, t.rows, m))
  {
    hide InsertsRow, Restates;
  }

  lemma MarkedRows(s: State, step: Step, settings: Settings)
    requires Enabled(s, step, settings) && step.MarkProcessed?
    ensures Apply(s, step, settings).rows == MarkAll(s.rows, Eligible(s.rows, step.ids), step.status)
    ensures Apply(s, step, settings).handed == s.handed + Eligible(s.rows, step.ids)
    ensures Apply(s, step, settings).log == s.log && !Reserved(step.status)
  {
    hide MarkAll, Eligible;
  }

  lemma OutboundRows(s: State, step: Step, settings: Settings)
    requires Enabled(s, step, settings) && step.OutboundActivity?
    ensures Apply(s, step, settings).rows == step.rows && InboundUntouched(s.rows, step.rows)
    ensures Apply(s, step, settings).log == s.log
  {
    hide InboundUntouched, KeysUnique;
  }

  lemma MarkingKeepsKeys(rows: Table, ids: set<MessageId>, status: Status)
    ensures Keys(MarkAll(rows, ids, status)) == Keys(rows)
  {
  }

  lemma UntouchedKeepsKeys(rows: Table, rows': Table)
    requires InboundUntouched(rows, rows')
    ensures Keys(rows') == Keys(rows)
  {
  }

  lemma RestatingKeepsRowKeys(rows: Table, rows': Table, m: MessageId)
    requires Restates(rows, rows', m)
    ensures Keys(rows') == Keys(rows)
  {
  }

  lemma NoInsert(s: State, step: Step, settings: Settings)
    requires ProgressInv(s, settings) && RowInv(s) && Enabled(s, step, settings) && !Decides(s, step)
    requires Actor(step).Some?
    ensures var t := Apply(s, step, settings); t.log == s.log && forall m :: !InsertsRow(s, t, m)
  {
    var r := Actor(step).value;
    if r in s.requests {
      assert Progress(s.requests[r], settings) && RowAgrees(s.requests[r], s.rows, s.handed);
    }
    hide Conflicts, Finds, Record, SameIdentity, KeysUnique, DurableEnough, Objection, Refusal, Fits, Shows;
  }

  lemma DecidingKeys(s: State, step: Step, settings: Settings)
    requires Inv(s, settings) && Enabled(s, step, settings) && Decides(s, step)
    ensures var t := Apply(s, step, settings);
      if t.log == s.log then Keys(t.rows) == Keys(s.rows) else
        && |t.log| == |s.log| + 1 && t.log == s.log + [t.log[|s.log|]] && Actor(step) == Some(t.log[|s.log|].r)
        && Atomic(Keys(s.rows), t.log[|s.log|]) && Keys(t.rows) == After(Keys(s.rows), t.log[|s.log|])
  {
    InvParts(s, settings);
    var r := Actor(step).value;
    assert Progress(s.requests[r], settings);
    hide Inv, ProgressInv, RowInv, OwnerInv, NumberInv, TableInv, LogInv, Conflicts, Finds, Keys, Taken,
         Record, Objection;
    match step
    case Search(_) => SearchDecides(s, r);
    case Insert(_, m) => InsertDecides(s, r, m, Decrypting);
    case Raise(_, _, m, _) => InsertDecides(s, r, m, Gone);
  }

  /**
   Over any interleaving: replaying the decisions one at a time, each as an atomic
   insert-if-absent, gives every racing request the decision it got and ends with the
   inbound keys of the table.
   */
  lemma {:induction false} Linearizable(states: seq<State>, steps: seq<Step>, settings: Settings, k: nat)
    requires Run(states, steps, settings) && k < |states|
    ensures Explains(Keys(states[0].rows), states[k].log)
    ensures Replay(Keys(states[0].rows), states[k].log) == Keys(states[k].rows)
  {
    hide *;
    RunStart(states, steps, settings);
    if k == 0 {
      NothingToExplain(states[0]);
    } else {
      Linearizable(states, steps, settings, k - 1);
      Invariant(states, steps, settings, k - 1);
      RunStep(states, steps, settings, k - 1);
      var s, step := states[k - 1], steps[k - 1];
      var t := states[k];
      if Decides(s, step) {
        DecidingKeys(s, step, settings);
      } else {
        UndecidedKeys(s, step, settings);
      }
      var start := Keys(states[0].rows);
      if t.log != s.log {
        ExplainsOneMore(start, s.log, t.log[|s.log|]);
      }
    }
  }

  lemma NothingToExplain(s: State)
    requires Init(s)
    ensures Explains(Keys(s.rows), s.log) && Replay(Keys(s.rows), s.log) == Keys(s.rows)
  {
  }

  lemma ExplainsOneMore(keys: map<MessageId, Key>, log: seq<Entry>, e: Entry)
    requires Explains(keys, log) && Atomic(Replay(keys, log), e)
    ensures Explains(keys, log + [e]) && Replay(keys, log + [e]) == After(Replay(keys, log), e)
  {
    hide Atomic, After;
    var longer := log + [e];
    assert longer[..|log|] == log;
    forall i | 0 <= i < |longer| ensures Atomic(Replay(keys, longer[..i]), longer[i]) {
      if i < |log| {
        assert longer[..i] == log[..i];
      }
    }
  }

  /**
   The moment of decision: a request's decision is taken by one of its own steps, and it is
   a duplicate exactly when at that moment the table holds an inbound row of its partner
   with the same digest or the same refnum, if it has one.
   */
  lemma {:induction false} DecisionPoint(states: seq<State>, steps: seq<Step>, settings: Settings, k: nat, r: RequestId)
    returns (n: nat)
    requires Run(states, steps, settings) && k < |states|
    requires r in states[k].requests && states[k].requests[r].decision.Some?
    ensures n < k && Actor(steps[n]) == Some(r) && r in states[n].requests && states[n].requests[r].decision.None?
    ensures states[k].requests[r].request.form.Parsed?
    ensures states[k].requests[r].decision.value.Duplicate? <==>
      Taken(Keys(states[n].rows), KeyOf(states[k].requests[r].request))
  {
    hide *;
    NoRequestsAtFirst(states, steps, settings);
    RunStart(states, steps, settings);
    var s, step := states[k - 1], steps[k - 1];
    Invariant(states, steps, settings, k - 1);
    RunStep(states, steps, settings, k - 1);
    if r in s.requests && s.requests[r].decision.Some? {
      KnownForGood(states, steps, settings, k - 1, k, r);
      n := DecisionPoint(states, steps, settings, k - 1, r);
    } else {
      n := k - 1;
      NewDecision(s, step, settings, r);
    }
  }

  lemma NoRequestsAtFirst(states: seq<State>, steps: seq<Step>, settings: Settings)
    requires Run(states, steps, settings)
    ensures |states| > 0 && states[0].requests == map[]
  {
    hide Apply, Enabled;
  }

  lemma NewDecision(s: State, step: Step, settings: Settings, r: RequestId)
    requires Inv(s, settings) && Enabled(s, step, settings)
    requires r in Apply(s, step, settings).requests && Apply(s, step, settings).requests[r].decision.Some?
    requires r in s.requests ==> s.requests[r].decision.None?
    ensures Actor(step) == Some(r) && r in s.requests && s.requests[r].decision.None?
    ensures var l := Apply(s, step, settings).requests[r];
      l.request.form.Parsed? && (l.decision.value.Duplicate? <==> Taken(Keys(s.rows), KeyOf(l.request)))
  {
    hide *;
    InvParts(s, settings);
    LogMove(s, step, settings);
    OthersStay(s, step, settings);
    if Decides(s, step) {
      DecidingKeys(s, step, settings);
    } else {
      UndecidedKeys(s, step, settings);
    }
    AtomicIs(Keys(s.rows), Apply(s, step, settings).log[|s.log|]);
  }

  lemma AtomicIs(keys: map<MessageId, Key>, e: Entry)
    requires Atomic(keys, e)
    ensures e.request.form.Parsed? && (e.decision.Duplicate? <==> Taken(keys, KeyOf(e.request)))
  {
    hide Taken;
  }

  /**
   The reply follows the decision: an answered request that passed the checks is told it is
   a duplicate, with the code that goes with its partner's tracking, if and only if the
   decision was that it is one; every other answer comes from processing its own row.
   */
  lemma ReplyFollowsDecision(states: seq<State>, steps: seq<Step>, settings: Settings, k: nat, r: RequestId)
    requires Run(states, steps, settings) && k < |states| && r in states[k].requests
    requires states[k].requests[r].pc.Answered? && Refusal(states[k].requests[r].request, settings).None?
    ensures var l := states[k].requests[r];
      && l.request.form.Parsed? && l.decision.Some?
      && (l.pc.answer == Nack(DuplicateCode(l.request)) <==> l.decision.value.Duplicate?)
      && (l.pc.answer in {Nack(DuplicateRefnum), Nack(DuplicateDigest)} <==> l.decision.value.Duplicate?)
  {
    Invariant(states, steps, settings, k);
    InvParts(states[k], settings);
    assert Progress(states[k].requests[r], settings);
  }

  // ------------------------------------------------------------------
  // Contents are handed to the sinks at most once
  // ------------------------------------------------------------------

  /** The step hands its request's message to the sinks, whatever comes of it. */
  predicate FansOut(s: State, step: Step) {
    (step.Deliver? || (step.Raise? && At(s, step.r, Delivering))) && step.r in s.requests
  }

  predicate PastFanOut(pc: Pc) {
    pc.Recording? || pc.Updating? || pc.Recovering? || pc.Signing? || pc.Answered? || pc.Gone?
  }

  lemma FanOutPasses(s: State, step: Step, settings: Settings)
    requires Enabled(s, step, settings) && FansOut(s, step)
    ensures var t := Apply(s, step, settings); step.r in t.requests && PastFanOut(t.requests[step.r].pc)
  {
    hide Conflicts, Finds, Record, DurableEnough, Objection, Refusal;
  }

  lemma PastStays(s: State, step: Step, settings: Settings, r: RequestId)
    requires Enabled(s, step, settings) && r in s.requests && PastFanOut(s.requests[r].pc)
    ensures var t := Apply(s, step, settings); r in t.requests && PastFanOut(t.requests[r].pc)
  {
    OthersStay(s, step, settings);
    hide Conflicts, Finds, Record, DurableEnough, Objection, Refusal;
  }

  lemma {:induction false} PastForGood(
    states: seq<State>, steps: seq<Step>, settings: Settings, i: nat, k: nat, r: RequestId)
    requires Run(states, steps, settings) && i <= k < |states| && r in states[i].requests
    requires PastFanOut(states[i].requests[r].pc)
    ensures r in states[k].requests && PastFanOut(states[k].requests[r].pc)
  {
    hide *;
    RunStart(states, steps, settings);
    if i < k {
      RunStep(states, steps, settings, k - 1);
      PastForGood(states, steps, settings, i, k - 1, r);
      PastStays(states[k - 1], steps[k - 1], settings, r);
    }
  }

  lemma FanOutHasRow(s: State, step: Step, settings: Settings)
    requires Inv(s, settings) && Enabled(s, step, settings) && FansOut(s, step)
    ensures var l := s.requests[step.r];
      && l.pc == Delivering && l.request.form.Parsed? && HasRow(l) && l.decision.value.m in s.rows
      && RowKey(s.rows[l.decision.value.m]) == KeyOf(l.request)
      && s.rows[l.decision.value.m].direction == Messages.Inbound
  {
    InvParts(s, settings);
    assert Progress(s.requests[step.r], settings) && RowAgrees(s.requests[step.r], s.rows, s.handed);
    hide Conflicts, Finds, DurableEnough, Objection, Refusal, Inv;
  }

  /**
   Over a whole run, two different hand-overs to the sinks are never of messages of one
   partner with the same digest or the same refnum: such content gets there at most once,
   whatever became of it.
   */
  lemma FanOutAtMostOnce(states: seq<State>, steps: seq<Step>, settings: Settings, i: nat, k: nat)
    requires Run(states, steps, settings) && i < k < |steps|
    requires FansOut(states[i], steps[i]) && FansOut(states[k], steps[k])
    ensures var a, b := states[i].requests[steps[i].r].request, states[k].requests[steps[k].r].request;
      && steps[i].r != steps[k].r
      && a.form.Parsed? && b.form.Parsed? && !Clash(KeyOf(a), KeyOf(b))
  {
    hide *;
    RunStart(states, steps, settings);
    RunStep(states, steps, settings, i);
    RunStep(states, steps, settings, k);
    Invariant(states, steps, settings, i);
    Invariant(states, steps, settings, k);
    FansOutIs(states[i], steps[i]);
    FansOutIs(states[k], steps[k]);
    var r, r' := steps[i].r, steps[k].r;
    FanOutHasRow(states[i], steps[i], settings);
    FanOutHasRow(states[k], steps[k], settings);
    FanOutPasses(states[i], steps[i], settings);
    PastForGood(states, steps, settings, i + 1, k, r);
    KnownForGood(states, steps, settings, i, k, r);
    var s := states[k];
    NotBothBeforeAndPast(s.requests[r'].pc);
    HasRowIs(states[i].requests[r]);
    HasRowIs(s.requests[r]);
    RowOfOwner(s, settings, r);
    InvParts(s, settings);
    OwnersDiffer(s, r, r');
  }

  lemma FansOutIs(s: State, step: Step)
    requires FansOut(s, step)
    ensures (step.Deliver? || step.Raise?) && step.r in s.requests
  {
  }

  lemma NotBothBeforeAndPast(pc: Pc)
    ensures pc == Delivering ==> !PastFanOut(pc)
  {
  }

  lemma HasRowIs(l: Local)
    ensures HasRow(l) <==> l.decision.Some? && l.decision.value.Inserted?
  {
  }

  /** Two requests with rows of their own never have clashing keys. */
  lemma OwnersDiffer(s: State, r: RequestId, r': RequestId)
    requires OwnerInv(s) && TableInv(s) && r != r' && r in s.requests && r' in s.requests
    requires var l := s.requests[r];
      && HasRow(l) && l.request.form.Parsed? && l.decision.value.m in s.rows
      && RowKey(s.rows[l.decision.value.m]) == KeyOf(l.request)
      && s.rows[l.decision.value.m].direction == Messages.Inbound
    requires var l := s.requests[r'];
      && HasRow(l) && l.request.form.Parsed? && l.decision.value.m in s.rows
      && RowKey(s.rows[l.decision.value.m]) == KeyOf(l.request)
      && s.rows[l.decision.value.m].direction == Messages.Inbound
    ensures !Clash(KeyOf(s.requests[r].request), KeyOf(s.requests[r'].request))
  {
    var m, m' := s.requests[r].decision.value.m, s.requests[r'].decision.value.m;
    assert Owns(s.requests[r], m) && Owns(s.requests[r'], m');
    assert !SameKey(s.rows[m], s.rows[m']);
  }

  lemma RowOfOwner(s: State, settings: Settings, r: RequestId)
    requires Inv(s, settings) && r in s.requests && HasRow(s.requests[r])
    ensures var l := s.requests[r];
      && l.request.form.Parsed? && l.decision.value.m in s.rows
      && RowKey(s.rows[l.decision.value.m]) == KeyOf(l.request)
      && s.rows[l.decision.value.m].direction == Messages.Inbound
  {
    InvParts(s, settings);
    assert RowAgrees(s.requests[r], s.rows, s.handed);
  }

  /** Different requests never share a trans-id, so neither do their receipts or their rows. */
  lemma TransIdsDiffer(states: seq<State>, steps: seq<Step>, settings: Settings, k: nat, r: RequestId, r': RequestId)
    requires Run(states, steps, settings) && k < |states|
    requires r in states[k].requests && r' in states[k].requests && r != r'
    requires states[k].requests[r].transId.Some?
    ensures states[k].requests[r].transId != states[k].requests[r'].transId
  {
    Invariant(states, steps, settings, k);
    InvParts(states[k], settings);
    assert !SameNumber(states[k].requests[r], states[k].requests[r']);
  }

  // ------------------------------------------------------------------
  // Downstream takes each message at most once
  // ------------------------------------------------------------------

  predicate Settled(row: Row) {
    row.status != Accepted && row.status != Processing
  }

  lemma SettledStays(s: State, step: Step, settings: Settings, m: MessageId)
    requires Inv(s, settings) && Enabled(s, step, settings) && m in s.rows && Settled(s.rows[m])
    requires s.rows[m].direction == Messages.Inbound
    ensures var t := Apply(s, step, settings);
      m in t.rows && Settled(t.rows[m]) && t.rows[m].direction == Messages.Inbound
  {
    hide *;
    InvParts(s, settings);
    var t := Apply(s, step, settings);
    ActorIs(step);
    if step.MarkProcessed? {
      MarkedRows(s, step, settings);
      MarkingKeepsSettled(s.rows, step.ids, step.status, m);
    } else if step.OutboundActivity? {
      OutboundRows(s, step, settings);
      UntouchedRow(s.rows, step.rows, m);
    } else {
      OwnRowAgrees(s, step, settings, Actor(step).value);
      MovesIs(s, t);
      if n :| InsertsRow(s, t, n) {
        InsertedRow(s, t, n);
      } else if n :| Restates(s.rows, t.rows, n) {
        RestatedRow(s.rows, t.rows, n, m);
      }
    }
  }

  lemma MarkingKeepsSettled(rows: Table, ids: seq<MessageId>, status: Status, m: MessageId)
    requires m in rows && Settled(rows[m])
    ensures m in MarkAll(rows, Eligible(rows, ids), status) && MarkAll(rows, Eligible(rows, ids), status)[m] == rows[m]
  {
  }

  lemma UntouchedRow(rows: Table, rows': Table, m: MessageId)
    requires InboundUntouched(rows, rows') && m in rows && rows[m].direction == Messages.Inbound
    ensures m in rows' && rows'[m] == rows[m]
  {
  }

  lemma InsertedRow(s: State, t: State, n: MessageId)
    requires InsertsRow(s, t, n)
    ensures forall m :: m in s.rows ==> m in t.rows && t.rows[m] == s.rows[m]
  {
    hide Conflicts;
  }

  lemma RestatedRow(rows: Table, rows': Table, n: MessageId, m: MessageId)
    requires Restates(rows, rows', n) && m in rows && Settled(rows[m])
    ensures m in rows' && Settled(rows'[m]) && rows'[m].direction == rows[m].direction
  {
  }

  /** No step returns a message to accepted, or to processing. */
  lemma {:induction false} NeverAcceptedAgain(
    states: seq<State>, steps: seq<Step>, settings: Settings, i: nat, k: nat, m: MessageId)
    requires Run(states, steps, settings) && i <= k < |states|
    requires m in states[i].rows && Settled(states[i].rows[m]) && states[i].rows[m].direction == Messages.Inbound
    ensures m in states[k].rows && Settled(states[k].rows[m]) && states[k].rows[m].direction == Messages.Inbound
  {
    hide *;
    RunStart(states, steps, settings);
    if i < k {
      RunStep(states, steps, settings, k - 1);
      NeverAcceptedAgain(states, steps, settings, i, k - 1, m);
      Invariant(states, steps, settings, k - 1);
      SettledStays(states[k - 1], steps[k - 1], settings, m);
    }
  }

  /** Of two calls that mark messages processed, no message is among the updated of both; and all those are inbound. */
  lemma HandedOnce(states: seq<State>, steps: seq<Step>, settings: Settings, i: nat, k: nat)
    requires Run(states, steps, settings) && i < k < |steps|
    requires steps[i].MarkProcessed? && steps[k].MarkProcessed?
    ensures var first, second := Eligible(states[i].rows, steps[i].ids), Eligible(states[k].rows, steps[k].ids);
      && first !! second
      && (forall m :: m in first ==> states[i].rows[m].direction == Messages.Inbound)
      && (forall m :: m in second ==> states[k].rows[m].direction == Messages.Inbound)
      && (forall m :: m in first ==> m in states[i + 1].rows && states[i + 1].rows[m].status == steps[i].status)
  {
    hide *;
    RunStart(states, steps, settings);
    RunStep(states, steps, settings, i);
    Invariant(states, steps, settings, i);
    InvParts(states[i], settings);
    var s, t := states[i], states[i + 1];
    var first := Eligible(s.rows, steps[i].ids);
    MarkedRows(s, steps[i], settings);
    MarkedAre(s, steps[i].ids, steps[i].status);
    RunStep(states, steps, settings, k);
    Invariant(states, steps, settings, k);
    InvParts(states[k], settings);
    MarkedRows(states[k], steps[k], settings);
    MarkedAre(states[k], steps[k].ids, steps[k].status);
    forall m | m in first
      ensures m !in Eligible(states[k].rows, steps[k].ids) && s.rows[m].direction == Messages.Inbound
        && m in t.rows && t.rows[m].status == steps[i].status
    {
      NeverAcceptedAgain(states, steps, settings, i + 1, k, m);
      NotEligible(states[k].rows, steps[k].ids, m);
    }
  }

  lemma MarkedAre(s: State, ids: seq<MessageId>, status: Status)
    requires TableInv(s) && !Reserved(status)
    ensures var rows := MarkAll(s.rows, Eligible(s.rows, ids), status);
      forall m :: m in Eligible(s.rows, ids) ==>
        && m in s.rows && s.rows[m].direction == Messages.Inbound
        && m in rows && rows[m].status == status && Settled(rows[m]) && rows[m].direction == Messages.Inbound
  {
  }

  lemma NotEligible(rows: Table, ids: seq<MessageId>, m: MessageId)
    requires m in rows && Settled(rows[m])
    ensures m !in Eligible(rows, ids)
  {
  }
}
