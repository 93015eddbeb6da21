/**
 The receive handler itself (app/inbound/routes.py:80-293), call by call over the
 MessageTracker. Before each of its calls any other requests, downstream consumers and the
 outbound side may take any steps of theirs; each call may raise, its effect applied or not.
 The handler is proved to take the protocol's steps, in the code's own order.
 */
module Receive {
  import opened Wrappers
  import opened Bytes
  import opened Messages
  import opened ErrorCodes
  import opened Sinks
  import opened Inbound
  import opened InboundInvariant
  import InboundRuns

  /**
   Everything outside the handler: what others do just before it makes a call, whether the
   call raises, gpg's result, the sinks' deliveries, and the keys the database generates.
   No call is made twice, so a call is named by the point of the program it is made at.
   */
  datatype World = World(
    others: Pc -> seq<Step>, fault: Pc -> Fault, decryption: Decryption, deliveries: seq<Delivery>,
    freshId: Table -> MessageId
  )

  ghost predicate Sensible(world: World, settings: Settings) {
    |world.deliveries| == |settings.sinks| && forall rows :: world.freshId(rows) !in rows
  }

  function Perform(s: State, steps: seq<Step>, settings: Settings): Option<State>
    decreases |steps|
  {
    if steps == [] then Some(s)
    else if Enabled(s, steps[0], settings) then Perform(Apply(s, steps[0], settings), steps[1..], settings)
    else None
  }

  /** Some stretch of a run leads from one state to the other. */
  ghost predicate Reaches(s: State, t: State, settings: Settings) {
    exists steps :: Perform(s, steps, settings) == Some(t)
  }

  lemma ReachesSelf(s: State, settings: Settings)
    ensures Reaches(s, s, settings)
  {
    assert Perform(s, [], settings) == Some(s);
  }

  lemma {:induction false} PerformMore(s: State, first: seq<Step>, t: State, second: seq<Step>, settings: Settings)
    requires Perform(s, first, settings) == Some(t)
    ensures Perform(s, first + second, settings) == Perform(t, second, settings)
    decreases |first|
  {
    hide Enabled, Apply;
    if first == [] {
      assert first + second == second;
    } else {
      assert (first + second)[0] == first[0] && (first + second)[1..] == first[1..] + second;
      PerformMore(Apply(s, first[0], settings), first[1..], t, second, settings);
    }
  }

  lemma ReachesOn(s: State, t: State, u: State, settings: Settings)
    requires Reaches(s, t, settings) && Reaches(t, u, settings)
    ensures Reaches(s, u, settings)
  {
    var first :| Perform(s, first, settings) == Some(t);
    var second :| Perform(t, second, settings) == Some(u);
    PerformMore(s, first, t, second, settings);
    assert Perform(s, first + second, settings) == Some(u);
  }

  lemma ReachesStep(s: State, step: Step, settings: Settings)
    requires Enabled(s, step, settings)
    ensures Reaches(s, Apply(s, step, settings), settings)
  {
    hide Enabled, Apply;
    var t := Apply(s, step, settings);
    assert Perform(t, [], settings) == Some(t);
    assert [step][1..] == [];
    assert Perform(s, [step], settings) == Some(t);
  }

  /** Others' steps, in order; those that are not possible, or would be this request's own, are left out. */
  function Interleave(s: State, steps: seq<Step>, r: RequestId, settings: Settings): State
    decreases |steps|
  {
    if steps == [] then s
    else if Actor(steps[0]) != Some(r) && Enabled(s, steps[0], settings)
    then Interleave(Apply(s, steps[0], settings), steps[1..], r, settings)
    else Interleave(s, steps[1..], r, settings)
  }

  lemma {:induction false} InterleaveKeeps(s: State, steps: seq<Step>, r: RequestId, settings: Settings)
    requires Inv(s, settings)
    ensures var t := Interleave(s, steps, r, settings);
      && Inv(t, settings) && Reaches(s, t, settings)
      && (r in s.requests <==> r in t.requests)
      && (r in s.requests ==> t.requests[r] == s.requests[r])
    decreases |steps|
  {
    hide Inv, Enabled, Apply, Reaches;
    if steps == [] {
      ReachesSelf(s, settings);
    } else if Actor(steps[0]) != Some(r) && Enabled(s, steps[0], settings) {
      var t := Apply(s, steps[0], settings);
      InboundRuns.InvStep(s, steps[0], settings);
      OthersStay(s, steps[0], settings);
      InterleaveKeeps(t, steps[1..], r, settings);
      ReachesStep(s, steps[0], settings);
      ReachesOn(s, t, Interleave(t, steps[1..], r, settings), settings);
    } else {
      InterleaveKeeps(s, steps[1..], r, settings);
    }
  }

  // ------------------------------------------------------------------
  // What the protocol's steps do, one by one
  // ------------------------------------------------------------------

  lemma SensibleIs(world: World, settings: Settings, rows: Table)
    requires Sensible(world, settings)
    ensures |world.deliveries| == |settings.sinks| && world.freshId(rows) !in rows
  {
  }

  lemma LandingIs(pc: Pc)
    ensures pc.Updating? || pc.Decrypting? || pc.Delivering? || pc.Recording? ==>
      CanFail(pc) && Landing(pc) == Recovering
    ensures pc.Signing? ==> CanFail(pc) && Landing(pc) == if pc.guarded then Recovering else Gone
    ensures pc.Numbering? || pc.Finding? || pc.Inserting? || pc.Recovering? ==> CanFail(pc) && Landing(pc) == Gone
  {
  }

  predicate CanFail(pc: Pc) {
    !pc.Answered? && !pc.Gone? && pc != Checking
  }

  lemma FailIs(s: State, r: RequestId, m: MessageId, results: seq<Delivery>, settings: Settings)
    requires r in s.requests && CanFail(s.requests[r].pc) && m !in s.rows && |results| == |settings.sinks|
    ensures var step := Raise(r, false, m, results);
      && Enabled(s, step, settings)
      && var t := Apply(s, step, settings);
      && r in t.requests && t.requests[r] == s.requests[r].(pc := Landing(s.requests[r].pc))
      && t.rows == s.rows && t.lastTransId == s.lastTransId
  {
  }

  /** The columns `update_status` writes for an answer. */
  function StatusFor(answer: Answer): Status {
    if answer.Ack? then Accepted else Rejected
  }

  function ErrorFor(answer: Answer): Option<Bytes> {
    if answer.Ack? then None else Some(Value(answer.code))
  }

  function VerifiedFor(l: Local, answer: Answer): Option<bool> {
    if answer.Ack? then Verified(l) else if answer.code == SignatureNotMatched then Some(false) else None
  }

  lemma UpdateIs(
    s: State, r: RequestId, m: MessageId, answer: Answer, key: MessageId, results: seq<Delivery>, settings: Settings)
    requires r in s.requests && s.requests[r].pc == Updating(answer) && s.requests[r].decision == Some(Inserted(m))
    requires key !in s.rows && |results| == |settings.sinks|
    ensures Enabled(s, Update(r), settings) && Enabled(s, Raise(r, true, key, results), settings)
    ensures
      var l := s.requests[r];
      var rows := UpdateStatus(s.rows, m, StatusFor(answer), ErrorFor(answer), VerifiedFor(l, answer));
      && var t := Apply(s, Update(r), settings);
      && r in t.requests && t.requests[r] == l.(pc := Signing(answer, true)) && t.rows == rows
      && t.lastTransId == s.lastTransId
      && var u := Apply(s, Raise(r, true, key, results), settings);
      && r in u.requests && u.requests[r] == l.(pc := Recovering) && u.rows == rows && u.lastTransId == s.lastTransId
  {
    hide UpdateStatus, Value;
  }

  lemma SignIs(s: State, r: RequestId, settings: Settings)
    requires r in s.requests && s.requests[r].pc.Signing?
    ensures Enabled(s, Sign(r), settings)
    ensures var t := Apply(s, Sign(r), settings);
      && r in t.requests && t.requests[r] == s.requests[r].(pc := Answered(s.requests[r].pc.answer))
      && t.rows == s.rows && t.lastTransId == s.lastTransId
  {
  }

  lemma DecryptIs(s: State, r: RequestId, d: Decryption, settings: Settings)
    requires At(s, r, Decrypting)
    ensures Enabled(s, Decrypt(r, d), settings)
    ensures var t, l := Apply(s, Decrypt(r, d), settings), s.requests[r];
      && r in t.requests && t.rows == s.rows && t.lastTransId == s.lastTransId
      && t.requests[r] == l.(
           decryption := Some(d),
           pc := match Objection(l.request, d) case Some(code) => Updating(Nack(code)) case None => Delivering)
  {
    hide Objection;
  }

  lemma DeliverIs(s: State, r: RequestId, m: MessageId, results: seq<Delivery>, settings: Settings)
    requires At(s, r, Delivering) && m !in s.rows && |results| == |settings.sinks|
    ensures Enabled(s, Deliver(r, results), settings) && Enabled(s, Raise(r, true, m, results), settings)
    ensures
      var t, u := Apply(s, Deliver(r, results), settings), Apply(s, Raise(r, true, m, results), settings);
      var l := s.requests[r];
      && r in t.requests && t.rows == s.rows && t.lastTransId == s.lastTransId
      && t.requests[r] == l.(pc := Recording, deliveries := Some(results))
      && r in u.requests && u.rows == s.rows && u.lastTransId == s.lastTransId
      && u.requests[r] == l.(pc := Recovering, deliveries := Some(results))
  {
  }

  lemma RecordIs(s: State, r: RequestId, results: seq<Delivery>, settings: Settings)
    requires At(s, r, Recording) && s.requests[r].deliveries == Some(results) && |results| == |settings.sinks|
    ensures Enabled(s, RecordSinks(r), settings)
    ensures var t := Apply(s, RecordSinks(r), settings);
      && r in t.requests && t.rows == s.rows && t.lastTransId == s.lastTransId
      && t.requests[r] == s.requests[r].(pc :=
           if settings.requireDurable && !HasDurableSuccess(settings.sinks, FanOut(settings.sinks, results))
           then Updating(Nack(SinkFailure)) else Updating(Ack))
  {
    hide HasDurableSuccess, FanOut;
  }

  lemma RecoverIs(s: State, r: RequestId, m: MessageId, key: MessageId, results: seq<Delivery>, settings: Settings)
    requires At(s, r, Recovering) && s.requests[r].decision == Some(Inserted(m))
    requires key !in s.rows && |results| == |settings.sinks|
    ensures Enabled(s, Recover(r), settings) && Enabled(s, Raise(r, true, key, results), settings)
    ensures var l, rows := s.requests[r], UpdateStatus(s.rows, m, Rejected, Some(Value(SystemError)), None);
      && var t := Apply(s, Recover(r), settings);
      && r in t.requests && t.requests[r] == l.(pc := Signing(Nack(SystemError), false)) && t.rows == rows
      && t.lastTransId == s.lastTransId
      && var u := Apply(s, Raise(r, true, key, results), settings);
      && r in u.requests && u.requests[r] == l.(pc := Gone) && u.rows == rows && u.lastTransId == s.lastTransId
  {
    hide UpdateStatus, Value;
  }

  lemma NumberIs(s: State, r: RequestId, m: MessageId, results: seq<Delivery>, settings: Settings)
    requires At(s, r, Numbering) && m !in s.rows && |results| == |settings.sinks|
    ensures Enabled(s, TakeNumber(r), settings) && Enabled(s, Raise(r, true, m, results), settings)
    ensures
      var t, u := Apply(s, TakeNumber(r), settings), Apply(s, Raise(r, true, m, results), settings);
      var l := s.requests[r];
      && r in t.requests && t.rows == s.rows && t.lastTransId == s.lastTransId + 1
      && t.requests[r] == l.(pc := Checking, transId := Some(s.lastTransId + 1))
      && r in u.requests && u.rows == s.rows && u.lastTransId == s.lastTransId + 1
      && u.requests[r] == l.(pc := Gone)
  {
  }

  lemma CheckIs(s: State, r: RequestId, settings: Settings)
    requires At(s, r, Checking)
    ensures Enabled(s, CheckForm(r), settings)
    ensures var t, l := Apply(s, CheckForm(r), settings), s.requests[r];
      && r in t.requests && t.rows == s.rows && t.lastTransId == s.lastTransId
      && t.requests[r] ==
         match Refusal(l.request, settings)
         case Some(code) => l.(pc := Signing(Nack(code), false))
         case None => l.(pc := Finding)
  {
    hide Refusal;
  }

  lemma SearchIs(s: State, r: RequestId, settings: Settings)
    requires At(s, r, Finding) && s.requests[r].request.form.Parsed?
    ensures Enabled(s, Search(r), settings)
    ensures var t, l := Apply(s, Search(r), settings), s.requests[r];
      var code := DuplicateCode(l.request);
      && r in t.requests && t.rows == s.rows && t.lastTransId == s.lastTransId
      && t.requests[r] ==
         if Finds(s.rows, l.request)
         then l.(pc := Signing(Nack(code), false), decision := Some(Duplicate(code)))
         else l.(pc := Inserting)
  {
    hide Finds;
  }

  lemma InsertIs(s: State, r: RequestId, m: MessageId, results: seq<Delivery>, settings: Settings)
    requires At(s, r, Inserting) && s.requests[r].request.form.Parsed? && m !in s.rows && |results| == |settings.sinks|
    ensures Enabled(s, Insert(r, m), settings) && Enabled(s, Raise(r, true, m, results), settings)
    ensures
      var l := s.requests[r];
      var record, code := Record(l.request, l.transId), DuplicateCode(l.request);
      var created := !Conflicts(s.rows, record);
      var rows := if created then s.rows[m := record] else s.rows;
      && var t := Apply(s, Insert(r, m), settings);
      && r in t.requests && t.rows == rows && t.lastTransId == s.lastTransId
      && t.requests[r] == (if created then l.(pc := Decrypting, decision := Some(Inserted(m)))
                           else l.(pc := Signing(Nack(code), false), decision := Some(Duplicate(code))))
      && var u := Apply(s, Raise(r, true, m, results), settings);
      && r in u.requests && u.rows == rows && u.lastTransId == s.lastTransId
      && u.requests[r] == (if created then l.(pc := Gone, decision := Some(Inserted(m))) else l.(pc := Gone))
  {
    hide Conflicts, Record;
  }

  lemma ArriveIs(s: State, r: RequestId, q: Request, settings: Settings)
    requires r !in s.requests
    ensures Enabled(s, Arrive(r, q), settings)
    ensures var t := Apply(s, Arrive(r, q), settings);
      && r in t.requests && t.rows == s.rows && t.lastTransId == s.lastTransId
      && t.requests[r] == Local(q, Numbering, None, None, None, None)
  {
  }

  // ------------------------------------------------------------------
  // What the oracles make of a request
  // ------------------------------------------------------------------

  /** No call raises. */
  ghost predicate Calm(world: World) {
    forall pc :: world.fault(pc) == Fine
  }

  /** Nobody else does anything. */
  ghost predicate Alone(world: World) {
    forall pc :: world.others(pc) == []
  }

  /** The tests of steps 5 to 8, in order, and the code each failure is answered with. */
  datatype Test = DecryptionTest | SignatureTest | StrengthTest | DurabilityTest

  const TESTS: seq<Test> := [DecryptionTest, SignatureTest, StrengthTest, DurabilityTest]

  ghost predicate Meets(q: Request, settings: Settings, world: World, test: Test)
    requires |world.deliveries| == |settings.sinks|
  {
    var d := world.decryption;
    match test
    case DecryptionTest => d.Decrypted?
    case SignatureTest => d.Decrypted? && (d.signatureOk || !q.partner.requireSignature)
    case StrengthTest => d.Decrypted? && !d.weak
    case DurabilityTest =>
      settings.requireDurable ==> HasDurableSuccess(settings.sinks, FanOut(settings.sinks, world.deliveries))
  }

  function TestCode(test: Test): ErrorCode {
    match test
    case DecryptionTest => DecryptionError
    case SignatureTest => SignatureNotMatched
    case StrengthTest => WeakAlgorithm
    case DurabilityTest => SinkFailure
  }

  /** The test fails, and all those before it are passed. */
  ghost predicate FirstUnmet(q: Request, settings: Settings, world: World, k: int)
    requires |world.deliveries| == |settings.sinks| && 0 <= k < |TESTS|
  {
    !Meets(q, settings, world, TESTS[k]) && forall i :: 0 <= i < k ==> Meets(q, settings, world, TESTS[i])
  }

  /** The answer an inserted request comes to if nothing raises. */
  function VerdictOn(q: Request, settings: Settings, world: World): Answer
    requires |world.deliveries| == |settings.sinks|
  {
    match Objection(q, world.decryption)
    case Some(code) => Nack(code)
    case None => if DurableEnough(settings, world.deliveries) then Ack else Nack(SinkFailure)
  }

  /**
   It is accepted if and only if it passes all four tests, and rejected with a given code if
   and only if that is the code of the first it does not pass.
   */
  lemma VerdictIsFirstUnmet(q: Request, settings: Settings, world: World)
    requires |world.deliveries| == |settings.sinks|
    ensures VerdictOn(q, settings, world) == Ack <==> forall test :: Meets(q, settings, world, test)
    ensures forall k :: 0 <= k < |TESTS| ==>
      (VerdictOn(q, settings, world) == Nack(TestCode(TESTS[k])) <==> FirstUnmet(q, settings, world, k))
  {
    hide HasDurableSuccess, FanOut;
    assert VerdictOn(q, settings, world) == Ack <==>
      && Meets(q, settings, world, DecryptionTest) && Meets(q, settings, world, SignatureTest)
      && Meets(q, settings, world, StrengthTest) && Meets(q, settings, world, DurabilityTest);
    forall k | 0 <= k < |TESTS|
      ensures VerdictOn(q, settings, world) == Nack(TestCode(TESTS[k])) <==> FirstUnmet(q, settings, world, k)
    {
      assert TESTS[0] == DecryptionTest && TESTS[1] == SignatureTest && TESTS[2] == StrengthTest
          && TESTS[3] == DurabilityTest;
    }
  }

  predicate Signs(world: World, answer: Answer, guarded: bool) {
    world.fault(Signing(answer, guarded)) == Fine
  }

  /** The row is updated for the answer and the receipt signed. */
  predicate Concludes(world: World, answer: Answer) {
    world.fault(Updating(answer)) == Fine && Signs(world, answer, true)
  }

  /** No call of steps 5 to 8 raises, of those the request comes to. */
  predicate Unhindered(q: Request, settings: Settings, world: World)
    requires |world.deliveries| == |settings.sinks|
  {
    && world.fault(Decrypting) == Fine
    && (Objection(q, world.decryption).None? ==> world.fault(Delivering) == Fine && world.fault(Recording) == Fine)
    && Concludes(world, VerdictOn(q, settings, world))
  }

  /** The catch-all updates the row and signs its receipt. */
  predicate Recovers(world: World) {
    world.fault(Recovering) == Fine && Signs(world, Nack(SystemError), false)
  }

  function TurnedAway(world: World, code: ErrorCode): Option<Answer> {
    if Signs(world, Nack(code), false) then Some(Nack(code)) else None
  }

  /** The reply to a request, given what was decided of it at the table. */
  function ReplyOf(q: Request, settings: Settings, world: World, decision: Option<Decision>): Option<Answer>
    requires |world.deliveries| == |settings.sinks|
  {
    match Refusal(q, settings)
    case Some(code) => if world.fault(Numbering) == Fine then TurnedAway(world, code) else None
    case None =>
      match decision
      case None => None
      case Some(Duplicate(code)) => TurnedAway(world, code)
      case Some(Inserted(_)) =>
        if world.fault(Inserting) != Fine then None
        else if Unhindered(q, settings, world) then Some(VerdictOn(q, settings, world))
        else if Recovers(world) then Some(Nack(SystemError))
        else None
  }

  /** How a request was decided at the table, and that it was, unless a call raised before. */
  ghost predicate DecidedFor(q: Request, world: World, decision: Option<Decision>) {
    match decision
    case None => world.fault(Numbering) != Fine || world.fault(Finding) != Fine || world.fault(Inserting) != Fine
    case Some(Duplicate(code)) => code == if q.partner.useRefnum then DuplicateRefnum else DuplicateDigest
    case Some(Inserted(_)) => true
  }

  /** What that comes to: an answer unless a call raises, and the system error only when one does. */
  lemma ReplyMeans(q: Request, settings: Settings, world: World, decision: Option<Decision>)
    requires |world.deliveries| == |settings.sinks|
    requires Refusal(q, settings).None? ==> DecidedFor(q, world, decision)
    ensures var reply := ReplyOf(q, settings, world, decision);
      && (Calm(world) ==> reply.Some?)
      && (Refusal(q, settings).None? && reply == Some(Nack(SystemError)) ==> !Calm(world))
      && (Calm(world) && Refusal(q, settings).None? && decision.Some? && decision.value.Inserted? ==>
            reply == Some(VerdictOn(q, settings, world)))
  {
    hide Refusal, DurableEnough;
  }

  /** A key that is taken stays taken, whatever anyone does. */
  lemma {:induction false} TakenStays(s: State, steps: seq<Step>, settings: Settings, key: InboundRuns.Key)
    requires Inv(s, settings) && Perform(s, steps, settings).Some? && InboundRuns.Taken(InboundRuns.Keys(s.rows), key)
    ensures InboundRuns.Taken(InboundRuns.Keys(Perform(s, steps, settings).value.rows), key)
    decreases |steps|
  {
    hide *;
    PerformUnfold(s, steps, settings);
    if steps != [] {
      var t := Apply(s, steps[0], settings);
      InboundRuns.InvStep(s, steps[0], settings);
      if InboundRuns.Decides(s, steps[0]) {
        InboundRuns.DecidingKeys(s, steps[0], settings);
        if t.log != s.log {
          TakenAfter(InboundRuns.Keys(s.rows), t.log[|s.log|], key);
        }
      } else {
        InboundRuns.UndecidedKeys(s, steps[0], settings);
      }
      TakenStays(t, steps[1..], settings, key);
    }
  }

  lemma PerformUnfold(s: State, steps: seq<Step>, settings: Settings)
    ensures steps == [] ==> Perform(s, steps, settings) == Some(s)
    ensures steps != [] && Enabled(s, steps[0], settings) ==>
      Perform(s, steps, settings) == Perform(Apply(s, steps[0], settings), steps[1..], settings)
    ensures steps != [] && !Enabled(s, steps[0], settings) ==> Perform(s, steps, settings) == None
  {
    hide Enabled, Apply;
  }

  lemma TakenAfter(keys: map<MessageId, InboundRuns.Key>, e: Entry, key: InboundRuns.Key)
    requires InboundRuns.Taken(keys, key) && InboundRuns.Atomic(keys, e)
    ensures InboundRuns.Taken(InboundRuns.After(keys, e), key)
  {
    hide InboundRuns.Clash;
    var m :| m in keys && InboundRuns.Clash(keys[m], key);
    assert m in InboundRuns.After(keys, e) && InboundRuns.After(keys, e)[m] == keys[m];
  }

  /** An inbound row of the partner's has the request's digest or refnum. */
  ghost predicate Clashes(rows: Table, q: Request) {
    q.form.Parsed? && InboundRuns.Taken(InboundRuns.Keys(rows), InboundRuns.KeyOf(q))
  }

  lemma ClashStays(s: State, t: State, q: Request, settings: Settings)
    requires Inv(s, settings) && Reaches(s, t, settings)
    ensures Clashes(s.rows, q) ==> Clashes(t.rows, q)
  {
    hide Inv, InboundRuns.Taken, InboundRuns.Keys, InboundRuns.KeyOf;
    var steps :| Perform(s, steps, settings) == Some(t);
    if Clashes(s.rows, q) {
      TakenStays(s, steps, settings, InboundRuns.KeyOf(q));
    }
  }

  lemma ClashIs(rows: Table, q: Request, transId: Option<nat>)
    requires q.form.Parsed?
    ensures Clashes(rows, q) <==> Conflicts(rows, Record(q, transId))
    ensures Finds(rows, q) ==> Clashes(rows, q)
  {
    InboundRuns.ConflictIsTaken(rows, q, transId);
    hide Conflicts, Record, Finds, InboundRuns.Taken, InboundRuns.Keys, InboundRuns.KeyOf;
  }

  /** Once the checks are passed, the code of a duplicate is that of the partner's tracking alone. */
  lemma DuplicateCodeIs(q: Request, settings: Settings)
    requires Refusal(q, settings).None? && q.form.Parsed?
    ensures DuplicateCode(q) == if q.partner.useRefnum then DuplicateRefnum else DuplicateDigest
  {
    hide Find, Lower;
  }

  class Receiver {
    const tracker: MessageTracker
    const settings: Settings
    const world: World

    constructor (tracker: MessageTracker, settings: Settings, world: World)
      ensures this.tracker == tracker && this.settings == settings && this.world == world
    {
      this.tracker := tracker;
      this.settings := settings;
      this.world := world;
    }

    /** The tracker's table is the one of the state, and the state is one the protocol allows. */
    ghost predicate Matches(s: State)
      reads tracker
    {
      tracker.rows == s.rows && tracker.lastTransId == s.lastTransId && Inv(s, settings) && Sensible(world, settings)
    }

    /** Others move before the call made at `pc`. */
    method Await(s: State, r: RequestId, pc: Pc) returns (t: State)
      requires Matches(s)
      modifies tracker
      ensures Matches(t) && Reaches(s, t, settings)
      ensures r in s.requests <==> r in t.requests
      ensures r in s.requests ==> t.requests[r] == s.requests[r]
      ensures Alone(world) ==> t == s
    {
      hide *;
      t := Interleave(s, world.others(pc), r, settings);
      AloneIs(s, r, pc);
      MatchesIs(s);
      InterleaveKeeps(s, world.others(pc), r, settings);
      tracker.rows := t.rows;
      tracker.lastTransId := t.lastTransId;
      MatchesIs(t);
    }

    lemma MatchesIs(s: State)
      ensures Matches(s) <==>
        tracker.rows == s.rows && tracker.lastTransId == s.lastTransId && Inv(s, settings) && Sensible(world, settings)
    {
    }

    lemma AloneIs(s: State, r: RequestId, pc: Pc)
      ensures Alone(world) ==> Interleave(s, world.others(pc), r, settings) == s
    {
      hide Enabled, Apply, Actor;
    }

    /** One step of this request's own, its effect on the tracker already made. */
    method Move(s: State, step: Step) returns (t: State)
      requires Inv(s, settings) && Sensible(world, settings) && Enabled(s, step, settings)
      requires tracker.rows == Apply(s, step, settings).rows
      requires tracker.lastTransId == Apply(s, step, settings).lastTransId
      ensures t == Apply(s, step, settings) && Matches(t) && Reaches(s, t, settings)
    {
      hide *;
      t := Apply(s, step, settings);
      InboundRuns.InvStep(s, step, settings);
      ReachesStep(s, step, settings);
      MatchesIs(t);
    }

    /** The request's call raises before it has any effect. */
    method Fail(s: State, r: RequestId) returns (t: State)
      requires Matches(s) && r in s.requests && CanFail(s.requests[r].pc)
      ensures Matches(t) && Reaches(s, t, settings) && r in t.requests
      ensures t.requests[r] == s.requests[r].(pc := Landing(s.requests[r].pc))
    {
      hide *;
      MatchesIs(s);
      SensibleIs(world, settings, s.rows);
      FailIs(s, r, world.freshId(s.rows), world.deliveries, settings);
      t := Move(s, Raise(r, false, world.freshId(s.rows), world.deliveries));
    }

    /** Signing the receipt: an exception inside the catch-all's reach goes there. */
    method SignReceipt(s: State, r: RequestId, answer: Answer, guarded: bool) returns (t: State, signed: bool)
      requires Matches(s) && r in s.requests && s.requests[r].pc == Signing(answer, guarded)
      modifies tracker
      ensures Matches(t) && Reaches(s, t, settings) && r in t.requests
      ensures t.requests[r] ==
        s.requests[r].(pc := if signed then Answered(answer) else if guarded then Recovering else Gone)
      ensures signed <==> Signs(world, answer, guarded)
    {
      hide *;
      var pc := Signing(answer, guarded);
      SignsIs(answer, guarded);
      var u := Await(s, r, pc);
      LandingIs(pc);
      if world.fault(pc) != Fine {
        t := Fail(u, r);
        signed := false;
      } else {
        MatchesIs(u);
        SignIs(u, r, settings);
        t := Move(u, Sign(r));
        signed := true;
      }
      ReachesOn(s, u, t, settings);
    }

    lemma SignsIs(answer: Answer, guarded: bool)
      ensures Signs(world, answer, guarded) <==> world.fault(Signing(answer, guarded)) == Fine
      ensures Concludes(world, answer) <==> world.fault(Updating(answer)) == Fine && Signs(world, answer, true)
      ensures answer.Nack? ==>
        TurnedAway(world, answer.code) == if Signs(world, answer, false) then Some(answer) else None
      ensures Recovers(world) <==> world.fault(Recovering) == Fine && Signs(world, Nack(SystemError), false)
    {
    }

    /** `update_status` for an answer, and on to signing it. */
    method UpdateRow(s: State, r: RequestId, m: MessageId, answer: Answer, verified: Option<bool>)
      returns (t: State, updated: bool)
      requires Matches(s) && r in s.requests && s.requests[r].pc == Updating(answer)
      requires s.requests[r].decision == Some(Inserted(m)) && verified == VerifiedFor(s.requests[r], answer)
      modifies tracker
      ensures Matches(t) && Reaches(s, t, settings) && r in t.requests
      ensures t.requests[r] == s.requests[r].(pc := if updated then Signing(answer, true) else Recovering)
      ensures updated <==> world.fault(Updating(answer)) == Fine
    {
      hide *;
      var pc := Updating(answer);
      var u := Await(s, r, pc);
      LandingIs(pc);
      if world.fault(pc) == RaisesBefore {
        t := Fail(u, r);
        updated := false;
      } else {
        MatchesIs(u);
        SensibleIs(world, settings, u.rows);
        UpdateIs(u, r, m, answer, world.freshId(u.rows), world.deliveries, settings);
        tracker.SetStatus(m, StatusFor(answer), ErrorFor(answer), verified);
        updated := world.fault(pc) == Fine;
        t := Move(u, if updated then Update(r) else Raise(r, true, world.freshId(u.rows), world.deliveries));
      }
      ReachesOn(s, u, t, settings);
    }

    /** Update the row and sign the receipt; None is an exception for the catch-all. */
    method Conclude(s: State, r: RequestId, m: MessageId, answer: Answer, verified: Option<bool>)
      returns (t: State, reply: Option<Answer>)
      requires Matches(s) && r in s.requests && s.requests[r].pc == Updating(answer)
      requires s.requests[r].decision == Some(Inserted(m))
      requires verified == VerifiedFor(s.requests[r], answer)
      modifies tracker
      ensures Matches(t) && Reaches(s, t, settings) && r in t.requests
      ensures t.requests[r] == s.requests[r].(pc := if reply.Some? then Answered(answer) else Recovering)
      ensures reply == if Concludes(world, answer) then Some(answer) else None
    {
      hide *;
      SignsIs(answer, true);
      var u, updated := UpdateRow(s, r, m, answer, verified);
      if !updated {
        return u, None;
      }
      var v, signed := SignReceipt(u, r, answer, true);
      ReachesOn(s, u, v, settings);
      return v, if signed then Some(answer) else None;
    }

    /**
     Steps 5 to 8, the part the catch-all guards: decrypt, judge, hand to the sinks, record
     their results, and accept or reject. None is an exception on its way to the catch-all.
     */
    method ProcessInserted(s: State, r: RequestId, q: Request, m: MessageId) returns (t: State, reply: Option<Answer>)
      requires Matches(s) && At(s, r, Decrypting)
      requires s.requests[r].request == q && s.requests[r].decision == Some(Inserted(m))
      modifies tracker
      ensures Matches(t) && Reaches(s, t, settings) && r in t.requests
      ensures t.requests[r].pc == (if reply.Some? then Answered(reply.value) else Recovering)
      ensures t.requests[r].request == q && t.requests[r].decision == Some(Inserted(m))
      ensures |world.deliveries| == |settings.sinks|
      ensures reply == if Unhindered(q, settings, world) then Some(VerdictOn(q, settings, world)) else None
    {
      hide *;
      MatchesIs(s);
      SensibleIs(world, settings, s.rows);
      UnhinderedIs(q);
      AtIs(s, r, Decrypting);
      t := Await(s, r, Decrypting);
      LandingIs(Decrypting);
      if world.fault(Decrypting) != Fine {
        var u := Fail(t, r);
        ReachesOn(s, t, u, settings);
        return u, None;
      }
      var d := world.decryption;
      MatchesIs(t);
      AtIs(t, r, Decrypting);
      DecryptIs(t, r, d, settings);
      ObjectionIs(q, d);
      var u := Move(t, Decrypt(r, d));
      ReachesOn(s, t, u, settings);
      if d.Undecryptable? {
        VerifiedIs(u.requests[r], Nack(DecryptionError));
        t, reply := Conclude(u, r, m, Nack(DecryptionError), None);
      } else if !d.signatureOk && q.partner.requireSignature {
        VerifiedIs(u.requests[r], Nack(SignatureNotMatched));
        t, reply := Conclude(u, r, m, Nack(SignatureNotMatched), Some(false));
      } else if d.weak {
        VerifiedIs(u.requests[r], Nack(WeakAlgorithm));
        t, reply := Conclude(u, r, m, Nack(WeakAlgorithm), None);
      } else {
        AtIs(u, r, Delivering);
        t, reply := DeliverAndAccept(u, r, m, d.signatureOk);
      }
      ReachesOn(s, u, t, settings);
    }

    lemma UnhinderedIs(q: Request)
      requires |world.deliveries| == |settings.sinks|
      ensures Unhindered(q, settings, world) <==>
        && world.fault(Decrypting) == Fine
        && (Objection(q, world.decryption).None? ==> world.fault(Delivering) == Fine && world.fault(Recording) == Fine)
        && Concludes(world, VerdictOn(q, settings, world))
      ensures VerdictOn(q, settings, world) ==
        if Objection(q, world.decryption).Some? then Nack(Objection(q, world.decryption).value)
        else if settings.requireDurable && !HasDurableSuccess(settings.sinks, FanOut(settings.sinks, world.deliveries))
        then Nack(SinkFailure) else Ack
    {
      hide Objection, Concludes, HasDurableSuccess, FanOut;
    }

    lemma AtIs(s: State, r: RequestId, pc: Pc)
      ensures At(s, r, pc) <==> r in s.requests && s.requests[r].pc == pc
    {
    }

    lemma ObjectionIs(q: Request, d: Decryption)
      ensures d.Undecryptable? ==> Objection(q, d) == Some(DecryptionError)
      ensures d.Decrypted? && !d.signatureOk && q.partner.requireSignature ==>
        Objection(q, d) == Some(SignatureNotMatched)
      ensures d.Decrypted? && (d.signatureOk || !q.partner.requireSignature) ==>
        Objection(q, d) == if d.weak then Some(WeakAlgorithm) else None
    {
    }

    lemma VerifiedIs(l: Local, answer: Answer)
      ensures answer.Nack? ==>
        VerifiedFor(l, answer) == if answer.code == SignatureNotMatched then Some(false) else None
      ensures answer.Ack? && l.decryption.Some? && l.decryption.value.Decrypted? ==>
        VerifiedFor(l, answer) == Some(l.decryption.value.signatureOk)
    {
    }

    /** Steps 7 and 8: fan out, record, and accept unless a durable sink was called for and none stored the message. */
    method DeliverAndAccept(s: State, r: RequestId, m: MessageId, signatureOk: bool)
      returns (t: State, reply: Option<Answer>)
      requires Matches(s) && At(s, r, Delivering) && s.requests[r].decision == Some(Inserted(m))
      requires s.requests[r].decryption.Some? && s.requests[r].decryption.value.Decrypted?
      requires s.requests[r].decryption.value.signatureOk == signatureOk
      modifies tracker
      ensures Matches(t) && Reaches(s, t, settings) && r in t.requests
      ensures t.requests[r].pc == (if reply.Some? then Answered(reply.value) else Recovering)
      ensures t.requests[r].request == s.requests[r].request && t.requests[r].decision == Some(Inserted(m))
      ensures |world.deliveries| == |settings.sinks|
      ensures
        var failed := settings.requireDurable
          && !HasDurableSuccess(settings.sinks, FanOut(settings.sinks, world.deliveries));
        var answer := if failed then Nack(SinkFailure) else Ack;
        reply == if world.fault(Delivering) == Fine && world.fault(Recording) == Fine && Concludes(world, answer)
                 then Some(answer) else None
    {
      hide *;
      AtIs(s, r, Delivering);
      t := Await(s, r, Delivering);
      MatchesIs(t);
      AtIs(t, r, Delivering);
      SensibleIs(world, settings, t.rows);
      LandingIs(Delivering);
      if world.fault(Delivering) == RaisesBefore {
        var u := Fail(t, r);
        ReachesOn(s, t, u, settings);
        return u, None;
      }
      var results := FanOut(settings.sinks, world.deliveries);
      DeliverIs(t, r, world.freshId(t.rows), world.deliveries, settings);
      if world.fault(Delivering) == RaisesAfter {
        var u := Move(t, Raise(r, true, world.freshId(t.rows), world.deliveries));
        ReachesOn(s, t, u, settings);
        return u, None;
      }
      var u := Move(t, Deliver(r, world.deliveries));
      ReachesOn(s, t, u, settings);
      var v := Await(u, r, Recording);
      ReachesOn(s, u, v, settings);
      MatchesIs(v);
      LandingIs(Recording);
      if world.fault(Recording) != Fine {
        var x := Fail(v, r);
        ReachesOn(s, v, x, settings);
        return x, None;
      }
      AtIs(v, r, Recording);
      RecordIs(v, r, world.deliveries, settings);
      var x := Move(v, RecordSinks(r));
      ReachesOn(s, v, x, settings);
      if settings.requireDurable && !HasDurableSuccess(settings.sinks, results) {
        VerifiedIs(x.requests[r], Nack(SinkFailure));
        t, reply := Conclude(x, r, m, Nack(SinkFailure), None);
      } else {
        VerifiedIs(x.requests[r], Ack);
        t, reply := Conclude(x, r, m, Ack, Some(signatureOk));
      }
      ReachesOn(s, x, t, settings);
    }

    /** The catch-all: the row is rejected as a system error and the receipt says so; a further exception is final. */
    method CatchAll(s: State, r: RequestId, m: MessageId) returns (t: State, reply: Option<Answer>)
      requires Matches(s) && At(s, r, Recovering) && s.requests[r].decision == Some(Inserted(m))
      modifies tracker
      ensures Matches(t) && Reaches(s, t, settings) && r in t.requests
      ensures t.requests[r] == s.requests[r].(pc := if reply.Some? then Answered(reply.value) else Gone)
      ensures reply == if Recovers(world) then Some(Nack(SystemError)) else None
    {
      hide *;
      SignsIs(Nack(SystemError), false);
      AtIs(s, r, Recovering);
      t := Await(s, r, Recovering);
      MatchesIs(t);
      AtIs(t, r, Recovering);
      SensibleIs(world, settings, t.rows);
      LandingIs(Recovering);
      if world.fault(Recovering) == RaisesBefore {
        var u := Fail(t, r);
        ReachesOn(s, t, u, settings);
        return u, None;
      }
      RecoverIs(t, r, m, world.freshId(t.rows), world.deliveries, settings);
      tracker.SetStatus(m, Rejected, Some(Value(SystemError)), None);
      if world.fault(Recovering) == RaisesAfter {
        var u := Move(t, Raise(r, true, world.freshId(t.rows), world.deliveries));
        ReachesOn(s, t, u, settings);
        return u, None;
      }
      var u := Move(t, Recover(r));
      ReachesOn(s, t, u, settings);
      var v, signed := SignReceipt(u, r, Nack(SystemError), false);
      ReachesOn(s, u, v, settings);
      return v, if signed then Some(Nack(SystemError)) else None;
    }

    /** Steps 2 and 3 on the parsed form: the first check that fails names the code. */
    method CheckEnvelope(q: Request) returns (code: Option<ErrorCode>)
      ensures code == Refusal(q, settings)
      ensures q.form.Parsed? ==> (code.None? <==> forall check :: Passes(q, settings, check))
      ensures q.form.Parsed? ==> forall k :: 0 <= k < |CHECKS| ==>
        (code == Some(FailureCode(CHECKS[k])) <==> FirstFailure(q, settings, k))
    {
      if q.form.Parsed? {
        RefusalIsFirstFailure(q, settings);
      }
      hide Passes, FirstFailure;
      match q.form
      case Malformed =>
        return Some(NoParametersSupplied);
      case BadField(bad) =>
        return Some(bad);
      case Parsed(fields, digest) =>
        if fields.fromId != q.partner.duns {
          return Some(SenderNotAssociated);
        }
        if fields.toId != settings.duns {
          return Some(InvalidTo);
        }
        if fields.version != q.partner.version {
          return Some(InvalidVersion);
        }
        if Find(Lower(fields.receiptSecurity), PGP_SIGNATURE).None? {
          return Some(InvalidReceiptSecuritySelection);
        }
        if q.partner.useRefnum && !Given(fields.refnum) {
          return Some(RefnumNotPresent);
        }
        return None;
    }

    /** Step 4's search: by refnum, or by digest. */
    method FindEarlier(q: Request) returns (found: bool)
      requires q.form.Parsed?
      ensures found == Finds(tracker.rows, q)
    {
      if q.partner.useRefnum && Given(q.form.fields.refnum) {
        found := tracker.FindRefnumReuse(q.partner.name, q.form.fields.refnum.value, Messages.Inbound);
      } else {
        found := tracker.FindDuplicate(q.partner.name, q.form.digest, Messages.Inbound);
      }
    }

    /**
     How step 4 has ended. A key taken before rules the insert out; nothing else does but a
     call that raises or, unless the request is alone, someone else who comes first.
     */
    ghost predicate Tabled(
      rows: Table, rows': Table, q: Request, decision: Option<Decision>, inserted: Option<MessageId>,
      reply: Option<Answer>
    ) {
      && (inserted.Some? ==>
            decision == Some(Inserted(inserted.value)) && world.fault(Inserting) == Fine && reply.None?)
      && (decision.Some? && decision.value.Inserted? ==>
            && !Clashes(rows, q)
            && (inserted.None? ==> reply.None? && world.fault(Inserting) != Fine))
      && (decision.Some? && decision.value.Duplicate? ==>
            && q.form.Parsed? && decision.value.code == DuplicateCode(q)
            && inserted.None? && reply == TurnedAway(world, decision.value.code)
            && Clashes(rows', q) && (Alone(world) ==> Clashes(rows, q)))
      && (decision.None? ==>
            inserted.None? && reply.None? && (world.fault(Finding) != Fine || world.fault(Inserting) != Fine))
    }

    lemma TabledIs(
      rows: Table, rows': Table, q: Request, decision: Option<Decision>, inserted: Option<MessageId>,
      reply: Option<Answer>)
      ensures Tabled(rows, rows', q, decision, inserted, reply) <==>
        && (inserted.Some? ==>
              decision == Some(Inserted(inserted.value)) && world.fault(Inserting) == Fine && reply.None?)
        && (decision.Some? && decision.value.Inserted? ==>
              && !Clashes(rows, q)
              && (inserted.None? ==> reply.None? && world.fault(Inserting) != Fine))
        && (decision.Some? && decision.value.Duplicate? ==>
              && q.form.Parsed? && decision.value.code == DuplicateCode(q)
              && inserted.None? && reply == TurnedAway(world, decision.value.code)
              && Clashes(rows', q) && (Alone(world) ==> Clashes(rows, q)))
        && (decision.None? ==>
              inserted.None? && reply.None? && (world.fault(Finding) != Fine || world.fault(Inserting) != Fine))
    {
      hide Clashes, DuplicateCode, TurnedAway, Alone;
    }

    /** Step 4: search, insert, and treat a unique violation as the search would have treated a hit. */
    method SearchAndInsert(s: State, r: RequestId, q: Request, transId: nat)
      returns (t: State, reply: Option<Answer>, inserted: Option<MessageId>)
      requires Matches(s) && At(s, r, Finding) && q.form.Parsed?
      requires s.requests[r] == Local(q, Finding, Some(transId), None, None, None)
      modifies tracker
      ensures Matches(t) && Reaches(s, t, settings) && r in t.requests
      ensures t.requests[r].request == q
      ensures
        if inserted.Some?
        then t.requests[r].pc == Decrypting && t.requests[r].decision == Some(Inserted(inserted.value))
        else t.requests[r].pc == if reply.Some? then Answered(reply.value) else Gone
      ensures Tabled(s.rows, t.rows, q, t.requests[r].decision, inserted, reply)
    {
      hide *;
      AtIs(s, r, Finding);
      MatchesIs(s);
      SignsIs(Nack(DuplicateCode(q)), false);
      inserted, reply := None, None;
      t := Await(s, r, Finding);
      LandingIs(Finding);
      if world.fault(Finding) != Fine {
        var u := Fail(t, r);
        ReachesOn(s, t, u, settings);
        TabledIs(s.rows, u.rows, q, u.requests[r].decision, None, None);
        return u, None, None;
      }
      MatchesIs(t);
      ClashStays(s, t, q, settings);
      ClashIs(t.rows, q, Some(transId));
      AtIs(t, r, Finding);
      SearchIs(t, r, settings);
      var found := FindEarlier(q);
      var u := Move(t, Search(r));
      ReachesOn(s, t, u, settings);
      var code := DuplicateCode(q);
      MatchesIs(u);
      if found {
        t, reply := Refuse(u, r, code);
        ClashStays(u, t, q, settings);
      } else {
        t, reply, inserted := TryCreate(u, r, q, transId);
        TabledIs(u.rows, t.rows, q, t.requests[r].decision, inserted, reply);
      }
      ReachesOn(s, u, t, settings);
      TabledIs(s.rows, t.rows, q, t.requests[r].decision, inserted, reply);
    }

    method TryCreate(s: State, r: RequestId, q: Request, transId: nat)
      returns (t: State, reply: Option<Answer>, inserted: Option<MessageId>)
      requires Matches(s) && q.form.Parsed?
      requires r in s.requests && s.requests[r] == Local(q, Inserting, Some(transId), None, None, None)
      modifies tracker
      ensures Matches(t) && Reaches(s, t, settings) && r in t.requests
      ensures t.requests[r].request == q
      ensures
        if inserted.Some?
        then t.requests[r].pc == Decrypting && t.requests[r].decision == Some(Inserted(inserted.value))
        else t.requests[r].pc == if reply.Some? then Answered(reply.value) else Gone
      ensures Tabled(s.rows, t.rows, q, t.requests[r].decision, inserted, reply)
    {
      hide *;
      MatchesIs(s);
      SignsIs(Nack(DuplicateCode(q)), false);
      inserted, reply := None, None;
      t := Await(s, r, Inserting);
      MatchesIs(t);
      AtIs(t, r, Inserting);
      SensibleIs(world, settings, t.rows);
      LandingIs(Inserting);
      if world.fault(Inserting) == RaisesBefore {
        var u := Fail(t, r);
        ReachesOn(s, t, u, settings);
        TabledIs(s.rows, u.rows, q, u.requests[r].decision, None, None);
        return u, None, None;
      }
      ClashStays(s, t, q, settings);
      ClashIs(t.rows, q, Some(transId));
      var m := world.freshId(t.rows);
      InsertIs(t, r, m, world.deliveries, settings);
      InboundRuns.KeysAreUnique(t, settings);
      var created := tracker.Create(Record(q, Some(transId)), m);
      if world.fault(Inserting) == RaisesAfter {
        var u := Move(t, Raise(r, true, m, world.deliveries));
        ReachesOn(s, t, u, settings);
        TabledIs(s.rows, u.rows, q, u.requests[r].decision, None, None);
        return u, None, None;
      }
      var u := Move(t, Insert(r, m));
      ReachesOn(s, t, u, settings);
      if created {
        TabledIs(s.rows, u.rows, q, u.requests[r].decision, Some(m), None);
        return u, None, Some(m);
      }
      MatchesIs(u);
      t, reply := Refuse(u, r, DuplicateCode(q));
      ClashStays(u, t, q, settings);
      ReachesOn(s, u, t, settings);
      TabledIs(s.rows, t.rows, q, t.requests[r].decision, None, reply);
    }

    /** `reject` outside the catch-all's reach. */
    method Refuse(s: State, r: RequestId, code: ErrorCode) returns (t: State, reply: Option<Answer>)
      requires Matches(s) && r in s.requests && s.requests[r].pc == Signing(Nack(code), false)
      modifies tracker
      ensures Matches(t) && Reaches(s, t, settings) && r in t.requests
      ensures t.requests[r] == s.requests[r].(pc := if reply.Some? then Answered(Nack(code)) else Gone)
      ensures reply == TurnedAway(world, code)
    {
      hide *;
      SignsIs(Nack(code), false);
      var signed;
      t, signed := SignReceipt(s, r, Nack(code), false);
      reply := if signed then Some(Nack(code)) else None;
    }

    /**
     The whole handler, from the trans-id on, for an authenticated request. It ends answered
     with the receipt it returns, or with none at all; it and everyone else together have
     taken steps of the protocol only; and the row it inserted, if any, agrees with the
     receipt whichever calls have raised.

     The reply itself is what checks, table, gpg, policy and sinks make it: if no call raises
     there is one, and an inserted request is accepted exactly when it passes all four tests
     of steps 5 to 8 and otherwise rejected with the code of the first it does not pass; the
     system error is the answer only if some call has raised. It is inserted unless its key
     is taken or a call raises, or someone else comes first.
     */
    method Receive(s: State, r: RequestId, q: Request) returns (t: State, reply: Option<Answer>)
      requires Matches(s) && r !in s.requests
      modifies tracker
      ensures Matches(t) && Reaches(s, t, settings) && r in t.requests
      ensures t.requests[r].request == q
      ensures t.requests[r].pc == if reply.Some? then Answered(reply.value) else Gone
      ensures reply.Some? ==> InboundRuns.Agrees(t, t.requests[r], tracker.rows, settings)
      ensures reply.Some? && Refusal(q, settings).Some? ==> reply == Some(Nack(Refusal(q, settings).value))
      ensures |world.deliveries| == |settings.sinks|
      ensures reply == ReplyOf(q, settings, world, t.requests[r].decision)
      ensures if Refusal(q, settings).None? then DecidedFor(q, world, t.requests[r].decision)
              else t.requests[r].decision.None?
      ensures Calm(world) ==> reply.Some?
      ensures Refusal(q, settings).None? && reply == Some(Nack(SystemError)) ==> !Calm(world)
      ensures Calm(world) && t.requests[r].decision.Some? && t.requests[r].decision.value.Inserted? ==>
        && (reply == Some(Ack) <==> forall test :: Meets(q, settings, world, test))
        && forall k :: 0 <= k < |TESTS| ==>
          (reply == Some(Nack(TestCode(TESTS[k]))) <==> FirstUnmet(q, settings, world, k))
      ensures Clashes(s.rows, q) ==> !(t.requests[r].decision.Some? && t.requests[r].decision.value.Inserted?)
      ensures t.requests[r].decision.Some? && t.requests[r].decision.value.Duplicate? ==>
        Clashes(t.rows, q) && (Alone(world) ==> Clashes(s.rows, q))
    {
      hide *;
      MatchesIs(s);
      ArriveIs(s, r, q, settings);
      var a := Move(s, Arrive(r, q));
      t := Await(a, r, Numbering);
      ReachesOn(s, a, t, settings);
      MatchesIs(t);
      AtIs(t, r, Numbering);
      SensibleIs(world, settings, t.rows);
      LandingIs(Numbering);
      UnnumberedReply(q);
      if world.fault(Numbering) == RaisesBefore {
        var u := Fail(t, r);
        ReachesOn(s, t, u, settings);
        return u, None;
      }
      NumberIs(t, r, world.freshId(t.rows), world.deliveries, settings);
      var transId := tracker.NextTransId();
      if world.fault(Numbering) == RaisesAfter {
        var u := Move(t, Raise(r, true, world.freshId(t.rows), world.deliveries));
        ReachesOn(s, t, u, settings);
        return u, None;
      }
      var u := Move(t, TakeNumber(r));
      ReachesOn(s, t, u, settings);
      var v;
      v, reply := CheckAndProcess(u, r, q, transId);
      ReachesOn(s, u, v, settings);
      ClashStays(s, u, q, settings);
      t := v;
      NumberedReply(q, t.requests[r].decision, reply);
      VerdictIsFirstUnmet(q, settings, world);
      MatchesIs(t);
      if reply.Some? {
        InboundRuns.AnswerAgrees(t, settings, r);
      }
    }

    method CheckAndProcess(s: State, r: RequestId, q: Request, transId: nat) returns (t: State, reply: Option<Answer>)
      requires Matches(s) && r in s.requests && s.requests[r] == Local(q, Checking, Some(transId), None, None, None)
      modifies tracker
      ensures Matches(t) && Reaches(s, t, settings) && r in t.requests
      ensures t.requests[r].request == q
      ensures t.requests[r].pc == if reply.Some? then Answered(reply.value) else Gone
      ensures reply.Some? && Refusal(q, settings).Some? ==> reply == Some(Nack(Refusal(q, settings).value))
      ensures |world.deliveries| == |settings.sinks|
      ensures Replies(q, t.requests[r].decision, reply)
      ensures Clashes(s.rows, q) ==> !(t.requests[r].decision.Some? && t.requests[r].decision.value.Inserted?)
      ensures t.requests[r].decision.Some? && t.requests[r].decision.value.Duplicate? ==>
        Clashes(t.rows, q) && (Alone(world) ==> Clashes(s.rows, q))
    {
      hide *;
      MatchesIs(s);
      SensibleIs(world, settings, s.rows);
      AtIs(s, r, Checking);
      CheckIs(s, r, settings);
      var code := CheckEnvelope(q);
      var u := Move(s, CheckForm(r));
      if code.Some? {
        t, reply := Refuse(u, r, code.value);
        ReachesOn(s, u, t, settings);
        SignsIs(Nack(code.value), false);
        RepliesIs(q, None, reply);
        return;
      }
      AtIs(u, r, Finding);
      AcceptedFormIsParsed(q);
      DuplicateCodeIs(q, settings);
      var v, early, inserted := SearchAndInsert(u, r, q, transId);
      ReachesOn(s, u, v, settings);
      TabledIs(u.rows, v.rows, q, v.requests[r].decision, inserted, early);
      if inserted.None? {
        RepliesIs(q, v.requests[r].decision, early);
        return v, early;
      }
      AtIs(v, r, Decrypting);
      var x, done := ProcessInserted(v, r, q, inserted.value);
      ReachesOn(s, v, x, settings);
      if done.Some? {
        RepliesIs(q, x.requests[r].decision, done);
        return x, done;
      }
      AtIs(x, r, Recovering);
      t, reply := CatchAll(x, r, inserted.value);
      ReachesOn(s, x, t, settings);
      RepliesIs(q, t.requests[r].decision, reply);
    }

    /** The reply once the request has its number. */
    ghost predicate Replies(q: Request, decision: Option<Decision>, reply: Option<Answer>)
      requires |world.deliveries| == |settings.sinks|
    {
      match Refusal(q, settings)
      case Some(code) => decision.None? && reply == TurnedAway(world, code)
      case None =>
        match decision
        case None => reply.None? && (world.fault(Finding) != Fine || world.fault(Inserting) != Fine)
        case Some(Duplicate(code)) =>
          && code == (if q.partner.useRefnum then DuplicateRefnum else DuplicateDigest)
          && reply == TurnedAway(world, code)
        case Some(Inserted(_)) =>
          reply == if world.fault(Inserting) != Fine then None
                   else if Unhindered(q, settings, world) then Some(VerdictOn(q, settings, world))
                   else if Recovers(world) then Some(Nack(SystemError))
                   else None
    }

    lemma RepliesIs(q: Request, decision: Option<Decision>, reply: Option<Answer>)
      requires |world.deliveries| == |settings.sinks|
      ensures Refusal(q, settings).Some? ==>
        (Replies(q, decision, reply) <==>
           decision.None? && reply == TurnedAway(world, Refusal(q, settings).value))
      ensures Refusal(q, settings).None? && decision.None? ==>
        (Replies(q, decision, reply) <==>
           reply.None? && (world.fault(Finding) != Fine || world.fault(Inserting) != Fine))
      ensures Refusal(q, settings).None? && decision.Some? && decision.value.Duplicate? ==>
        (Replies(q, decision, reply) <==>
           && decision.value.code == (if q.partner.useRefnum then DuplicateRefnum else DuplicateDigest)
           && reply == TurnedAway(world, decision.value.code))
      ensures Refusal(q, settings).None? && decision.Some? && decision.value.Inserted? ==>
        (Replies(q, decision, reply) <==>
           reply == if world.fault(Inserting) != Fine then None
                    else if Unhindered(q, settings, world) then Some(VerdictOn(q, settings, world))
                    else if Recovers(world) then Some(Nack(SystemError))
                    else None)
    {
      hide Refusal, TurnedAway, Unhindered, VerdictOn, Recovers;
    }

    lemma UnnumberedReply(q: Request)
      requires |world.deliveries| == |settings.sinks|
      ensures world.fault(Numbering) != Fine ==>
        !Calm(world) && ReplyOf(q, settings, world, None) == None && DecidedFor(q, world, None)
    {
      hide Refusal;
    }

    /** What the handler's contract says of the reply, from what was decided. */
    lemma NumberedReply(q: Request, decision: Option<Decision>, reply: Option<Answer>)
      requires |world.deliveries| == |settings.sinks|
      requires world.fault(Numbering) == Fine && Replies(q, decision, reply)
      ensures reply == ReplyOf(q, settings, world, decision)
      ensures if Refusal(q, settings).None? then DecidedFor(q, world, decision) else decision.None?
      ensures Calm(world) ==> reply.Some?
      ensures Refusal(q, settings).None? && reply == Some(Nack(SystemError)) ==> !Calm(world)
      ensures Calm(world) && decision.Some? && decision.value.Inserted? ==>
        reply == Some(VerdictOn(q, settings, world))
    {
      hide *;
      RepliesIs(q, decision, reply);
      ReplyOfIs(q, decision);
      ReplyMeans(q, settings, world, decision);
    }

    lemma ReplyOfIs(q: Request, decision: Option<Decision>)
      requires |world.deliveries| == |settings.sinks| && world.fault(Numbering) == Fine
      ensures forall reply :: Replies(q, decision, reply) ==>
        && reply == ReplyOf(q, settings, world, decision)
        && if Refusal(q, settings).None? then DecidedFor(q, world, decision) else decision.None?
    {
      hide Refusal, Unhindered, VerdictOn, Recovers, TurnedAway;
    }

    lemma AcceptedFormIsParsed(q: Request)
      ensures Refusal(q, settings).None? ==> q.form.Parsed?
    {
    }
  }
}
