/**
 The inbound pipeline as a protocol (app/inbound/routes.py:83-293): any number of racing
 requests over the messages table, each a small program whose every call may raise, its
 effect applied or not, while downstream consumers mark messages processed and the
 outbound side works on its own rows. A step is one call of one request.
 */
module Inbound {
  import opened Wrappers
  import opened Bytes
  import opened Messages
  import opened ErrorCodes
  import opened Sinks

  type RequestId = nat

  datatype Partner = Partner(name: Bytes, duns: Bytes, version: Bytes, useRefnum: bool, requireSignature: bool)

  datatype Fields = Fields(fromId: Bytes, toId: Bytes, version: Bytes, receiptSecurity: Bytes, refnum: Option<Bytes>)

  /** The parsed form: nothing usable, a field the envelope rules refuse, or fields and the ciphertext's digest. */
  datatype Form = Malformed | BadField(code: ErrorCode) | Parsed(fields: Fields, digest: Bytes)

  datatype Request = Request(partner: Partner, form: Form)

  datatype Settings = Settings(duns: Bytes, requireDurable: bool, sinks: seq<Sink>)

  // ------------------------------------------------------------------
  // Before the table is touched
  // ------------------------------------------------------------------

  const PGP_SIGNATURE: Bytes := "pgp-signature"

  /** Python's truth of an optional string. */
  predicate Given(text: Option<Bytes>) {
    text.Some? && text.value != []
  }

  function Refusal(q: Request, settings: Settings): Option<ErrorCode> {
    match q.form
    case Malformed => Some(NoParametersSupplied)
    case BadField(code) => Some(code)
    case Parsed(fields, _) =>
      if fields.fromId != q.partner.duns then Some(SenderNotAssociated)
      else if fields.toId != settings.duns then Some(InvalidTo)
      else if fields.version != q.partner.version then Some(InvalidVersion)
      else if Find(Lower(fields.receiptSecurity), PGP_SIGNATURE).None? then Some(InvalidReceiptSecuritySelection)
      else if q.partner.useRefnum && !Given(fields.refnum) then Some(RefnumNotPresent)
      else None
  }

  /** The checks on a parsed form, in order, and the code each failure is answered with. */
  datatype Check = SenderCheck | AddresseeCheck | VersionCheck | SecurityCheck | RefnumCheck

  const CHECKS: seq<Check> := [SenderCheck, AddresseeCheck, VersionCheck, SecurityCheck, RefnumCheck]

  ghost predicate Passes(q: Request, settings: Settings, check: Check)
    requires q.form.Parsed?
  {
    var fields := q.form.fields;
    match check
    case SenderCheck => fields.fromId == q.partner.duns
    case AddresseeCheck => fields.toId == settings.duns
    case VersionCheck => fields.version == q.partner.version
    case SecurityCheck => Contains(Lower(fields.receiptSecurity), PGP_SIGNATURE)
    case RefnumCheck => q.partner.useRefnum ==> fields.refnum.Some? && fields.refnum.value != []
  }

  function FailureCode(check: Check): ErrorCode {
    match check
    case SenderCheck => SenderNotAssociated
    case AddresseeCheck => InvalidTo
    case VersionCheck => InvalidVersion
    case SecurityCheck => InvalidReceiptSecuritySelection
    case RefnumCheck => RefnumNotPresent
  }

  /** The check fails, and all those before it pass. */
  ghost predicate FirstFailure(q: Request, settings: Settings, k: int)
    requires q.form.Parsed? && 0 <= k < |CHECKS|
  {
    !Passes(q, settings, CHECKS[k]) && forall i :: 0 <= i < k ==> Passes(q, settings, CHECKS[i])
  }

  /**
   A parsed form is refused if and only if one of the five checks fails, and with a given
   code if and only if that is the code of the first that does.
   */
  lemma RefusalIsFirstFailure(q: Request, settings: Settings)
    requires q.form.Parsed?
    ensures Refusal(q, settings).None? <==> forall check :: Passes(q, settings, check)
    ensures forall k :: 0 <= k < |CHECKS| ==>
      (Refusal(q, settings) == Some(FailureCode(CHECKS[k])) <==> FirstFailure(q, settings, k))
  {
    hide Find, Contains, Lower, PGP_SIGNATURE;
    SearchFinds(Lower(q.form.fields.receiptSecurity));
    assert Refusal(q, settings).None? <==>
      && Passes(q, settings, SenderCheck) && Passes(q, settings, AddresseeCheck) && Passes(q, settings, VersionCheck)
      && Passes(q, settings, SecurityCheck) && Passes(q, settings, RefnumCheck);
    forall k | 0 <= k < |CHECKS|
      ensures Refusal(q, settings) == Some(FailureCode(CHECKS[k])) <==> FirstFailure(q, settings, k)
    {
      assert CHECKS[0] == SenderCheck && CHECKS[1] == AddresseeCheck && CHECKS[2] == VersionCheck
          && CHECKS[3] == SecurityCheck && CHECKS[4] == RefnumCheck;
    }
  }

  lemma SearchFinds(s: Bytes)
    ensures Find(s, PGP_SIGNATURE).None? <==> !Contains(s, PGP_SIGNATURE)
  {
    hide PGP_SIGNATURE;
  }

  /** The row a request inserts. */
  function Record(q: Request, transId: Option<nat>): Row
    requires q.form.Parsed?
  {
    var fields := q.form.fields;
    Row(Messages.Inbound, q.partner.name, q.form.digest, fields.fromId, fields.toId, fields.refnum, Processing,
        None, None, transId)
  }

  predicate ByRefnum(q: Request)
    requires q.form.Parsed?
  {
    q.partner.useRefnum && Given(q.form.fields.refnum)
  }

  /** The reply to a duplicate depends on how the partner is tracked, not on which key clashed. */
  function DuplicateCode(q: Request): ErrorCode
    requires q.form.Parsed?
  {
    if ByRefnum(q) then DuplicateRefnum else DuplicateDigest
  }

  /** The search before the insert: by refnum for a partner tracked so, otherwise by digest. */
  predicate Finds(rows: Table, q: Request)
    requires q.form.Parsed?
  {
    if ByRefnum(q)
    then exists m ::
      && m in rows && rows[m].partner == q.partner.name && rows[m].refnum == q.form.fields.refnum
      && rows[m].direction == Messages.Inbound
    else exists m ::
      && m in rows && rows[m].partner == q.partner.name && rows[m].digest == q.form.digest
      && rows[m].direction == Messages.Inbound
  }

  // ------------------------------------------------------------------
  // A request under way
  // ------------------------------------------------------------------

  /** What the answer says; its receipt is Ack's ok receipt or the code's rejected one. */
  datatype Answer = Ack | Nack(code: ErrorCode)

  /** gpg's result on the ciphertext, and whether the cryptographic policy finds its algorithms too weak. */
  datatype Decryption = Undecryptable | Decrypted(signatureOk: bool, weak: bool)

  /** The call a request is about to make. */
  datatype Pc =
    | Numbering
    | Checking
    | Finding
    | Inserting
    | Decrypting
    | Delivering
    | Recording
    | Updating(answer: Answer)
    | Recovering                                // the catch-all's own update
    | Signing(answer: Answer, guarded: bool)    // guarded: inside the catch-all's reach
    | Answered(answer: Answer)
    | Gone                                      // an unsigned error, or the process died

  /** Auxiliary: what became of the request at the table. */
  datatype Decision = Inserted(m: MessageId) | Duplicate(code: ErrorCode)

  datatype Local = Local(
    request: Request,
    pc: Pc,
    transId: Option<nat>,
    decision: Option<Decision>,
    decryption: Option<Decryption>,
    deliveries: Option<seq<Delivery>>
  )

  /** Auxiliary: the decisions in the order they were taken. */
  datatype Entry = Entry(r: RequestId, request: Request, decision: Decision)

  datatype State = State(
    rows: Table,
    lastTransId: nat,
    requests: map<RequestId, Local>,
    handed: set<MessageId>,          // auxiliary: every message a downstream consumer was told it updated
    log: seq<Entry>                  // auxiliary
  )

  /** Which verdict on the decrypted message ends the pipeline early, if any. */
  function Objection(q: Request, d: Decryption): Option<ErrorCode> {
    if d.Undecryptable? then Some(DecryptionError)
    else if !d.signatureOk && q.partner.requireSignature then Some(SignatureNotMatched)
    else if d.weak then Some(WeakAlgorithm)
    else None
  }

  predicate DurableEnough(settings: Settings, deliveries: seq<Delivery>)
    requires |deliveries| == |settings.sinks|
  {
    settings.requireDurable ==> HasDurableSuccess(settings.sinks, FanOut(settings.sinks, deliveries))
  }

  function Verified(l: Local): Option<bool> {
    if l.decryption.Some? && l.decryption.value.Decrypted? then Some(l.decryption.value.signatureOk) else None
  }

  /** The row update that goes with an answer. */
  function Answering(rows: Table, m: MessageId, l: Local, answer: Answer): Table {
    match answer
    case Ack => UpdateStatus(rows, m, Accepted, None, Verified(l))
    case Nack(code) =>
      UpdateStatus(rows, m, Rejected, Some(Value(code)), if code == SignatureNotMatched then Some(false) else None)
  }

  // ------------------------------------------------------------------
  // Steps
  // ------------------------------------------------------------------

  datatype Step =
    | Arrive(r: RequestId, request: Request)
    | TakeNumber(r: RequestId)
    | CheckForm(r: RequestId)
    | Search(r: RequestId)
    | Insert(r: RequestId, m: MessageId)
    | Decrypt(r: RequestId, result: Decryption)
    | Deliver(r: RequestId, results: seq<Delivery>)
    | RecordSinks(r: RequestId)
    | Update(r: RequestId)
    | Recover(r: RequestId)
    | Sign(r: RequestId)
    | Raise(r: RequestId, applied: bool, m: MessageId, results: seq<Delivery>)
    | Crash(r: RequestId)
    | MarkProcessed(ids: seq<MessageId>, status: Status)
    | OutboundActivity(rows: Table)

  /** Outbound rows come and change, inbound rows do not move. */
  predicate InboundUntouched(rows: Table, rows': Table) {
    && (forall m :: m in rows && rows[m].direction == Messages.Inbound ==> m in rows' && rows'[m] == rows[m])
    && (forall m :: m in rows' && rows'[m].direction == Messages.Inbound ==> m in rows)
    && (forall m :: m in rows ==> m in rows' && rows'[m].direction == rows[m].direction)
  }

  /** No outbound message is ever up for downstream consumption. */
  predicate OutboundNeverAccepted(rows: Table) {
    forall m :: m in rows && rows[m].direction == Messages.Outbound ==> rows[m].status != Accepted
  }

  predicate At(s: State, r: RequestId, pc: Pc) {
    r in s.requests && s.requests[r].pc == pc
  }

  predicate Active(s: State, r: RequestId) {
    r in s.requests && !s.requests[r].pc.Answered? && !s.requests[r].pc.Gone?
  }

  predicate Enabled(s: State, step: Step, settings: Settings) {
    match step
    case Arrive(r, _) => r !in s.requests
    case TakeNumber(r) => At(s, r, Numbering)
    case CheckForm(r) => At(s, r, Checking)
    case Search(r) => At(s, r, Finding)
    case Insert(r, m) => At(s, r, Inserting) && m !in s.rows
    case Decrypt(r, _) => At(s, r, Decrypting)
    case Deliver(r, results) => At(s, r, Delivering) && |results| == |settings.sinks|
    case RecordSinks(r) => At(s, r, Recording)
    case Update(r) => r in s.requests && s.requests[r].pc.Updating?
    case Recover(r) => At(s, r, Recovering)
    case Sign(r) => r in s.requests && s.requests[r].pc.Signing?
    case Raise(r, _, m, results) =>
      && Active(s, r) && s.requests[r].pc != Checking && m !in s.rows
      && |results| == |settings.sinks|
    case Crash(r) => Active(s, r)
    case MarkProcessed(_, status) => !Reserved(status)
    case OutboundActivity(rows) => InboundUntouched(s.rows, rows) && KeysUnique(rows) && OutboundNeverAccepted(rows)
  }

  function With(s: State, r: RequestId, l: Local): State {
    s.(requests := s.requests[r := l])
  }

  function Decided(s: State, r: RequestId, d: Decision, pc: Pc): State
    requires r in s.requests
  {
    var l := s.requests[r];
    With(s, r, l.(pc := pc, decision := Some(d))).(log := s.log + [Entry(r, l.request, d)])
  }

  function Checked(l: Local, settings: Settings): Local {
    match Refusal(l.request, settings)
    case Some(code) => l.(pc := Signing(Nack(code), false))
    case None => l.(pc := Finding)
  }

  function Searched(s: State, r: RequestId): State
    requires r in s.requests
  {
    var l := s.requests[r];
    if !l.request.form.Parsed? then s
    else if Finds(s.rows, l.request) then
      var code := DuplicateCode(l.request);
      Decided(s, r, Duplicate(code), Signing(Nack(code), false))
    else With(s, r, l.(pc := Inserting))
  }

  /** The insert and its unique-violation handler; `pc` is where a successful insert leads. */
  function TryInsert(s: State, r: RequestId, m: MessageId, pc: Pc): State
    requires r in s.requests
  {
    var l := s.requests[r];
    if !l.request.form.Parsed? then s
    else if Conflicts(s.rows, Record(l.request, l.transId)) then
      var code := DuplicateCode(l.request);
      Decided(s, r, Duplicate(code), Signing(Nack(code), false))
    else
      Decided(s, r, Inserted(m), pc).(rows := s.rows[m := Record(l.request, l.transId)])
  }

  function Judged(l: Local, d: Decryption): Local {
    match Objection(l.request, d)
    case Some(code) => l.(pc := Updating(Nack(code)), decryption := Some(d))
    case None => l.(pc := Delivering, decryption := Some(d))
  }

  function Recorded(l: Local, settings: Settings): Local {
    if l.deliveries.Some? && |l.deliveries.value| == |settings.sinks| && !DurableEnough(settings, l.deliveries.value)
    then l.(pc := Updating(Nack(SinkFailure)))
    else l.(pc := Updating(Ack))
  }

  /** The message row, if any, after the update an answer calls for. */
  function RowsAfter(s: State, r: RequestId, answer: Answer): Table
    requires r in s.requests
  {
    var l := s.requests[r];
    if l.decision.Some? && l.decision.value.Inserted? then Answering(s.rows, l.decision.value.m, l, answer) else s.rows
  }

  /** The effect a raising call may have had before it raised. */
  function Applied(s: State, r: RequestId, m: MessageId, results: seq<Delivery>): State
    requires r in s.requests
  {
    var l := s.requests[r];
    match l.pc
    case Numbering => s.(lastTransId := s.lastTransId + 1)
    case Inserting =>
      if l.request.form.Parsed? && !Conflicts(s.rows, Record(l.request, l.transId)) then TryInsert(s, r, m, Gone) else s
    case Delivering => With(s, r, l.(deliveries := Some(results)))
    case Updating(answer) => s.(rows := RowsAfter(s, r, answer))
    case Recovering => s.(rows := RowsAfter(s, r, Nack(SystemError)))
    case _ => s
  }

  /** Where an exception lands: in the catch-all, or outside every handler. */
  function Landing(pc: Pc): Pc {
    match pc
    case Decrypting => Recovering
    case Delivering => Recovering
    case Recording => Recovering
    case Updating(_) => Recovering
    case Signing(_, guarded) => if guarded then Recovering else Gone
    case _ => Gone
  }

  function Raising(s: State, r: RequestId, applied: bool, m: MessageId, results: seq<Delivery>): State
    requires r in s.requests
  {
    var t := if applied then Applied(s, r, m, results) else s;
    if r in t.requests then With(t, r, t.requests[r].(pc := Landing(s.requests[r].pc))) else t
  }

  function Apply(s: State, step: Step, settings: Settings): State
    requires Enabled(s, step, settings)
  {
    match step
    case Arrive(r, request) => With(s, r, Local(request, Numbering, None, None, None, None))
    case TakeNumber(r) =>
      With(s, r, s.requests[r].(pc := Checking, transId := Some(s.lastTransId + 1))).(lastTransId := s.lastTransId + 1)
    case CheckForm(r) => With(s, r, Checked(s.requests[r], settings))
    case Search(r) => Searched(s, r)
    case Insert(r, m) => TryInsert(s, r, m, Decrypting)
    case Decrypt(r, result) => With(s, r, Judged(s.requests[r], result))
    case Deliver(r, results) => With(s, r, s.requests[r].(pc := Recording, deliveries := Some(results)))
    case RecordSinks(r) => With(s, r, Recorded(s.requests[r], settings))
    case Update(r) =>
      var answer := s.requests[r].pc.answer;
      With(s, r, s.requests[r].(pc := Signing(answer, true))).(rows := RowsAfter(s, r, answer))
    case Recover(r) =>
      With(s, r, s.requests[r].(pc := Signing(Nack(SystemError), false))).(rows := RowsAfter(s, r, Nack(SystemError)))
    case Sign(r) => With(s, r, s.requests[r].(pc := Answered(s.requests[r].pc.answer)))
    case Raise(r, applied, m, results) => Raising(s, r, applied, m, results)
    case Crash(r) => With(s, r, s.requests[r].(pc := Gone))
    case MarkProcessed(ids, status) =>
      s.(rows := MarkAll(s.rows, Eligible(s.rows, ids), status), handed := s.handed + Eligible(s.rows, ids))
    case OutboundActivity(rows) => s.(rows := rows)
  }

  predicate Init(s: State) {
    && s.requests == map[] && s.handed == {} && s.log == []
    && KeysUnique(s.rows) && OutboundNeverAccepted(s.rows)
  }

  ghost predicate Run(states: seq<State>, steps: seq<Step>, settings: Settings) {
    && |states| == |steps| + 1
    && Init(states[0])
    && forall i :: 0 <= i < |steps| ==>
         Enabled(states[i], steps[i], settings) && states[i + 1] == Apply(states[i], steps[i], settings)
  }
}
