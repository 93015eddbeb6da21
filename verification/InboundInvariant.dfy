/** The inbound protocol's invariant, group by group, and that every step keeps it. */
module InboundInvariant {
  import opened Wrappers
  import opened Messages
  import opened ErrorCodes
  import opened Sinks
  import opened Inbound

  // ------------------------------------------------------------------
  // What a request knows at each point of its program
  // ------------------------------------------------------------------

  /** Everything an ok receipt stands for. */
  predicate Justified(l: Local, settings: Settings) {
    && l.decryption.Some? && Objection(l.request, l.decryption.value).None?
    && l.deliveries.Some? && |l.deliveries.value| == |settings.sinks| && DurableEnough(settings, l.deliveries.value)
  }

  predicate ProcessingCode(code: ErrorCode) {
    code in {DecryptionError, SignatureNotMatched, WeakAlgorithm, SinkFailure, SystemError}
  }

  /** The answer follows from what became of the request: refused, a duplicate, or processed. */
  predicate Fits(l: Local, answer: Answer, settings: Settings) {
    match l.decision
    case None => answer.Nack? && Refusal(l.request, settings) == Some(answer.code)
    case Some(Duplicate(code)) => answer == Nack(code)
    case Some(Inserted(_)) => if answer.Ack? then Justified(l, settings) else ProcessingCode(answer.code)
  }

  predicate Owns(l: Local, m: MessageId) {
    l.decision == Some(Inserted(m))
  }

  predicate HasRow(l: Local) {
    l.decision.Some? && l.decision.value.Inserted?
  }

  predicate Fresh(l: Local) {
    l.decision.None? && l.decryption.None? && l.deliveries.None?
  }

  predicate Progress(l: Local, settings: Settings) {
    && (l.decision.Some? ==>
          Refusal(l.request, settings).None? && l.transId.Some?
          && (l.decision.value.Duplicate? ==> l.decision.value.code == DuplicateCode(l.request)))
    && match l.pc
       case Numbering => Fresh(l) && l.transId.None?
       case Checking => Fresh(l) && l.transId.Some?
       case Finding => Fresh(l) && l.transId.Some? && Refusal(l.request, settings).None?
       case Inserting => Fresh(l) && l.transId.Some? && Refusal(l.request, settings).None?
       case Decrypting => HasRow(l) && l.decryption.None? && l.deliveries.None?
       case Delivering =>
         && HasRow(l) && l.decryption.Some? && Objection(l.request, l.decryption.value).None?
         && l.deliveries.None?
       case Recording => HasRow(l) && l.decryption.Some? && Objection(l.request, l.decryption.value).None?
                         && l.deliveries.Some? && |l.deliveries.value| == |settings.sinks|
       case Updating(answer) => HasRow(l) && Fits(l, answer, settings)
       case Recovering => HasRow(l)
       case Signing(answer, guarded) => l.transId.Some? && Fits(l, answer, settings) && (guarded ==> HasRow(l))
       case Answered(answer) => l.transId.Some? && Fits(l, answer, settings)
       case Gone => true
  }

  // ------------------------------------------------------------------
  // What its row shows
  // ------------------------------------------------------------------

  /** The pipeline has not yet settled on a status for its row. */
  predicate Unsettled(pc: Pc) {
    pc.Decrypting? || pc.Delivering? || pc.Recording? || pc.Updating?
  }

  /** The row agrees with an answer; an accepted row may since have been handed downstream. */
  predicate Shows(l: Local, row: Row, handed: bool, answer: Answer) {
    match answer
    case Ack =>
      && (row.status == Accepted || (handed && !Reserved(row.status)))
      && row.errorCode == None && row.receiptVerified == Verified(l)
    case Nack(code) => row.status == Rejected && row.errorCode == Some(Value(code))
  }

  predicate RowAgrees(l: Local, rows: Table, handed: set<MessageId>) {
    HasRow(l) ==>
      var m := l.decision.value.m;
      && m in rows && l.request.form.Parsed? && SameIdentity(Record(l.request, l.transId), rows[m])
      && (Unsettled(l.pc) ==> rows[m].status == Processing)
      && (l.pc.Signing? || l.pc.Answered? ==> Shows(l, rows[m], m in handed, l.pc.answer))
  }

  // ------------------------------------------------------------------
  // The state as a whole
  // ------------------------------------------------------------------

  ghost predicate ProgressInv(s: State, settings: Settings) {
    forall r :: r in s.requests ==> Progress(s.requests[r], settings)
  }

  ghost predicate RowInv(s: State) {
    forall r :: r in s.requests ==> RowAgrees(s.requests[r], s.rows, s.handed)
  }

  ghost predicate OwnerInv(s: State) {
    forall r, r', m :: r in s.requests && r' in s.requests && Owns(s.requests[r], m) && Owns(s.requests[r'], m) ==>
      r == r'
  }

  predicate SameNumber(a: Local, b: Local) {
    a.transId.Some? && a.transId == b.transId
  }

  ghost predicate NumberInv(s: State) {
    && (forall r :: r in s.requests && s.requests[r].transId.Some? ==> s.requests[r].transId.value <= s.lastTransId)
    && (forall r, r' :: r in s.requests && r' in s.requests && SameNumber(s.requests[r], s.requests[r']) ==> r == r')
  }

  ghost predicate TableInv(s: State) {
    && KeysUnique(s.rows) && OutboundNeverAccepted(s.rows)
    && (forall m :: m in s.handed ==>
          && m in s.rows && s.rows[m].direction == Messages.Inbound && s.rows[m].status != Accepted
          && s.rows[m].status != Processing)
  }

  ghost predicate LogInv(s: State) {
    && (forall i :: 0 <= i < |s.log| ==> LoggedAt(s, i))
    && (forall i, k :: 0 <= i < k < |s.log| ==> s.log[i].r != s.log[k].r)
    && (forall r :: r in s.requests && s.requests[r].decision.Some? ==> Logged(s, r))
  }

  predicate LoggedAt(s: State, i: int)
    requires 0 <= i < |s.log|
  {
    var e := s.log[i];
    e.r in s.requests && s.requests[e.r].request == e.request && s.requests[e.r].decision == Some(e.decision)
  }

  predicate Logged(s: State, r: RequestId) {
    exists i :: 0 <= i < |s.log| && s.log[i].r == r
  }

  ghost predicate Inv(s: State, settings: Settings) {
    ProgressInv(s, settings) && RowInv(s) && OwnerInv(s) && NumberInv(s) && TableInv(s) && LogInv(s)
  }

  // ------------------------------------------------------------------
  // How a step moves requests and rows
  // ------------------------------------------------------------------

  /** The request whose step it is. */
  function Actor(step: Step): Option<RequestId> {
    match step
    case Arrive(r, _) => Some(r)
    case TakeNumber(r) => Some(r)
    case CheckForm(r) => Some(r)
    case Search(r) => Some(r)
    case Insert(r, _) => Some(r)
    case Decrypt(r, _) => Some(r)
    case Deliver(r, _) => Some(r)
    case RecordSinks(r) => Some(r)
    case Update(r) => Some(r)
    case Recover(r) => Some(r)
    case Sign(r) => Some(r)
    case Raise(r, _, _, _) => Some(r)
    case Crash(r) => Some(r)
    case MarkProcessed(_, _) => None
    case OutboundActivity(_) => None
  }

  /** A step moves its own request only. */
  lemma OthersStay(s: State, step: Step, settings: Settings)
    requires Enabled(s, step, settings)
    ensures var t := Apply(s, step, settings);
      && (forall r :: r in s.requests && Some(r) != Actor(step) ==> r in t.requests && t.requests[r] == s.requests[r])
      && (forall r :: r in t.requests && Some(r) != Actor(step) ==> r in s.requests)
      && (Actor(step).Some? ==> Actor(step).value in t.requests)
  {
    hide Finds, Conflicts, Record, Answering, Checked, Judged, Recorded, KeysUnique, MarkAll, Eligible;
  }

  /** Its own request keeps what is already known about it. */
  lemma KnownStays(s: State, step: Step, settings: Settings, r: RequestId)
    requires Enabled(s, step, settings) && ProgressInv(s, settings) && r in s.requests
    ensures var t := Apply(s, step, settings);
      && r in t.requests && t.requests[r].request == s.requests[r].request
      && (s.requests[r].transId.Some? ==> t.requests[r].transId == s.requests[r].transId)
      && (s.requests[r].decision.Some? ==> t.requests[r].decision == s.requests[r].decision)
      && (s.requests[r].deliveries.Some? ==> t.requests[r].deliveries == s.requests[r].deliveries)
  {
    hide Finds, Conflicts, Record, Answering, KeysUnique, MarkAll, Eligible, Objection, Refusal, Fits, DurableEnough;
    OthersStay(s, step, settings);
    assert Progress(s.requests[r], settings);
  }

  // ------------------------------------------------------------------
  // Progress
  // ------------------------------------------------------------------

  lemma ProgressStep(s: State, step: Step, settings: Settings)
    requires Enabled(s, step, settings) && ProgressInv(s, settings)
    ensures ProgressInv(Apply(s, step, settings), settings)
  {
    var t := Apply(s, step, settings);
    OthersStay(s, step, settings);
    forall r | r in t.requests ensures Progress(t.requests[r], settings) {
      if Some(r) == Actor(step) {
        OwnProgress(s, step, settings, r);
      }
    }
  }

  lemma OwnProgress(s: State, step: Step, settings: Settings, r: RequestId)
    requires Enabled(s, step, settings) && ProgressInv(s, settings) && Actor(step) == Some(r)
    ensures r in Apply(s, step, settings).requests && Progress(Apply(s, step, settings).requests[r], settings)
  {
    hide *;
    KnownProgress(s, settings, r);
    if step.Raise? {
      RaiseProgress(s, step, settings, r);
    } else if step.Insert? || step.Search? {
      DecideProgress(s, step, settings, r);
    } else {
      QuietProgress(s, step, settings, r);
    }
  }

  lemma KnownProgress(s: State, settings: Settings, r: RequestId)
    requires ProgressInv(s, settings)
    ensures r in s.requests ==> Progress(s.requests[r], settings)
  {
    hide Progress;
  }

  lemma RaiseProgress(s: State, step: Step, settings: Settings, r: RequestId)
    requires Enabled(s, step, settings) && step.Raise? && Actor(step) == Some(r)
    requires r in s.requests ==> Progress(s.requests[r], settings)
    ensures r in Apply(s, step, settings).requests && Progress(Apply(s, step, settings).requests[r], settings)
  {
    hide Finds, Conflicts, Record, Answering, KeysUnique, DurableEnough, Refusal, Objection, Fits, DuplicateCode;
  }

  lemma DecideProgress(s: State, step: Step, settings: Settings, r: RequestId)
    requires Enabled(s, step, settings) && (step.Insert? || step.Search?) && Actor(step) == Some(r)
    requires r in s.requests ==> Progress(s.requests[r], settings)
    ensures r in Apply(s, step, settings).requests && Progress(Apply(s, step, settings).requests[r], settings)
  {
    hide Finds, Conflicts, Record, Answering, KeysUnique, DurableEnough, Refusal, Objection, DuplicateCode,
         Raising, Applied;
  }

  lemma QuietProgress(s: State, step: Step, settings: Settings, r: RequestId)
    requires Enabled(s, step, settings) && !step.Raise? && !step.Insert? && !step.Search? && Actor(step) == Some(r)
    requires r in s.requests ==> Progress(s.requests[r], settings)
    ensures r in Apply(s, step, settings).requests && Progress(Apply(s, step, settings).requests[r], settings)
  {
    hide TryInsert, Searched, Raising, Applied, Finds, Conflicts, Record, Answering, KeysUnique, DurableEnough, Refusal,
         MarkAll, Eligible, DuplicateCode;
  }

  // ------------------------------------------------------------------
  // Ownership, numbers, the log
  // ------------------------------------------------------------------

  lemma NewOwner(s: State, step: Step, settings: Settings, r: RequestId, m: MessageId)
    requires Enabled(s, step, settings) && r in Apply(s, step, settings).requests
    requires Owns(Apply(s, step, settings).requests[r], m)
    ensures (r in s.requests && Owns(s.requests[r], m)) || (Actor(step) == Some(r) && m !in s.rows)
  {
    OthersStay(s, step, settings);
    hide Finds, Conflicts, Record, Answering, KeysUnique, MarkAll, Eligible, DurableEnough, Refusal, Objection;
  }

  lemma OwnerStep(s: State, step: Step, settings: Settings)
    requires Enabled(s, step, settings) && OwnerInv(s) && RowInv(s)
    ensures OwnerInv(Apply(s, step, settings))
  {
    var t := Apply(s, step, settings);
    forall r, r', m | r in t.requests && r' in t.requests && Owns(t.requests[r], m) && Owns(t.requests[r'], m)
      ensures r == r'
    {
      NewOwner(s, step, settings, r, m);
      NewOwner(s, step, settings, r', m);
      OwnedExists(s, r, m);
      OwnedExists(s, r', m);
    }
  }

  lemma OwnedExists(s: State, r: RequestId, m: MessageId)
    requires RowInv(s)
    ensures r in s.requests && Owns(s.requests[r], m) ==> m in s.rows
  {
    assert r in s.requests ==> RowAgrees(s.requests[r], s.rows, s.handed);
  }

  predicate Old(s: State, t: State, r: RequestId)
    requires r in t.requests
  {
    r in s.requests && t.requests[r].transId == s.requests[r].transId
  }

  predicate OldOrLast(s: State, t: State, r: RequestId)
    requires r in t.requests && t.requests[r].transId.Some?
  {
    Old(s, t, r) || t.requests[r].transId.value == t.lastTransId > s.lastTransId
  }

  lemma NumberStep(s: State, step: Step, settings: Settings)
    requires Enabled(s, step, settings) && NumberInv(s) && ProgressInv(s, settings)
    ensures NumberInv(Apply(s, step, settings))
  {
    hide *;
    var t := Apply(s, step, settings);
    OthersStay(s, step, settings);
    NumbersMove(s, step, settings);
    NumberInvIs(s);
    NumberInvIs(t);
    forall r | r in t.requests && t.requests[r].transId.Some?
      ensures t.requests[r].transId.value <= t.lastTransId && OldOrLast(s, t, r)
    {
      OldOrLastIs(s, t, r);
    }
    forall r, r' | r in t.requests && r' in t.requests && SameNumber(t.requests[r], t.requests[r']) ensures r == r' {
      SameNumberIs(t.requests[r], t.requests[r']);
      OldOrLastIs(s, t, r);
      OldOrLastIs(s, t, r');
      if r in s.requests && r' in s.requests {
        SameNumberIs(s.requests[r], s.requests[r']);
      }
    }
  }

  lemma NumberInvIs(s: State)
    ensures NumberInv(s) <==>
      && (forall r :: r in s.requests && s.requests[r].transId.Some? ==> s.requests[r].transId.value <= s.lastTransId)
      && (forall r, r' :: r in s.requests && r' in s.requests && SameNumber(s.requests[r], s.requests[r']) ==> r == r')
  {
    hide SameNumber;
  }

  lemma SameNumberIs(a: Local, b: Local)
    ensures SameNumber(a, b) <==> a.transId.Some? && a.transId == b.transId
  {
  }

  lemma OldOrLastIs(s: State, t: State, r: RequestId)
    requires r in t.requests && t.requests[r].transId.Some?
    ensures OldOrLast(s, t, r) <==>
      (r in s.requests && t.requests[r].transId == s.requests[r].transId)
      || t.requests[r].transId.value == t.lastTransId > s.lastTransId
  {
  }

  lemma NumbersMove(s: State, step: Step, settings: Settings)
    requires Enabled(s, step, settings) && ProgressInv(s, settings)
    ensures var t := Apply(s, step, settings);
      && s.lastTransId <= t.lastTransId
      && (Actor(step).Some? ==>
            var r := Actor(step).value;
            && r in t.requests
            && (t.requests[r].transId.Some? ==>
                  || (r in s.requests && t.requests[r].transId == s.requests[r].transId)
                  || (t.requests[r].transId.value == t.lastTransId > s.lastTransId)))
  {
    hide Finds, Conflicts, Record, Answering, KeysUnique, MarkAll, Eligible, DurableEnough, Refusal, Objection;
  }

  /** The log grows exactly when the acting request's fate is decided, by that decision. */
  predicate LogMoves(s: State, t: State, r: RequestId) {
    r in t.requests
    && if t.log == s.log then (t.requests[r].decision.Some? ==>
            r in s.requests && s.requests[r].decision == t.requests[r].decision)
       else
         && r in s.requests && s.requests[r].decision.None?
         && t.requests[r].decision.Some? && t.requests[r].request == s.requests[r].request
         && t.log == s.log + [Entry(r, s.requests[r].request, t.requests[r].decision.value)]
  }

  lemma QuietLog(s: State, step: Step, settings: Settings)
    requires Enabled(s, step, settings) && !step.Raise? && !step.Insert? && !step.Search?
    ensures var t := Apply(s, step, settings);
      t.log == s.log && (Actor(step).Some? ==> LogMoves(s, t, Actor(step).value))
  {
    hide TryInsert, Searched, Raising, Applied, Finds, Conflicts, Record, KeysUnique, DurableEnough, Refusal,
         Objection, MarkAll, Eligible;
  }

  lemma DecideLog(s: State, step: Step, settings: Settings)
    requires Enabled(s, step, settings) && (step.Insert? || step.Search?) && Progress(s.requests[step.r], settings)
    ensures LogMoves(s, Apply(s, step, settings), step.r)
  {
    hide Raising, Applied, Finds, Conflicts, Record, KeysUnique, DurableEnough, Refusal, Objection, DuplicateCode, Fits;
  }

  lemma RaiseLog(s: State, step: Step, settings: Settings)
    requires Enabled(s, step, settings) && step.Raise? && Progress(s.requests[step.r], settings)
    ensures LogMoves(s, Apply(s, step, settings), step.r)
  {
    hide Finds, Conflicts, Record, KeysUnique, DurableEnough, Refusal, Objection, DuplicateCode, Fits, Answering;
  }

  lemma LogMove(s: State, step: Step, settings: Settings)
    requires Enabled(s, step, settings) && ProgressInv(s, settings)
    ensures var t := Apply(s, step, settings);
      if t.log == s.log
      then forall r :: r in t.requests && t.requests[r].decision.Some? ==>
        r in s.requests && s.requests[r].decision == t.requests[r].decision
      else Actor(step).Some? && var r := Actor(step).value;
        && r in s.requests && s.requests[r].decision.None?
        && r in t.requests && t.requests[r].decision.Some? && t.requests[r].request == s.requests[r].request
        && t.log == s.log + [Entry(r, s.requests[r].request, t.requests[r].decision.value)]
  {
    OthersStay(s, step, settings);
    if step.Raise? || step.Insert? || step.Search? {
      KnownProgress(s, settings, step.r);
      if step.Raise? {
        RaiseLog(s, step, settings);
      } else {
        DecideLog(s, step, settings);
      }
    } else {
      QuietLog(s, step, settings);
    }
    hide Enabled, Apply, ProgressInv;
  }

  lemma LogStep(s: State, step: Step, settings: Settings)
    requires Enabled(s, step, settings) && LogInv(s) && ProgressInv(s, settings)
    ensures LogInv(Apply(s, step, settings))
  {
    hide *;
    var t := Apply(s, step, settings);
    LogMove(s, step, settings);
    OthersStay(s, step, settings);
    LogIs(s);
    LogIs(t);
    forall r | r in s.requests
      ensures r in t.requests && t.requests[r].request == s.requests[r].request
        && (s.requests[r].decision.Some? ==> t.requests[r].decision == s.requests[r].decision)
    {
      KnownStays(s, step, settings, r);
    }
    forall i | 0 <= i < |t.log| ensures LoggedAt(t, i) {
      LoggedAtIs(t, i);
      if i < |s.log| {
        LoggedAtIs(s, i);
      }
    }
    forall i, k | 0 <= i < k < |t.log| ensures t.log[i].r != t.log[k].r {
      LoggedAtIs(s, i);
    }
    forall r | r in t.requests && t.requests[r].decision.Some? ensures Logged(t, r) {
      if r in s.requests && s.requests[r].decision.Some? {
        var i := LogIndex(s, r);
        IsLogged(t, r, i);
      } else {
        IsLogged(t, r, |s.log|);
      }
    }
  }

  lemma LogIs(s: State)
    ensures LogInv(s) <==>
      && (forall i :: 0 <= i < |s.log| ==> LoggedAt(s, i))
      && (forall i, k :: 0 <= i < k < |s.log| ==> s.log[i].r != s.log[k].r)
      && (forall r :: r in s.requests && s.requests[r].decision.Some? ==> Logged(s, r))
  {
    hide LoggedAt, Logged;
  }

  lemma LoggedAtIs(s: State, i: nat)
    requires i < |s.log|
    ensures LoggedAt(s, i) <==>
      var e := s.log[i];
      e.r in s.requests && s.requests[e.r].request == e.request && s.requests[e.r].decision == Some(e.decision)
  {
  }

  lemma LogIndex(s: State, r: RequestId) returns (i: nat)
    requires Logged(s, r)
    ensures i < |s.log| && s.log[i].r == r
  {
    i :| 0 <= i < |s.log| && s.log[i].r == r;
  }

  lemma IsLogged(s: State, r: RequestId, i: nat)
    requires i < |s.log| && s.log[i].r == r
    ensures Logged(s, r)
  {
  }

  // ------------------------------------------------------------------
  // Rows
  // ------------------------------------------------------------------

  /** A step of one request never touches a row another request owns. */
  lemma OtherRowStays(s: State, step: Step, settings: Settings, r: RequestId, m: MessageId)
    requires Enabled(s, step, settings) && OwnerInv(s)
    requires Actor(step).Some? && Actor(step) != Some(r)
    requires r in s.requests && Owns(s.requests[r], m) && m in s.rows
    ensures m in Apply(s, step, settings).rows && Apply(s, step, settings).rows[m] == s.rows[m]
    ensures Apply(s, step, settings).handed == s.handed
  {
    var a := Actor(step).value;
    assert a in s.requests ==> !Owns(s.requests[a], m);
    hide Finds, Conflicts, Record, KeysUnique, MarkAll, Eligible, DurableEnough, Refusal, Objection, Checked,
         Judged, Recorded;
  }

  predicate InsertsRow(s: State, t: State, m: MessageId) {
    m !in s.rows && m in t.rows && t.rows == s.rows[m := t.rows[m]] && !Conflicts(s.rows, t.rows[m])
    && t.rows[m].direction == Messages.Inbound
  }

  /** One row changes its status columns at most, and never to accepted unless it was being processed. */
  predicate Restates(rows: Table, rows': Table, m: MessageId) {
    && m in rows && m in rows' && rows' == rows[m := rows'[m]] && SameIdentity(rows[m], rows'[m])
    && rows[m].direction == Messages.Inbound
    && (rows'[m].status == Accepted ==> rows[m].status == Processing)
    && rows'[m].status != Processing
  }

  ghost predicate Moves(s: State, t: State) {
    t.rows == s.rows || (exists m :: InsertsRow(s, t, m)) || (exists m :: Restates(s.rows, t.rows, m))
  }

  /** The update an answer calls for makes the row show that answer, and changes nothing else. */
  lemma AnsweringShows(rows: Table, m: MessageId, l: Local, l': Local, answer: Answer, handed: bool)
    requires m in rows && l'.decryption == l.decryption
    ensures var rows' := Answering(rows, m, l, answer);
      && m in rows' && rows' == rows[m := rows'[m]] && SameIdentity(rows[m], rows'[m])
      && rows'[m].status == (if answer.Ack? then Accepted else Rejected)
      && Shows(l', rows'[m], handed, answer)
  {
    hide Value;
  }

  predicate Quiet(step: Step) {
    !step.Insert? && !step.Update? && !step.Recover? && !step.Raise?
  }

  lemma QuietOwnRow(s: State, step: Step, settings: Settings, r: RequestId)
    requires Enabled(s, step, settings) && ProgressInv(s, settings) && RowInv(s)
    requires Quiet(step) && Actor(step) == Some(r)
    ensures var t := Apply(s, step, settings);
      && r in t.requests && RowAgrees(t.requests[r], t.rows, t.handed)
      && t.rows == s.rows && t.handed == s.handed
  {
    hide Finds, Conflicts, KeysUnique, MarkAll, Eligible, DurableEnough, Refusal, Objection,
         OutboundNeverAccepted, Record, SameIdentity;
    assert r in s.requests ==> Progress(s.requests[r], settings);
    assert r in s.requests ==> RowAgrees(s.requests[r], s.rows, s.handed);
  }

  lemma InsertOwnRow(s: State, r: RequestId, m: MessageId, pc: Pc, settings: Settings)
    requires ProgressInv(s, settings) && At(s, r, Inserting) && m !in s.rows && (pc == Decrypting || pc == Gone)
    ensures var t := TryInsert(s, r, m, pc);
      && r in t.requests && RowAgrees(t.requests[r], t.rows, t.handed)
      && t.handed == s.handed && (t.rows == s.rows || InsertsRow(s, t, m))
      && (t.requests[r].pc == pc
          || (t.rows == s.rows && t.requests[r].decision.Some? && t.requests[r].decision.value.Duplicate?))
  {
    hide Conflicts, Finds;
    assert Progress(s.requests[r], settings);
    var l := s.requests[r];
    if l.request.form.Parsed? && !Conflicts(s.rows, Record(l.request, l.transId)) {
      var t := TryInsert(s, r, m, pc);
      assert t.rows[m] == Record(l.request, l.transId);
      assert InsertsRow(s, t, m);
    }
  }

  lemma AnswerOwnRow(s: State, r: RequestId, answer: Answer, l': Local)
    requires RowInv(s) && r in s.requests && HasRow(s.requests[r])
    requires l'.decision == s.requests[r].decision && l'.request == s.requests[r].request
    requires l'.transId == s.requests[r].transId
    requires l'.decryption == s.requests[r].decryption
    requires (l'.pc.Signing? && l'.pc.answer == answer) || l'.pc == Recovering || l'.pc == Gone
    ensures RowAgrees(l', RowsAfter(s, r, answer), s.handed)
    ensures answer.Ack? && s.requests[r].pc.Updating? ==>
      Restates(s.rows, RowsAfter(s, r, answer), s.requests[r].decision.value.m)
    ensures answer.Nack? ==> Restates(s.rows, RowsAfter(s, r, answer), s.requests[r].decision.value.m)
  {
    var m := s.requests[r].decision.value.m;
    assert RowAgrees(s.requests[r], s.rows, s.handed);
    AnsweringShows(s.rows, m, s.requests[r], l', answer, m in s.handed);
    hide Answering, Shows;
  }

  lemma RaiseOwnRow(s: State, step: Step, settings: Settings, r: RequestId)
    requires Enabled(s, step, settings) && ProgressInv(s, settings) && RowInv(s) && step.Raise? && step.r == r
    ensures var t := Apply(s, step, settings);
      && r in t.requests && RowAgrees(t.requests[r], t.rows, t.handed)
      && t.handed == s.handed && Moves(s, t)
  {
    if !step.applied || s.requests[r].pc.Numbering? || Harmless(s.requests[r].pc) {
      RaiseHarmless(s, step, settings, r);
    } else if s.requests[r].pc.Inserting? {
      RaiseInserting(s, step, settings, r);
    } else {
      RaiseAnswering(s, step, settings, r);
    }
  }

  predicate Harmless(pc: Pc) {
    !pc.Inserting? && !pc.Updating? && !pc.Recovering?
  }

  lemma RaiseHarmless(s: State, step: Step, settings: Settings, r: RequestId)
    requires Enabled(s, step, settings) && RowInv(s) && step.Raise? && step.r == r
    requires !step.applied || Harmless(s.requests[r].pc)
    ensures var t := Apply(s, step, settings);
      r in t.requests && RowAgrees(t.requests[r], t.rows, t.handed) && t.handed == s.handed && t.rows == s.rows
  {
    assert RowAgrees(s.requests[r], s.rows, s.handed);
    hide RowInv, TryInsert, RowsAfter, Shows, SameIdentity, Record;
  }

  lemma RaiseInserting(s: State, step: Step, settings: Settings, r: RequestId)
    requires Enabled(s, step, settings) && ProgressInv(s, settings) && RowInv(s)
    requires step.Raise? && step.r == r && step.applied && s.requests[r].pc.Inserting?
    ensures var t := Apply(s, step, settings);
      && r in t.requests && RowAgrees(t.requests[r], t.rows, t.handed)
      && t.handed == s.handed && Moves(s, t)
  {
    InsertOwnRow(s, r, step.m, Gone, settings);
    assert RowAgrees(s.requests[r], s.rows, s.handed);
    var t, u := Apply(s, step, settings), TryInsert(s, r, step.m, Gone);
    hide RowInv, ProgressInv, TryInsert, RowsAfter, Record, SameIdentity, Shows, Conflicts;
    assert t.rows == s.rows || t.rows == u.rows;
    assert t.rows == s.rows || InsertsRow(s, t, step.m);
  }

  lemma RaiseAnswering(s: State, step: Step, settings: Settings, r: RequestId)
    requires Enabled(s, step, settings) && ProgressInv(s, settings) && RowInv(s)
    requires step.Raise? && step.r == r && step.applied && (s.requests[r].pc.Updating? || s.requests[r].pc.Recovering?)
    ensures var t := Apply(s, step, settings);
      && r in t.requests && RowAgrees(t.requests[r], t.rows, t.handed)
      && t.handed == s.handed && Moves(s, t)
  {
    var l, t := s.requests[r], Apply(s, step, settings);
    KnownProgress(s, settings, r);
    hide RowInv, ProgressInv, TryInsert, RowsAfter, RowAgrees, Fits, Restates;
    var answer := if l.pc.Updating? then l.pc.answer else Nack(SystemError);
    AnswerOwnRow(s, r, answer, t.requests[r]);
    assert Restates(s.rows, t.rows, l.decision.value.m);
  }

  /** After a request's own step its row is as the invariant asks, and the table has moved by one row at most. */
  lemma OwnRowAgrees(s: State, step: Step, settings: Settings, r: RequestId)
    requires Enabled(s, step, settings) && ProgressInv(s, settings) && RowInv(s)
    requires Actor(step) == Some(r)
    ensures var t := Apply(s, step, settings);
      && r in t.requests && RowAgrees(t.requests[r], t.rows, t.handed)
      && t.handed == s.handed && Moves(s, t)
  {
    var t := Apply(s, step, settings);
    if Quiet(step) {
      QuietOwnRow(s, step, settings, r);
    } else {
      assert Progress(s.requests[r], settings);
      hide RowAgrees, InsertsRow, Restates;
      match step
      case Insert(_, m) => InsertOwnRow(s, r, m, Decrypting, settings);
      case Update(_) =>
        AnswerOwnRow(s, r, s.requests[r].pc.answer, t.requests[r]);
        assert Restates(s.rows, t.rows, s.requests[r].decision.value.m);
      case Recover(_) =>
        AnswerOwnRow(s, r, Nack(SystemError), t.requests[r]);
        assert Restates(s.rows, t.rows, s.requests[r].decision.value.m);
      case Raise(_, _, _, _) => RaiseOwnRow(s, step, settings, r);
    }
  }

  lemma RowStep(s: State, step: Step, settings: Settings)
    requires Enabled(s, step, settings) && ProgressInv(s, settings) && RowInv(s) && OwnerInv(s) && TableInv(s)
    ensures RowInv(Apply(s, step, settings))
  {
    var t := Apply(s, step, settings);
    OthersStay(s, step, settings);
    forall r | r in t.requests ensures RowAgrees(t.requests[r], t.rows, t.handed) {
      if Some(r) == Actor(step) {
        OwnRowAgrees(s, step, settings, r);
      } else {
        assert RowAgrees(s.requests[r], s.rows, s.handed);
        BystanderRow(s, step, settings, r);
      }
    }
  }

  lemma BystanderRow(s: State, step: Step, settings: Settings, r: RequestId)
    requires Enabled(s, step, settings) && RowInv(s) && OwnerInv(s) && r in s.requests && Actor(step) != Some(r)
    ensures RowAgrees(s.requests[r], Apply(s, step, settings).rows, Apply(s, step, settings).handed)
  {
    var l, t := s.requests[r], Apply(s, step, settings);
    assert RowAgrees(l, s.rows, s.handed);
    if HasRow(l) {
      var m := l.decision.value.m;
      match step
      case MarkProcessed(ids, status) =>
        assert t.rows == MarkAll(s.rows, Eligible(s.rows, ids), status) && t.handed == s.handed + Eligible(s.rows, ids);
        hide Apply, Enabled;
      case OutboundActivity(rows) =>
        assert s.rows[m].direction == Messages.Inbound;
      case _ =>
        OtherRowStays(s, step, settings, r, m);
        hide Apply, Enabled;
    }
  }

  // ------------------------------------------------------------------
  // The table
  // ------------------------------------------------------------------

  lemma TableStep(s: State, step: Step, settings: Settings)
    requires Enabled(s, step, settings) && ProgressInv(s, settings) && RowInv(s) && TableInv(s)
    ensures TableInv(Apply(s, step, settings))
  {
    var t := Apply(s, step, settings);
    if step.MarkProcessed? {
      assert t.rows == MarkAll(s.rows, Eligible(s.rows, step.ids), step.status)
        && t.handed == s.handed + Eligible(s.rows, step.ids);
      MarkingKeepsTable(s, t, step.ids, step.status);
    } else if step.OutboundActivity? {
    } else {
      OwnRowAgrees(s, step, settings, Actor(step).value);
      hide Apply, Enabled, RowInv, ProgressInv, RowAgrees;
      MovesKeepTable(s, t);
    }
  }

  lemma MarkingKeepsTable(s: State, t: State, ids: seq<MessageId>, status: Status)
    requires TableInv(s) && !Reserved(status)
    requires t.rows == MarkAll(s.rows, Eligible(s.rows, ids), status) && t.handed == s.handed + Eligible(s.rows, ids)
    ensures TableInv(t)
  {
    forall m, n | m in t.rows && n in t.rows && m != n ensures !SameKey(t.rows[m], t.rows[n]) {
      assert !SameKey(s.rows[m], s.rows[n]);
    }
  }

  lemma MovesKeepTable(s: State, t: State)
    requires TableInv(s) && Moves(s, t) && t.handed == s.handed
    ensures TableInv(t)
  {
    if t.rows == s.rows {
    } else if m :| InsertsRow(s, t, m) {
      InsertKeepsKeys(s.rows, m, t.rows[m]);
      hide KeysUnique, Conflicts;
    } else {
      var m :| Restates(s.rows, t.rows, m);
      RestatingKeepsKeys(s.rows, t.rows, m);
      hide KeysUnique, Conflicts;
    }
  }

  lemma RestatingKeepsKeys(rows: Table, rows': Table, m: MessageId)
    requires KeysUnique(rows) && Restates(rows, rows', m)
    ensures KeysUnique(rows')
  {
    forall a, b | a in rows' && b in rows' && a != b ensures !SameKey(rows'[a], rows'[b]) {
      assert !SameKey(rows[a], rows[b]);
    }
  }

  lemma InsertKeepsKeys(rows: Table, m: MessageId, row: Row)
    requires KeysUnique(rows) && !Conflicts(rows, row)
    ensures KeysUnique(rows[m := row])
  {
  }
}
