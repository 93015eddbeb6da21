/** From one gateway's row to the other gateway's job: what the sender makes of the receipt it gets. */
module EndToEnd {
  import opened Wrappers
  import opened Bytes
  import opened MimeSplit
  import opened MimePrint
  import opened ContentTypes
  import opened ErrorCodes
  import opened Receipts
  import opened ReceiptRoundTrip
  import Decimal
  import Inbound
  import InboundInvariant
  import InboundRuns
  import Jobs
  import Messages
  import Queue
  import Workers

  /** What the receiving gateway says about itself and when, and how the receipt travels. */
  datatype Channel = Channel(
    serverId: Bytes, timeC: Bytes, sign: Bytes -> Bytes, reportToken: Bytes, signedToken: Bytes, contentType: Bytes
  )

  ghost predicate Usable(c: Channel) {
    && FieldText(c.serverId) && Decimal.AllDigits(c.timeC) && IsToken(c.reportToken) && IsToken(c.signedToken)
    && ContentTypeParam(c.contentType, BOUNDARY) in {None, Some(SIGNED_PREFIX + c.signedToken)}
  }

  /** No line of the receipt's signature looks like the signed wrapper's boundary. */
  ghost predicate SafelySigned(c: Channel, r: Receipt) {
    Clean(RStrip(c.sign(EncodeBody(r, REPORT_PREFIX + c.reportToken)), NEWLINES), Marker(SIGNED_PREFIX + c.signedToken))
  }

  /** The receipt an answered request is given; `description` and `standard` as `reject` chooses them. */
  function ReceiptFor(l: Inbound.Local, c: Channel, description: Option<Bytes>, standard: Bytes): Receipt
    requires l.pc.Answered? && l.transId.Some?
  {
    match l.pc.answer
    case Ack => OkReceipt(c.serverId, l.transId.value, c.timeC)
    case Nack(code) => RejectedReceipt(c.serverId, l.transId.value, code, description, standard, c.timeC)
  }

  /** The receipts of two requests are never mistaken for each other. */
  lemma ReceiptsDiffer(
    states: seq<Inbound.State>, steps: seq<Inbound.Step>, settings: Inbound.Settings, k: nat,
    r: Inbound.RequestId, r': Inbound.RequestId, c: Channel, description: Option<Bytes>, standard: Bytes
  )
    requires Inbound.Run(states, steps, settings) && k < |states| && r != r'
    requires r in states[k].requests && states[k].requests[r].pc.Answered?
    requires r' in states[k].requests && states[k].requests[r'].pc.Answered?
    ensures states[k].requests[r].transId.Some? && states[k].requests[r'].transId.Some?
    ensures ReceiptFor(states[k].requests[r], c, description, standard).transId
         != ReceiptFor(states[k].requests[r'], c, description, standard).transId
  {
    Numbered(states, steps, settings, k, r);
    Numbered(states, steps, settings, k, r');
    InboundRuns.TransIdsDiffer(states, steps, settings, k, r, r');
    var a, b := states[k].requests[r].transId.value, states[k].requests[r'].transId.value;
    if Decimal.Of(a) == Decimal.Of(b) {
      Decimal.Injective(a, b);
    }
  }

  lemma Numbered(
    states: seq<Inbound.State>, steps: seq<Inbound.Step>, settings: Inbound.Settings, k: nat, r: Inbound.RequestId)
    requires Inbound.Run(states, steps, settings) && k < |states|
    requires r in states[k].requests && states[k].requests[r].pc.Answered?
    ensures states[k].requests[r].transId.Some?
  {
    InboundRuns.Invariant(states, steps, settings, k);
    InboundRuns.InvParts(states[k], settings);
    assert InboundInvariant.Progress(states[k].requests[r], settings);
  }

  /** How the sending gateway checks a receipt's signature. */
  datatype Check = Check(verify: (Bytes, Bytes) -> Verdict, allowedDigests: set<int>)

  /** The sender accepts the signature that the receiver put on its receipt. */
  ghost predicate Trusted(check: Check, c: Channel, r: Receipt) {
    var report := EncodeBody(r, REPORT_PREFIX + c.reportToken);
    Accepts(check.verify, check.allowedDigests, report, RStrip(c.sign(report), NEWLINES))
  }

  /** What a delivery attempt comes to that is answered with the receipt. */
  ghost function ReplyTo(check: Check, c: Channel, r: Receipt): Workers.Reply {
    var wire := Wire(r, c.sign, c.reportToken, c.signedToken);
    SendResult(Answered(wire, c.contentType), check.verify, check.allowedDigests)
  }

  /**
   For every reachable state of the receiving gateway and every answered request: the
   sending gateway's worker, given the bytes of its receipt, concludes its job as delivered
   if the answer was ok and otherwise as nacked, exactly when it accepts the signature over
   the very bytes the receiver signed, and as a failed attempt when it does not; and when
   the request inserted a row, the code stored with the nacked job is the error code of that
   row and the receipt's trans-id is the row's.
   */
  lemma SenderAgreesWithReceiver(
    states: seq<Inbound.State>, steps: seq<Inbound.Step>, settings: Inbound.Settings, k: nat, r: Inbound.RequestId,
    c: Channel, description: Option<Bytes>, standard: Bytes, check: Check,
    job: Jobs.Job, schedule: Queue.Schedule, now: Jobs.Time
  )
    requires Inbound.Run(states, steps, settings) && k < |states|
    requires r in states[k].requests && states[k].requests[r].pc.Answered?
    requires Usable(c) && FieldText(standard)
    requires states[k].requests[r].transId.Some? ==>
      SafelySigned(c, ReceiptFor(states[k].requests[r], c, description, standard))
    ensures states[k].requests[r].transId.Some?
    ensures
      var l := states[k].requests[r];
      Understood(l, states[k].rows, c, ReceiptFor(l, c, description, standard), check, job, schedule, now)
  {
    hide *;
    var s, l := states[k], states[k].requests[r];
    Numbered(states, steps, settings, k, r);
    RowSide(states, steps, settings, k, r);
    ChannelIs(c);
    ReceiptIs(l, c, description, standard);
    var receipt := ReceiptFor(l, c, description, standard);
    SafelySignedIs(c, receipt);
    var status;
    match l.pc.answer {
      case Ack =>
        status := OK_STATUS;
        OkEndToEnd(c.serverId, l.transId.value, c.timeC, c.sign, c.reportToken, c.signedToken, c.contentType);
      case Nack(code) =>
        status := Strip(receipt.requestStatus);
        RejectedEndToEnd(
          c.serverId, l.transId.value, code, description, standard, c.timeC, c.sign,
          c.reportToken, c.signedToken, c.contentType);
    }
    var read := Receipt(c.timeC, status, Strip(c.serverId), Decimal.Of(l.transId.value));
    ReplyIs(check, c, receipt, read);
    ConclusionIs(job, schedule, now, ReplyTo(check, c, receipt));
    UnderstoodIs(l, s.rows, c, receipt, check, job, schedule, now, read);
  }

  /** What the sender's worker concludes from the bytes of an answered request's receipt, beside the receiver's row. */
  ghost predicate Understood(
    l: Inbound.Local, rows: Messages.Table, c: Channel, receipt: Receipt,
    check: Check, job: Jobs.Job, schedule: Queue.Schedule, now: Jobs.Time
  ) {
    var reply := ReplyTo(check, c, receipt);
    var conclusion := Queue.ConclusionOf(job, true, Workers.AttemptOf(reply), schedule, now);
    && l.pc.Answered? && l.transId.Some?
    && (reply.Ok? <==> Trusted(check, c, receipt))
    && (reply.Ok? ==>
          && reply.value.transId == Decimal.Of(l.transId.value) && reply.value.timeC == c.timeC
          && reply.value.serverId == Strip(c.serverId)
          && if l.pc.answer.Ack?
             then conclusion == Jobs.Deliver(Jobs.ReceiptInfo(Decimal.Of(l.transId.value), Strip(c.serverId), c.timeC))
             else conclusion == Jobs.Nack(Value(l.pc.answer.code)))
    && (reply.Ok? ==>
          var row := Jobs.Concluded(job, conclusion);
          if l.pc.answer.Ack?
          then
            && row.status == Jobs.Delivered
            && row.receipt == Some(Jobs.ReceiptInfo(Decimal.Of(l.transId.value), Strip(c.serverId), c.timeC))
          else row.status == Jobs.FailedNack && row.lastErrorCode == Some(Value(l.pc.answer.code)))
    && (reply.Err? ==> conclusion == Queue.FailureConclusion(job.attemptCount, schedule, now))
    && (l.decision.Some? && l.decision.value.Inserted? ==>
          && l.decision.value.m in rows && rows[l.decision.value.m].transId == l.transId
          && (conclusion.Nack? ==> rows[l.decision.value.m].errorCode == Some(conclusion.code)))
  }

  lemma UnderstoodIs(
    l: Inbound.Local, rows: Messages.Table, c: Channel, receipt: Receipt,
    check: Check, job: Jobs.Job, schedule: Queue.Schedule, now: Jobs.Time, read: Receipt
  )
    requires l.pc.Answered? && l.transId.Some?
    requires var reply := ReplyTo(check, c, receipt);
      && (if Trusted(check, c, receipt) then reply == Ok(read) else reply.Err?)
      && Queue.ConclusionOf(job, true, Workers.AttemptOf(reply), schedule, now) ==
         if reply.Err? then Queue.FailureConclusion(job.attemptCount, schedule, now)
         else if reply.value.IsOk() then Jobs.Deliver(Jobs.ReceiptInfo(read.transId, read.serverId, read.timeC))
         else Jobs.Nack(StatusCode(read.requestStatus))
    requires read.transId == Decimal.Of(l.transId.value) && read.timeC == c.timeC && read.serverId == Strip(c.serverId)
    requires if l.pc.answer.Ack? then read.IsOk()
             else !read.IsOk() && StatusCode(read.requestStatus) == Value(l.pc.answer.code)
    requires l.decision.Some? && l.decision.value.Inserted? ==>
      && l.decision.value.m in rows && rows[l.decision.value.m].transId == l.transId
      && (l.pc.answer.Nack? ==> rows[l.decision.value.m].errorCode == Some(Value(l.pc.answer.code)))
    ensures Understood(l, rows, c, receipt, check, job, schedule, now)
  {
    hide ReplyTo, Trusted, Queue.ConclusionOf, Workers.AttemptOf, Value, Strip, StatusCode, Receipt.IsOk;
  }

  lemma ReplyIs(check: Check, c: Channel, receipt: Receipt, read: Receipt)
    requires var parsed := ParseSigned(Wire(receipt, c.sign, c.reportToken, c.signedToken), c.contentType);
      && parsed.Ok?
      && parsed.value.report == EncodeBody(receipt, REPORT_PREFIX + c.reportToken)
      && parsed.value.signature == RStrip(c.sign(parsed.value.report), NEWLINES)
      && DecodeReport(parsed.value.report, parsed.value.reportType) == Ok(read)
    ensures if Trusted(check, c, receipt) then ReplyTo(check, c, receipt) == Ok(read)
            else ReplyTo(check, c, receipt).Err?
  {
    hide ParseSigned, DecodeReport, Wire, EncodeBody, RStrip, SendResult, Accepts;
    var wire := Wire(receipt, c.sign, c.reportToken, c.signedToken);
    SendResultOf(Answered(wire, c.contentType), check.verify, check.allowedDigests,
                 ParseSigned(wire, c.contentType).value, read);
  }

  lemma ChannelIs(c: Channel)
    ensures Usable(c) <==>
      && FieldText(c.serverId) && Decimal.AllDigits(c.timeC) && IsToken(c.reportToken) && IsToken(c.signedToken)
      && ContentTypeParam(c.contentType, BOUNDARY) in {None, Some(SIGNED_PREFIX + c.signedToken)}
  {
    hide FieldText, IsToken, ContentTypeParam;
  }

  lemma SafelySignedIs(c: Channel, r: Receipt)
    ensures SafelySigned(c, r) <==>
      Clean(RStrip(c.sign(EncodeBody(r, REPORT_PREFIX + c.reportToken)), NEWLINES),
           Marker(SIGNED_PREFIX + c.signedToken))
  {
    hide Clean, RStrip, EncodeBody, Marker;
  }

  lemma ReceiptIs(l: Inbound.Local, c: Channel, description: Option<Bytes>, standard: Bytes)
    requires l.pc.Answered? && l.transId.Some?
    ensures ReceiptFor(l, c, description, standard) ==
      if l.pc.answer.Ack? then OkReceipt(c.serverId, l.transId.value, c.timeC)
      else RejectedReceipt(c.serverId, l.transId.value, l.pc.answer.code, description, standard, c.timeC)
  {
    hide OkReceipt, RejectedReceipt;
  }

  lemma ConclusionIs(job: Jobs.Job, schedule: Queue.Schedule, now: Jobs.Time, reply: Workers.Reply)
    ensures Queue.ConclusionOf(job, true, Workers.AttemptOf(reply), schedule, now) ==
      match reply
      case Err(_) => Queue.FailureConclusion(job.attemptCount, schedule, now)
      case Ok(read) =>
        if read.IsOk() then Jobs.Deliver(Jobs.ReceiptInfo(read.transId, read.serverId, read.timeC))
        else Jobs.Nack(StatusCode(read.requestStatus))
  {
    hide StatusCode, Queue.FailureConclusion, Receipt.IsOk;
  }

  lemma RowSide(
    states: seq<Inbound.State>, steps: seq<Inbound.Step>, settings: Inbound.Settings, k: nat, r: Inbound.RequestId)
    requires Inbound.Run(states, steps, settings) && k < |states|
    requires r in states[k].requests && states[k].requests[r].pc.Answered?
    ensures var s, l := states[k], states[k].requests[r];
      l.decision.Some? && l.decision.value.Inserted? ==>
        && l.decision.value.m in s.rows && s.rows[l.decision.value.m].transId == l.transId
        && (l.pc.answer.Nack? ==> s.rows[l.decision.value.m].errorCode == Some(Value(l.pc.answer.code)))
  {
    InboundRuns.Invariant(states, steps, settings, k);
    InboundRuns.InvParts(states[k], settings);
    assert InboundInvariant.RowAgrees(states[k].requests[r], states[k].rows, states[k].handed);
    hide Value, Inbound.Run, InboundInvariant.Inv;
  }
}
