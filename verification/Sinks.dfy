/** Delivering a message to the configured sinks (app/sinks/dispatcher.py). */
module Sinks {
  import opened Wrappers
  import opened Bytes

  datatype Sink = Sink(name: Bytes, durable: bool)

  /** What `sink.deliver` does with a message: report success or failure under the sink's own name, or raise. */
  datatype Delivery = Stored | Refused(error: Bytes) | Raised(error: Bytes)

  datatype SinkResult = SinkResult(ok: bool, error: Option<Bytes>)

  function DeliverSafely(d: Delivery): SinkResult {
    match d
    case Stored => SinkResult(true, None)
    case Refused(error) => SinkResult(false, Some(error))
    case Raised(error) => SinkResult(false, Some(error))
  }

  /** One entry per sink name; of several sinks with one name the last one's result stays. */
  function FanOut(sinks: seq<Sink>, deliveries: seq<Delivery>): map<Bytes, SinkResult>
    requires |sinks| == |deliveries|
  {
    if sinks == [] then map[]
    else
      var last := |sinks| - 1;
      FanOut(sinks[..last], deliveries[..last])[sinks[last].name := DeliverSafely(deliveries[last])]
  }

  predicate HasDurableSuccess(sinks: seq<Sink>, results: map<Bytes, SinkResult>) {
    var durableNames := set s | s in sinks && s.durable :: s.name;
    durableNames == {} || exists name :: name in durableNames && name in results && results[name].ok
  }

  predicate LastOfItsName(sinks: seq<Sink>, i: int)
    requires 0 <= i < |sinks|
  {
    forall k :: i < k < |sinks| ==> sinks[k].name != sinks[i].name
  }

  /** Some sink that calls itself durable has stored the message, or there is none. */
  predicate DurablyStored(sinks: seq<Sink>, deliveries: seq<Delivery>)
    requires |sinks| == |deliveries|
  {
    || (forall i :: 0 <= i < |sinks| ==> !sinks[i].durable)
    || exists i :: 0 <= i < |sinks| && sinks[i].durable && deliveries[i].Stored?
  }

  /** No sink's failure hides another's: every name has the result of the last sink that bears it. */
  lemma {:induction false} FanOutResult(sinks: seq<Sink>, deliveries: seq<Delivery>, i: nat)
    requires |sinks| == |deliveries| && i < |sinks| && LastOfItsName(sinks, i)
    ensures sinks[i].name in FanOut(sinks, deliveries)
    ensures FanOut(sinks, deliveries)[sinks[i].name] == DeliverSafely(deliveries[i])
  {
    var last := |sinks| - 1;
    if i < last {
      var init := sinks[..last];
      assert forall k :: 0 <= k < last ==> init[k] == sinks[k];
      FanOutResult(init, deliveries[..last], i);
      assert sinks[last].name != sinks[i].name;
    }
  }

  lemma {:induction false} FanOutName(sinks: seq<Sink>, deliveries: seq<Delivery>, name: Bytes) returns (i: nat)
    requires |sinks| == |deliveries| && name in FanOut(sinks, deliveries)
    ensures i < |sinks| && sinks[i].name == name && LastOfItsName(sinks, i)
  {
    var last := |sinks| - 1;
    if name == sinks[last].name {
      i := last;
    } else {
      var init := sinks[..last];
      i := FanOutName(init, deliveries[..last], name);
      assert forall k :: i < k < last ==> init[k].name == sinks[k].name;
    }
  }

  /**
   The durability test, for any sinks: it passes exactly when there is no durable sink, or
   some stored delivery is the last of its name and shares that name with a durable sink.
   */
  lemma DurableSuccessIs(sinks: seq<Sink>, deliveries: seq<Delivery>)
    requires |sinks| == |deliveries|
    ensures HasDurableSuccess(sinks, FanOut(sinks, deliveries)) <==>
      || (forall i :: 0 <= i < |sinks| ==> !sinks[i].durable)
      || exists i, k :: 0 <= i < |sinks| && 0 <= k < |sinks| && sinks[k].durable && sinks[k].name == sinks[i].name
                        && LastOfItsName(sinks, i) && deliveries[i].Stored?
  {
    var results := FanOut(sinks, deliveries);
    hide FanOut;
    var durableNames := set s | s in sinks && s.durable :: s.name;
    if i :| 0 <= i < |sinks| && sinks[i].durable {
      assert sinks[i] in sinks && sinks[i].name in durableNames;
    }
    if name :| name in durableNames && name in results && results[name].ok {
      var i := FanOutName(sinks, deliveries, name);
      FanOutResult(sinks, deliveries, i);
      var s :| s in sinks && s.durable && s.name == name;
      var k :| 0 <= k < |sinks| && sinks[k] == s;
      assert deliveries[i].Stored?;
    }
    if i, k :| 0 <= i < |sinks| && 0 <= k < |sinks| && sinks[k].durable && sinks[k].name == sinks[i].name
               && LastOfItsName(sinks, i) && deliveries[i].Stored? {
      FanOutResult(sinks, deliveries, i);
      assert sinks[k] in sinks && sinks[k].name in durableNames && results[sinks[i].name].ok;
    }
  }

  /** No durable sink shares its name with a later one. */
  predicate DurablesLast(sinks: seq<Sink>) {
    forall i :: 0 <= i < |sinks| && sinks[i].durable ==> LastOfItsName(sinks, i)
  }

  /** The test says what it is meant to say: no durable sink, or one that stored the message. */
  predicate TestIsRight(sinks: seq<Sink>, deliveries: seq<Delivery>)
    requires |sinks| == |deliveries|
  {
    HasDurableSuccess(sinks, FanOut(sinks, deliveries)) <==> DurablyStored(sinks, deliveries)
  }

  lemma RightWhenDurablesLast(sinks: seq<Sink>, deliveries: seq<Delivery>)
    requires |sinks| == |deliveries| && DurablesLast(sinks)
    ensures TestIsRight(sinks, deliveries)
  {
    DurableSuccessIs(sinks, deliveries);
    hide FanOut, HasDurableSuccess;
    if i, k :| 0 <= i < |sinks| && 0 <= k < |sinks| && sinks[k].durable && sinks[k].name == sinks[i].name
               && LastOfItsName(sinks, i) && deliveries[i].Stored? {
      assert LastOfItsName(sinks, k);
      assert i == k;
    }
    if i :| 0 <= i < |sinks| && sinks[i].durable && deliveries[i].Stored? {
      assert LastOfItsName(sinks, i) && sinks[i].name == sinks[i].name;
    }
  }

  /** Stored by the sink at `i`, refused by all others. */
  function OnlyAt(n: nat, i: nat): seq<Delivery> {
    seq(n, k => if k == i then Stored else Refused([]))
  }

  lemma WrongWhenHidden(sinks: seq<Sink>, i: nat)
    requires i < |sinks| && sinks[i].durable && !LastOfItsName(sinks, i)
    ensures !TestIsRight(sinks, OnlyAt(|sinks|, i))
  {
    var deliveries := OnlyAt(|sinks|, i);
    DurableSuccessIs(sinks, deliveries);
    hide FanOut, HasDurableSuccess;
    assert sinks[i].durable && deliveries[i].Stored?;
  }

  /**
   The test is right for every delivery if and only if no durable sink shares its name
   with a later one.
   */
  lemma DurabilityTestIsRightIff(sinks: seq<Sink>)
    ensures (forall deliveries :: |deliveries| == |sinks| ==> TestIsRight(sinks, deliveries)) <==> DurablesLast(sinks)
  {
    hide TestIsRight;
    if DurablesLast(sinks) {
      forall deliveries | |deliveries| == |sinks| ensures TestIsRight(sinks, deliveries) {
        RightWhenDurablesLast(sinks, deliveries);
      }
    } else {
      var i :| 0 <= i < |sinks| && sinks[i].durable && !LastOfItsName(sinks, i);
      WrongWhenHidden(sinks, i);
      assert |OnlyAt(|sinks|, i)| == |sinks|;
    }
  }

  const FILESYSTEM: Bytes := "filesystem"
  const S3: Bytes := "s3"
  const WEBHOOK: Bytes := "webhook"

  /** The sinks a configuration yields: each kind at most once; the webhook is never durable. */
  function BuildSinks(filesystem: Option<bool>, s3: Option<bool>, webhook: bool): seq<Sink> {
    (match filesystem case Some(durable) => [Sink(FILESYSTEM, durable)] case None => [])
    + (match s3 case Some(durable) => [Sink(S3, durable)] case None => [])
    + (if webhook then [Sink(WEBHOOK, false)] else [])
  }

  /** The gateway's own configurations all meet that condition. */
  lemma BuiltSinksAreRight(filesystem: Option<bool>, s3: Option<bool>, webhook: bool)
    ensures DurablesLast(BuildSinks(filesystem, s3, webhook))
  {
    assert |FILESYSTEM| == 10 && |S3| == 2 && |WEBHOOK| == 7;
    hide FILESYSTEM, S3, WEBHOOK;
  }

  /** Two sinks that break the condition: a durable success is forgotten when a later sink of its name fails. */
  lemma SharedNameHidesSuccess(name: Bytes, error: Bytes)
    ensures var sinks := [Sink(name, true), Sink(name, false)];
      var deliveries := [Stored, Refused(error)];
      DurablyStored(sinks, deliveries) && !HasDurableSuccess(sinks, FanOut(sinks, deliveries))
  {
    var sinks := [Sink(name, true), Sink(name, false)];
    var deliveries := [Stored, Refused(error)];
    DurableSuccessIs(sinks, deliveries);
    hide FanOut, HasDurableSuccess;
    assert sinks[0].durable && deliveries[0].Stored?;
    assert !LastOfItsName(sinks, 0) by {
      assert sinks[1].name == sinks[0].name;
    }
  }
}
