/**
 * The result a command hands to its callback context, and the adapters that turn each
 * SDK completion shape into one. Payload serialisation (`ScaleReplyKt.toJSONString`,
 * `WatchReplyKt.toJSONString` and `new JSONObject(...)`) is an opaque Codec that either
 * yields JSON text or fails with an exception's message.
 */
module Envelope {
  import opened Wrappers
  import opened Device

  type JsonText = string

  /** The two reply serialisers; an `Err(m)` stands for an exception with message `m`. */
  datatype Codec = Codec(scale: ScaleReply -> Result<JsonText, string>, watch: WatchReply -> Result<JsonText, string>)

  /** What `callbackContext.success(...)` carries. */
  datatype Payload =
    | NoPayload                                               // success()
    | HasScale(hasScale: bool)                                // {hasScale}
    | HasWatch(hasWatch: bool)                                // {hasWatch}
    | ScaleReading(scaleReply: JsonText, scannedHandle: string) // {scaleReply, scannedHandle}
    | ScalePage(scaleReplies: seq<JsonText>, lastUID: int)    // {scaleReplies, lastUID}
    | WatchBatch(watchReplies: seq<JsonText>)                 // {watchReplies}

  /** One delivery to a callback context: `success(payload)` or `error(message)`. */
  datatype Outcome = Success(payload: Payload) | Error(message: string)

  const NoReadingPrefix: string := "Didn't get a reading, handle (contains error message): "

  /** Every item serialised in order; the first failure ends the walk, as the thrown exception does. */
  function Serialized<T>(items: seq<T>, ser: T -> Result<JsonText, string>): Result<seq<JsonText>, string>
    decreases |items|
  {
    if items == [] then Ok([])
    else
      match Serialized(items[..|items| - 1], ser)
      case Err(m) => Err(m)
      case Ok(done) =>
        match ser(items[|items| - 1])
        case Err(m) => Err(m)
        case Ok(j) => Ok(done + [j])
  }

  /**
   * Serialising succeeds exactly when every item does, and then gives their texts in the
   * same order; otherwise it fails with the message of the first item that fails.
   */
  lemma {:induction false} SerializedSpec<T>(items: seq<T>, ser: T -> Result<JsonText, string>)
    ensures Serialized(items, ser).Ok? <==> forall i :: 0 <= i < |items| ==> ser(items[i]).Ok?
    ensures Serialized(items, ser).Ok? ==>
      |Serialized(items, ser).value| == |items| &&
      forall i :: 0 <= i < |items| ==> Serialized(items, ser).value[i] == ser(items[i]).value
    ensures Serialized(items, ser).Err? ==>
      exists k :: 0 <= k < |items| && ser(items[k]) == Err(Serialized(items, ser).error) &&
        forall i :: 0 <= i < k ==> ser(items[i]).Ok?
    decreases |items|
  {
    if items != [] {
      var n := |items| - 1;
      var init := items[..n];
      SerializedSpec(init, ser);
      assert forall i :: 0 <= i < n ==> init[i] == items[i];
      match Serialized(init, ser)
      case Err(m) =>
        var k :| 0 <= k < |init| && ser(init[k]) == Err(m) && forall i :: 0 <= i < k ==> ser(init[i]).Ok?;
        assert ser(items[k]) == Err(m);
      case Ok(done) =>
        if ser(items[n]).Err? {
          assert ser(items[n]) == Err(Serialized(items, ser).error);
        }
    }
  }

  /** Once a prefix fails to serialise, the whole sequence fails with the same message. */
  lemma {:induction false} SerializedFailureSticks<T>(items: seq<T>, k: nat, ser: T -> Result<JsonText, string>)
    requires k <= |items|
    requires Serialized(items[..k], ser).Err?
    ensures Serialized(items, ser) == Serialized(items[..k], ser)
    decreases |items|
  {
    if k == |items| {
      assert items[..k] == items;
    } else {
      var n := |items| - 1;
      assert items[..n][..k] == items[..k];
      SerializedFailureSticks(items[..n], k, ser);
    }
  }

  /** The JSON array loops of SkalySDK.java:203-206 and :222-225. */
  method SerializeEach<T>(items: seq<T>, ser: T -> Result<JsonText, string>) returns (r: Result<seq<JsonText>, string>)
    ensures r == Serialized(items, ser)
  {
    var arr: seq<JsonText> := [];
    var i := 0;
    while i < |items|
      invariant 0 <= i <= |items|
      invariant Serialized(items[..i], ser) == Ok(arr)
    {
      var j := ser(items[i]);
      assert items[..i + 1][..i] == items[..i];
      if j.Err? {
        SerializedFailureSticks(items, i + 1, ser);
        return Err(j.error);
      }
      arr := arr + [j.value];
      i := i + 1;
    }
    assert items[..i] == items;
    return Ok(arr);
  }

  /** A `Function1<Boolean, Unit>` callback: true succeeds without payload, false reports `failure`. */
  function FlagOutcome(success: bool, failure: string): (r: Outcome)
    ensures r.Success? <==> success
    ensures r.Success? ==> r.payload == NoPayload
    ensures r.Error? ==> r.message == failure
  {
    if success then Success(NoPayload) else Error(failure)
  }

  /**
   * The `startReading` callback (its boolean is not consulted): no reply is an error that
   * carries the scanned handle; a reply is a success with that reply and handle, unless
   * serialising it fails, which is an error with the exception's message.
   */
  function ReadingOutcome(scannedHandle: string, reply: Option<ScaleReply>, ser: ScaleReply -> Result<JsonText, string>): (r: Outcome)
    ensures reply.None? ==> r == Error(NoReadingPrefix + scannedHandle)
    ensures r.Success? <==> reply.Some? && ser(reply.value).Ok?
    ensures r.Success? ==> r.payload == ScaleReading(ser(reply.value).value, scannedHandle)
    ensures reply.Some? && ser(reply.value).Err? ==> r == Error(ser(reply.value).error)
  {
    match reply
    case None => Error(NoReadingPrefix + scannedHandle)
    case Some(sr) =>
      match ser(sr)
      case Err(m) => Error(m)
      case Ok(j) => Success(ScaleReading(j, scannedHandle))
  }

  /** The scanned handle can be read back out of the no-reading error message. */
  lemma NoReadingCarriesHandle(scannedHandle: string, ser: ScaleReply -> Result<JsonText, string>)
    ensures var r := ReadingOutcome(scannedHandle, None, ser);
      r.Error? && r.message[..|NoReadingPrefix|] == NoReadingPrefix &&
      r.message[|NoReadingPrefix|..] == scannedHandle
  {
  }

  /**
   * A page of history: a success whose `scaleReplies` are the page's replies serialised in
   * order and whose `lastUID` is the page's cursor, unless some reply fails to serialise;
   * then a single error with the first failure's message. An empty page is a success.
   */
  function PageOutcome(cursor: int, replies: seq<ScaleReply>, ser: ScaleReply -> Result<JsonText, string>): (r: Outcome)
    ensures r.Success? <==> forall i :: 0 <= i < |replies| ==> ser(replies[i]).Ok?
    ensures r.Success? ==>
      r.payload.ScalePage? && r.payload.lastUID == cursor &&
      |r.payload.scaleReplies| == |replies| &&
      forall i :: 0 <= i < |replies| ==> r.payload.scaleReplies[i] == ser(replies[i]).value
    ensures r.Error? ==>
      exists k :: 0 <= k < |replies| && ser(replies[k]) == Err(r.message) &&
        forall i :: 0 <= i < k ==> ser(replies[i]).Ok?
  {
    SerializedSpec(replies, ser);
    match Serialized(replies, ser)
    case Err(m) => Error(m)
    case Ok(js) => Success(ScalePage(js, cursor))
  }

  /**
   * A watch batch: a success whose `watchReplies` are the replies serialised in order,
   * unless some reply fails to serialise; then the first failure's message.
   */
  function BatchOutcome(replies: seq<WatchReply>, ser: WatchReply -> Result<JsonText, string>): (r: Outcome)
    ensures r.Success? <==> forall i :: 0 <= i < |replies| ==> ser(replies[i]).Ok?
    ensures r.Success? ==>
      r.payload.WatchBatch? && |r.payload.watchReplies| == |replies| &&
      forall i :: 0 <= i < |replies| ==> r.payload.watchReplies[i] == ser(replies[i]).value
    ensures r.Error? ==>
      exists k :: 0 <= k < |replies| && ser(replies[k]) == Err(r.message) &&
        forall i :: 0 <= i < k ==> ser(replies[i]).Ok?
  {
    SerializedSpec(replies, ser);
    match Serialized(replies, ser)
    case Err(m) => Error(m)
    case Ok(js) => Success(WatchBatch(js))
  }
}
