/**
 * The Cordova bridge `SkalySDK.execute`: it routes an action name and its positional
 * arguments to one operation on the Skaly SDK. Presence queries answer at once; every
 * other operation is posted to the main looper's queue, and each posted runnable, when
 * it runs, makes one SDK call and delivers one outcome to the command's callback context.
 */
module Bridge {
  import opened Wrappers
  import opened JsonArgs
  import opened IdList
  import opened Decoders
  import opened Device
  import opened Envelope

  /** The actions `execute` recognises. */
  const Actions: set<string> := {
    "start", "hasScale", "hasWatch", "addScale", "addWatch", "addIdentity",
    "startReading", "getScaleData", "getWatchData", "allowAccessToData"
  }

  const NoHandlesMessage: string := "No handles registered yet!"

  /** The static `skaly` session, made from a root key. */
  datatype Session = Session(rootKey: string)

  /** A posted operation, with the arguments decoded before posting. */
  datatype Op =
    | Start(rootKey: string)
    | AddScale(supportedScales: seq<string>)
    | AddWatch(supportedWatches: seq<string>)
    | AddIdentity(handle: string, sex: Sex, birthdayMillis: int, length: int)
    | StartReading
    | GetScaleData(handle: string, fromUID: int)
    | GetWatchData
    | AllowAccessToData(to: string, handle: string)

  /** Identifies the callback context a command was given. */
  type CallbackId = nat

  /** A runnable waiting on the main looper, and the callback context it answers. */
  datatype Task = Task(callback: CallbackId, op: Op)

  /** One outcome delivered to one callback context. */
  datatype Delivery = Delivery(callback: CallbackId, outcome: Outcome)

  /** What `execute` does with a command before anything is posted or run. */
  datatype Routed =
    | Unrecognized                 // returns false, nothing else
    | Answered(outcome: Outcome)   // delivers at once, returns true
    | Posted(op: Op)               // posts a runnable, returns true
    | Refused(outcome: Outcome)    // delivers an error at once, returns false
    | Malformed(fault: ArgFault)   // an argument reader throws out of `execute`

  /** How `execute` ends: it returns a boolean or throws a JSONException. */
  datatype ExecResult = Returned(recognized: bool) | Threw(fault: ArgFault)

  /** The action name of an operation. */
  function ActionOf(op: Op): string
  {
    match op
    case Start(_) => "start"
    case AddScale(_) => "addScale"
    case AddWatch(_) => "addWatch"
    case AddIdentity(_, _, _, _) => "addIdentity"
    case StartReading => "startReading"
    case GetScaleData(_, _) => "getScaleData"
    case GetWatchData => "getWatchData"
    case AllowAccessToData(_, _) => "allowAccessToData"
  }

  /** The routing decision of `execute` (SkalySDK.java:63-256), as a function of its inputs. */
  function Route(action: string, args: seq<JsonValue>, view: DeviceView): (r: Routed)
    ensures r.Unrecognized? <==> action !in Actions
    ensures r.Answered? <==> action == "hasScale" || action == "hasWatch"
    ensures r.Refused? <==> action == "getScaleData" && |view.handles| == 0
    ensures r.Refused? ==> r.outcome == Error(NoHandlesMessage)
    ensures r.Posted? ==> ActionOf(r.op) == action
  {
    if action == "start" then
      (match GetString(args, 0)
       case Err(f) => Malformed(f)
       case Ok(rootKey) => Posted(Start(rootKey)))
    else if action == "hasScale" then
      Answered(Success(HasScale(view.hasScale)))
    else if action == "hasWatch" then
      Answered(Success(HasWatch(view.hasWatch)))
    else if action == "addScale" then
      (match GetString(args, 0)
       case Err(f) => Malformed(f)
       case Ok(s) => Posted(AddScale(DecodeIdList(s))))
    else if action == "addWatch" then
      (match GetString(args, 0)
       case Err(f) => Malformed(f)
       case Ok(s) => Posted(AddWatch(DecodeIdList(s))))
    else if action == "addIdentity" then
      (match GetString(args, 0)
       case Err(f) => Malformed(f)
       case Ok(handle) =>
         match GetInteger(args, 1)
         case Err(f) => Malformed(f)
         case Ok(code) =>
           match GetInteger(args, 2)
           case Err(f) => Malformed(f)
           case Ok(seconds) =>
             match GetInteger(args, 3)
             case Err(f) => Malformed(f)
             case Ok(length) => Posted(AddIdentity(handle, SexOf(code), BirthdayMillis(seconds), length)))
    else if action == "startReading" then
      Posted(StartReading)
    else if action == "getScaleData" then
      if |view.handles| == 0 then Refused(Error(NoHandlesMessage))
      else
        (match GetNullableString(args, 0)
         case Err(f) => Malformed(f)
         case Ok(given) =>
           match GetInteger(args, 1)
           case Err(f) => Malformed(f)
           case Ok(fromUID) => Posted(GetScaleData(ChooseHandle(given, view.handles), fromUID)))
    else if action == "getWatchData" then
      Posted(GetWatchData)
    else if action == "allowAccessToData" then
      (match GetString(args, 0)
       case Err(f) => Malformed(f)
       case Ok(to) =>
         match GetString(args, 1)
         case Err(f) => Malformed(f)
         case Ok(handle) => Posted(AllowAccessToData(to, handle)))
    else
      Unrecognized
  }

  /** What `execute` returns (or throws) for a routing decision. */
  function ResultOf(r: Routed): ExecResult
  {
    match r
    case Unrecognized => Returned(false)
    case Answered(_) => Returned(true)
    case Posted(_) => Returned(true)
    case Refused(_) => Returned(false)
    case Malformed(f) => Threw(f)
  }

  /** The outcomes `execute` delivers before it returns. */
  function Immediate(r: Routed): seq<Outcome>
  {
    match r
    case Answered(o) => [o]
    case Refused(o) => [o]
    case _ => []
  }

  /** Each outcome addressed to the callback context `callback`. */
  function Addressed(callback: CallbackId, os: seq<Outcome>): seq<Delivery>
  {
    seq(|os|, i requires 0 <= i < |os| => Delivery(callback, os[i]))
  }

  /** The kinds of argument an action reads. */
  datatype Kind = Text | NullableText | Integer

  /** The arguments each action reads, in the order it reads them. */
  function Signature(action: string): seq<Kind>
  {
    if action == "start" || action == "addScale" || action == "addWatch" then [Text]
    else if action == "addIdentity" then [Text, Integer, Integer, Integer]
    else if action == "getScaleData" then [NullableText, Integer]
    else if action == "allowAccessToData" then [Text, Text]
    else []
  }

  predicate Accepts(k: Kind, v: JsonValue)
  {
    match k
    case Text => v.JString?
    case NullableText => v.JString? || v.JNull?
    case Integer => v.JNumber?
  }

  /** The argument `i` of the signature is present and of its kind. */
  predicate AcceptsAt(sig: seq<Kind>, args: seq<JsonValue>, i: nat)
    requires i < |sig|
  {
    i < |args| && Accepts(sig[i], args[i])
  }

  /** Every argument the action reads is present and of its kind. */
  predicate WellFormed(action: string, args: seq<JsonValue>)
  {
    var sig := Signature(action);
    forall i :: 0 <= i < |sig| ==> AcceptsAt(sig, args, i)
  }

  /**
   * A recognised command throws exactly when its arguments do not fit the action's
   * signature, and then it names the first argument that does not fit: missing when
   * there are too few arguments, mismatched otherwise.
   */
  lemma MalformedExactlyOnBadArguments(action: string, args: seq<JsonValue>, view: DeviceView)
    requires action in Actions
    requires !(action == "getScaleData" && |view.handles| == 0)
    ensures Route(action, args, view).Malformed? <==> !WellFormed(action, args)
    ensures Route(action, args, view).Malformed? ==>
      var sig, f := Signature(action), Route(action, args, view).fault;
      && f.index < |sig|
      && (forall j :: 0 <= j < f.index ==> AcceptsAt(sig, args, j))
      && !AcceptsAt(sig, args, f.index)
      && (f.Missing? <==> f.index >= |args|)
  {
    var sig := Signature(action);
    if action == "addIdentity" {
      assert sig == [Text, Integer, Integer, Integer];
      if |args| >= 1 && args[0].JString? && |args| >= 2 && args[1].JNumber? && |args| >= 3 && args[2].JNumber? {
        assert !AcceptsAt(sig, args, 3) ==> !WellFormed(action, args);
      } else if |args| >= 1 && args[0].JString? && |args| >= 2 && args[1].JNumber? {
        assert !AcceptsAt(sig, args, 2);
      } else if |args| >= 1 && args[0].JString? {
        assert !AcceptsAt(sig, args, 1);
      } else {
        assert !AcceptsAt(sig, args, 0);
      }
    } else if action == "getScaleData" {
      assert sig == [NullableText, Integer];
      if |args| >= 1 && (args[0].JString? || args[0].JNull?) {
        assert !AcceptsAt(sig, args, 1) ==> !WellFormed(action, args);
      } else {
        assert !AcceptsAt(sig, args, 0);
      }
    } else if action == "allowAccessToData" {
      assert sig == [Text, Text];
      if |args| >= 1 && args[0].JString? {
        assert !AcceptsAt(sig, args, 1) ==> !WellFormed(action, args);
      } else {
        assert !AcceptsAt(sig, args, 0);
      }
    } else if action in {"start", "addScale", "addWatch"} {
      assert sig == [Text];
      assert !AcceptsAt(sig, args, 0) ==> !WellFormed(action, args);
    } else {
      assert sig == [];
    }
  }

  /**
   * `execute` returns true for a recognised action with fitting arguments, except for a
   * history fetch while no handles are known; it returns false for an unknown action and
   * for that history fetch; it throws only for a recognised action with bad arguments.
   */
  lemma ExecuteReturnValue(action: string, args: seq<JsonValue>, view: DeviceView)
    ensures var res := ResultOf(Route(action, args, view));
      && (res == Returned(true) <==>
            action in Actions && !(action == "getScaleData" && |view.handles| == 0) && WellFormed(action, args))
      && (res == Returned(false) <==>
            action !in Actions || (action == "getScaleData" && |view.handles| == 0))
  {
    if action in Actions && !(action == "getScaleData" && |view.handles| == 0) {
      MalformedExactlyOnBadArguments(action, args, view);
    }
  }

  /**
   * An unknown action delivers nothing and posts nothing; a history fetch with no handles
   * known delivers exactly the no-handles error and posts nothing, whatever its arguments.
   */
  lemma UnknownAndRefusedCommands(action: string, args: seq<JsonValue>, view: DeviceView)
    ensures action !in Actions ==>
      Route(action, args, view) == Unrecognized && Immediate(Route(action, args, view)) == []
    ensures action == "getScaleData" && |view.handles| == 0 ==>
      Immediate(Route(action, args, view)) == [Error(NoHandlesMessage)] &&
      !Route(action, args, view).Posted?
  {
  }

  /** `addScale` and `addWatch` post the decoded identifier list of their string argument. */
  lemma AddDeviceRouted(action: string, args: seq<JsonValue>, view: DeviceView)
    requires action == "addScale" || action == "addWatch"
    requires |args| > 0 && args[0].JString?
    ensures var r := Route(action, args, view);
      r.Posted? &&
      (if action == "addScale" then r.op == AddScale(DecodeIdList(args[0].s))
       else r.op == AddWatch(DecodeIdList(args[0].s)))
  {
  }

  /**
   * `addIdentity` posts only once all four arguments have been read; the posted sex is
   * Male exactly for code 0 and the birthday is the seconds argument in milliseconds.
   */
  lemma AddIdentityRouted(args: seq<JsonValue>, view: DeviceView)
    ensures var r := Route("addIdentity", args, view);
      && (r.Posted? <==>
            |args| >= 4 && args[0].JString? && args[1].JNumber? && args[2].JNumber? && args[3].JNumber?)
      && (r.Posted? ==>
            && r.op.handle == args[0].s
            && (r.op.sex == Male <==> args[1].n == 0)
            && r.op.birthdayMillis == args[2].n * 1000
            && r.op.length == args[3].n)
  {
  }

  /**
   * `start` posts its root key; `allowAccessToData` posts grantee then handle, in argument
   * order; the presence queries answer what the session reports; `startReading` and
   * `getWatchData` post without reading any argument.
   */
  lemma StartGrantAndPresenceRouted(args: seq<JsonValue>, view: DeviceView)
    ensures Route("hasScale", args, view) == Answered(Success(HasScale(view.hasScale)))
    ensures Route("hasWatch", args, view) == Answered(Success(HasWatch(view.hasWatch)))
    ensures |args| >= 1 && args[0].JString? ==> Route("start", args, view) == Posted(Start(args[0].s))
    ensures |args| >= 2 && args[0].JString? && args[1].JString? ==>
      Route("allowAccessToData", args, view) == Posted(AllowAccessToData(args[0].s, args[1].s))
    ensures Route("startReading", args, view) == Posted(StartReading)
    ensures Route("getWatchData", args, view) == Posted(GetWatchData)
  {
  }

  /**
   * With handles known, a history fetch uses the given handle, or the first known one for
   * a null; it keeps the cursor, which later selects the newest page for 0 and the page
   * before that UID otherwise.
   */
  lemma ScaleDataRouted(args: seq<JsonValue>, view: DeviceView)
    requires |view.handles| > 0
    requires |args| >= 2 && (args[0].JString? || args[0].JNull?) && args[1].JNumber?
    ensures var r := Route("getScaleData", args, view);
      && r.Posted?
      && r.op.handle == (if args[0].JNull? then view.handles[0] else args[0].s)
      && r.op.fromUID == args[1].n
      && CallFor(r.op) == (if args[1].n == 0 then UserScaleData(r.op.handle)
                           else UserScaleDataBeforeHandle(r.op.handle, args[1].n))
  {
  }

  /**
   * Line 188 as written, with the argument read by Android's `getString`: that reader never
   * yields null, so the handle given to the history fetch is always the argument's text.
   */
  function ScaleDataHandleAsWritten(args: seq<JsonValue>, handles: seq<string>): (r: Result<string, ArgFault>)
    requires |handles| > 0
    ensures r.Ok? <==> 0 < |args| && !args[0].JNumber?
    ensures 0 < |args| && args[0].JNull? ==> r == Ok("null")
    ensures 0 < |args| && args[0].JString? ==> r == Ok(args[0].s)
    ensures r.Err? ==> r.error.index == 0
  {
    match AndroidGetString(args, 0)
    case Err(f) => Err(f)
    case Ok(given) => Ok(ChooseHandle(given, handles))
  }

  /**
   * The default of line 188 is never taken as written: a JSON null handle is fetched as the
   * handle "null", where the model's route (the intended reading) uses the first known handle.
   */
  lemma NullHandleAsWritten(view: DeviceView)
    requires |view.handles| > 0 && view.handles[0] != "null"
    ensures ScaleDataHandleAsWritten([JNull, JNumber(0)], view.handles) == Ok("null")
    ensures ScaleDataHandleAsWritten([JNull, JNumber(0)], view.handles) != Ok(view.handles[0])
    ensures Route("getScaleData", [JNull, JNumber(0)], view) == Posted(GetScaleData(view.handles[0], 0))
  {
  }

  /** As written, every handle line 188 yields is the text the reader returned. */
  lemma DefaultNeverTakenAsWritten(args: seq<JsonValue>, handles: seq<string>)
    requires |handles| > 0
    ensures ScaleDataHandleAsWritten(args, handles).Ok? ==>
      ScaleDataHandleAsWritten(args, handles) == Ok(AndroidGetString(args, 0).value.value)
  {
  }

  /** The SDK call a posted operation makes when it runs. */
  function CallFor(op: Op): (call: DeviceCall)
    ensures op.GetScaleData? <==> call.UserScaleData? || call.UserScaleDataBeforeHandle?
    ensures op.GetScaleData? ==> call.handle == op.handle && (call.UserScaleData? <==> op.fromUID == 0)
    ensures op.Start? <==> call.NewSkaly?
  {
    match op
    case Start(key) => NewSkaly(key)
    case AddScale(ids) => CallAddScale(ids)
    case AddWatch(ids) => CallAddWatch(ids)
    case AddIdentity(h, sex, ms, len) => CallAddIdentity(h, sex, ms, len)
    case StartReading => CallStartReading
    case GetScaleData(h, uid) => FetchFor(h, uid)
    case GetWatchData => CallStartReadingWatch
    case AllowAccessToData(to, h) => CallAllowAccessToData(to, h)
  }

  /**
   * Each runnable calls the SDK method of its own action and passes the decoded arguments
   * on unchanged; only the history fetch chooses between two methods by its cursor.
   */
  lemma CallForByAction(op: Op)
    ensures op.Start? ==> CallFor(op) == NewSkaly(op.rootKey)
    ensures op.AddScale? ==> CallFor(op) == CallAddScale(op.supportedScales)
    ensures op.AddWatch? ==> CallFor(op) == CallAddWatch(op.supportedWatches)
    ensures op.AddIdentity? ==>
      CallFor(op) == CallAddIdentity(op.handle, op.sex, op.birthdayMillis, op.length)
    ensures op.StartReading? ==> CallFor(op) == CallStartReading
    ensures op.GetScaleData? && op.fromUID == 0 ==> CallFor(op) == UserScaleData(op.handle)
    ensures op.GetScaleData? && op.fromUID != 0 ==>
      CallFor(op) == UserScaleDataBeforeHandle(op.handle, op.fromUID)
    ensures op.GetWatchData? ==> CallFor(op) == CallStartReadingWatch
    ensures op.AllowAccessToData? ==> CallFor(op) == CallAllowAccessToData(op.to, op.handle)
  {
  }

  /** Different operations make different SDK calls: every decoded argument reaches the SDK. */
  lemma CallForInjective(a: Op, b: Op)
    ensures CallFor(a) == CallFor(b) ==> a == b
  {
    if CallFor(a) == CallFor(b) && a.GetScaleData? {
      assert b.GetScaleData? && a.handle == b.handle;
      assert (a.fromUID == 0) == (b.fromUID == 0);
      if a.fromUID != 0 {
        assert CallFor(a).uid == a.fromUID && CallFor(b).uid == b.fromUID;
      }
    }
  }

  /**
   * The completion shapes the SDK call of each operation can end in. Only `addIdentity` and
   * the history fetch catch an exception from the SDK and deliver it.
   */
  predicate Fits(op: Op, c: Completion): (b: bool)
    ensures b && c.Raised? ==> op.AddIdentity? || op.GetScaleData?
    ensures b && c.Done? ==> op.Start? || op.AllowAccessToData?
    ensures (op.AddIdentity? || op.GetScaleData?) && c.Raised? ==> b
  {
    match op
    case Start(_) => c.Done?
    case AddScale(_) => c.Flagged?
    case AddWatch(_) => c.Flagged?
    case AddIdentity(_, _, _, _) => c.Flagged? || c.Raised?
    case StartReading => c.ReadingDone?
    case GetScaleData(_, _) => c.PageDone? || c.Raised?
    case GetWatchData => c.BatchDone?
    case AllowAccessToData(_, _) => c.Done?
  }

  /** The payload each action's success carries. */
  predicate PayloadFits(op: Op, p: Payload)
  {
    match op
    case StartReading => p.ScaleReading?
    case GetScaleData(_, _) => p.ScalePage?
    case GetWatchData => p.WatchBatch?
    case _ => p == NoPayload
  }

  /** The outcome a runnable delivers once its SDK call has completed with `c`. */
  function Respond(op: Op, c: Completion, codec: Codec): (r: Outcome)
    requires Fits(op, c)
    ensures r.Success? ==> PayloadFits(op, r.payload)
    ensures c.Raised? ==> r == Error(c.message)
  {
    match op
    case Start(_) => Success(NoPayload)
    case AddScale(_) => FlagOutcome(c.success, "Failed adding scale")
    case AddWatch(_) => FlagOutcome(c.success, "Failed adding watch")
    case AddIdentity(_, _, _, _) =>
      if c.Raised? then Error(c.message) else FlagOutcome(c.success, "Failed adding user")
    case StartReading => ReadingOutcome(c.scannedHandle, c.reply, codec.scale)
    case GetScaleData(_, _) =>
      if c.Raised? then Error(c.message) else PageOutcome(c.cursor, c.scaleReplies, codec.scale)
    case GetWatchData => BatchOutcome(c.watchReplies, codec.watch)
    case AllowAccessToData(_, _) => Success(NoPayload)
  }

  /**
   * A reading is answered by the reading adapter, a history page by the page adapter and a
   * watch batch by the batch adapter, each given exactly what the SDK's callback received
   * or, for the history fetch, what the call returned.
   */
  lemma RespondByAction(op: Op, c: Completion, codec: Codec)
    requires Fits(op, c)
    ensures op.StartReading? ==>
      Respond(op, c, codec) == ReadingOutcome(c.scannedHandle, c.reply, codec.scale)
    ensures op.GetScaleData? && c.PageDone? ==>
      Respond(op, c, codec) == PageOutcome(c.cursor, c.scaleReplies, codec.scale)
    ensures op.GetWatchData? ==> Respond(op, c, codec) == BatchOutcome(c.watchReplies, codec.watch)
  {
  }

  /**
   * The boolean callbacks succeed without payload on true and report their own message on
   * false; the flags of the reading and watch callbacks do not matter; `start` and
   * `allowAccessToData` always succeed.
   */
  lemma CallbackAdapters(op: Op, c: Completion, codec: Codec)
    requires Fits(op, c)
    ensures c.Flagged? && c.success ==> Respond(op, c, codec) == Success(NoPayload)
    ensures c.Flagged? && !c.success ==>
      Respond(op, c, codec) == Error(match op
                                     case AddScale(_) => "Failed adding scale"
                                     case AddWatch(_) => "Failed adding watch"
                                     case _ => "Failed adding user")
    ensures op.StartReading? ==>
      Respond(op, c, codec) == Respond(op, ReadingDone(!c.success, c.scannedHandle, c.reply), codec)
    ensures op.GetWatchData? ==>
      Respond(op, c, codec) == Respond(op, BatchDone(!c.success, c.watchReplies), codec)
    ensures op.Start? || op.AllowAccessToData? ==> Respond(op, c, codec) == Success(NoPayload)
  {
  }

  /** Every task's completion has a shape its operation can end in. */
  predicate AllFit(ts: seq<Task>, cs: seq<Completion>)
  {
    |ts| == |cs| && forall i :: 0 <= i < |ts| ==> Fits(ts[i].op, cs[i])
  }

  /** The deliveries of running `ts` in order, each SDK call completing with the matching `cs`. */
  function Responses(ts: seq<Task>, cs: seq<Completion>, codec: Codec): seq<Delivery>
    requires AllFit(ts, cs)
    decreases |ts|
  {
    if ts == [] then []
    else
      var n := |ts| - 1;
      Responses(ts[..n], cs[..n], codec) + [Delivery(ts[n].callback, Respond(ts[n].op, cs[n], codec))]
  }

  /** The SDK calls of running `ts` in order. */
  function Calls(ts: seq<Task>): seq<DeviceCall>
    decreases |ts|
  {
    if ts == [] then [] else Calls(ts[..|ts| - 1]) + [CallFor(ts[|ts| - 1].op)]
  }

  /** The session after running `ts` in order from session `s`. */
  function SessionAfter(s: Option<Session>, ts: seq<Task>): Option<Session>
    decreases |ts|
  {
    if ts == [] then s
    else
      var last := ts[|ts| - 1].op;
      if last.Start? then Some(Session(last.rootKey)) else SessionAfter(s, ts[..|ts| - 1])
  }

  /** Every task that needs a session finds one: either there is one, or an earlier `start` made one. */
  predicate Ready(hasSession: bool, ts: seq<Task>)
    decreases |ts|
  {
    ts == [] || ((hasSession || ts[0].op.Start?) && Ready(hasSession || ts[0].op.Start?, ts[1..]))
  }

  /** Running the queue delivers exactly one outcome per task, to its own callback, in submission order. */
  lemma {:induction false} ResponsesInOrder(ts: seq<Task>, cs: seq<Completion>, codec: Codec)
    requires AllFit(ts, cs)
    ensures |Responses(ts, cs, codec)| == |ts|
    ensures forall k :: 0 <= k < |ts| ==>
      Responses(ts, cs, codec)[k] == Delivery(ts[k].callback, Respond(ts[k].op, cs[k], codec))
    decreases |ts|
  {
    if ts != [] {
      var n := |ts| - 1;
      assert AllFit(ts[..n], cs[..n]);
      ResponsesInOrder(ts[..n], cs[..n], codec);
    }
  }

  /** Running the queue makes exactly one SDK call per task, in submission order. */
  lemma {:induction false} CallsInOrder(ts: seq<Task>)
    ensures |Calls(ts)| == |ts|
    ensures forall k :: 0 <= k < |ts| ==> Calls(ts)[k] == CallFor(ts[k].op)
    decreases |ts|
  {
    if ts != [] {
      CallsInOrder(ts[..|ts| - 1]);
    }
  }

  /** After running `ts` the session is the one the last `start` among them made, or the old one if none did. */
  lemma {:induction false} SessionAfterLastStart(s: Option<Session>, ts: seq<Task>)
    ensures (forall k :: 0 <= k < |ts| ==> !ts[k].op.Start?) ==> SessionAfter(s, ts) == s
    ensures forall k :: 0 <= k < |ts| && ts[k].op.Start? &&
                        (forall j :: k < j < |ts| ==> !ts[j].op.Start?) ==>
      SessionAfter(s, ts) == Some(Session(ts[k].op.rootKey))
    decreases |ts|
  {
    if ts != [] {
      var n := |ts| - 1;
      SessionAfterLastStart(s, ts[..n]);
      assert forall k :: 0 <= k < n ==> ts[..n][k] == ts[k];
    }
  }

  /** The plugin: the static session, the main looper's queue, and what has been observed across the boundary. */
  class SkalyPlugin {
    const codec: Codec
    var session: Option<Session>   // the static `skaly` field
    var queue: seq<Task>           // runnables posted to the main looper, oldest first
    var log: seq<Delivery>         // outcomes delivered to callback contexts, in order
    var calls: seq<DeviceCall>     // calls made into the SDK, in order

    constructor (codec: Codec)
      ensures this.codec == codec
      ensures session == None && queue == [] && log == [] && calls == []
    {
      this.codec := codec;
      session := None;
      queue := [];
      log := [];
      calls := [];
    }

    /**
     * `execute(action, args, callbackContext)`. `view` is what the session answers for
     * `hasScale()`, `hasWatch()` and `getHandles()`; those three actions dereference the
     * session and need one.
     */
    method Execute(action: string, args: seq<JsonValue>, callback: CallbackId, view: DeviceView) returns (res: ExecResult)
      requires action in {"hasScale", "hasWatch", "getScaleData"} ==> session.Some?
      modifies this
      ensures var r := Route(action, args, view);
        && res == ResultOf(r)
        && queue == (if r.Posted? then old(queue) + [Task(callback, r.op)] else old(queue))
        && log == old(log) + Addressed(callback, Immediate(r))
      ensures session == old(session) && calls == old(calls)
    {
      var op: Op;
      if action == "start" {
        var rootKey := GetString(args, 0);
        if rootKey.Err? { return Threw(rootKey.error); }
        op := Start(rootKey.value);
      } else if action == "hasScale" {
        log := log + [Delivery(callback, Success(HasScale(view.hasScale)))];
        return Returned(true);
      } else if action == "hasWatch" {
        log := log + [Delivery(callback, Success(HasWatch(view.hasWatch)))];
        return Returned(true);
      } else if action == "addScale" {
        var s := GetString(args, 0);
        if s.Err? { return Threw(s.error); }
        op := AddScale(DecodeIdList(s.value));
      } else if action == "addWatch" {
        var s := GetString(args, 0);
        if s.Err? { return Threw(s.error); }
        op := AddWatch(DecodeIdList(s.value));
      } else if action == "addIdentity" {
        var handle := GetString(args, 0);
        if handle.Err? { return Threw(handle.error); }
        var code := GetInteger(args, 1);
        if code.Err? { return Threw(code.error); }
        var seconds := GetInteger(args, 2);
        if seconds.Err? { return Threw(seconds.error); }
        var length := GetInteger(args, 3);
        if length.Err? { return Threw(length.error); }
        op := AddIdentity(handle.value, SexOf(code.value), BirthdayMillis(seconds.value), length.value);
      } else if action == "startReading" {
        op := StartReading;
      } else if action == "getScaleData" {
        if |view.handles| == 0 {
          log := log + [Delivery(callback, Error(NoHandlesMessage))];
          return Returned(false);
        }
        var given := GetNullableString(args, 0);
        if given.Err? { return Threw(given.error); }
        var fromUID := GetInteger(args, 1);
        if fromUID.Err? { return Threw(fromUID.error); }
        op := GetScaleData(ChooseHandle(given.value, view.handles), fromUID.value);
      } else if action == "getWatchData" {
        op := GetWatchData;
      } else if action == "allowAccessToData" {
        var to := GetString(args, 0);
        if to.Err? { return Threw(to.error); }
        var handle := GetString(args, 1);
        if handle.Err? { return Threw(handle.error); }
        op := AllowAccessToData(to.value, handle.value);
      } else {
        return Returned(false);
      }
      queue := queue + [Task(callback, op)];
      return Returned(true);
    }

    /**
     * The main looper runs the oldest posted runnable: it makes its SDK call, the call
     * completes with `c`, and the runnable's callback context receives one outcome.
     * Every runnable but `start`'s dereferences the session and needs one.
     */
    method RunNext(c: Completion)
      requires queue != [] && Fits(queue[0].op, c)
      requires session.Some? || queue[0].op.Start?
      modifies this
      ensures var t := old(queue[0]);
        && queue == old(queue[1..])
        && calls == old(calls) + [CallFor(t.op)]
        && log == old(log) + [Delivery(t.callback, Respond(t.op, c, codec))]
        && session == (if t.op.Start? then Some(Session(t.op.rootKey)) else old(session))
    {
      var t := queue[0];
      queue := queue[1..];
      var outcome: Outcome;
      match t.op {
        case Start(rootKey) =>
          calls := calls + [NewSkaly(rootKey)];
          session := Some(Session(rootKey));
          outcome := Success(NoPayload);
        case AddScale(ids) =>
          calls := calls + [CallAddScale(ids)];
          outcome := if c.success then Success(NoPayload) else Error("Failed adding scale");
        case AddWatch(ids) =>
          calls := calls + [CallAddWatch(ids)];
          outcome := if c.success then Success(NoPayload) else Error("Failed adding watch");
        case AddIdentity(handle, sex, millis, length) =>
          calls := calls + [CallAddIdentity(handle, sex, millis, length)];
          if c.Raised? {
            outcome := Error(c.message);
          } else {
            outcome := if c.success then Success(NoPayload) else Error("Failed adding user");
          }
        case StartReading =>
          calls := calls + [CallStartReading];
          if c.reply.None? {
            outcome := Error(NoReadingPrefix + c.scannedHandle);
          } else {
            var json := codec.scale(c.reply.value);
            outcome := if json.Err? then Error(json.error) else Success(ScaleReading(json.value, c.scannedHandle));
          }
        case GetScaleData(handle, fromUID) =>
          if fromUID == 0 {
            calls := calls + [UserScaleData(handle)];
          } else {
            calls := calls + [UserScaleDataBeforeHandle(handle, fromUID)];
          }
          if c.Raised? {
            outcome := Error(c.message);
          } else {
            var arr := SerializeEach(c.scaleReplies, codec.scale);
            outcome := if arr.Err? then Error(arr.error) else Success(ScalePage(arr.value, c.cursor));
          }
        case GetWatchData =>
          calls := calls + [CallStartReadingWatch];
          var arr := SerializeEach(c.watchReplies, codec.watch);
          outcome := if arr.Err? then Error(arr.error) else Success(WatchBatch(arr.value));
        case AllowAccessToData(to, handle) =>
          calls := calls + [CallAllowAccessToData(to, handle)];
          outcome := Success(NoPayload);
      }
      log := log + [Delivery(t.callback, outcome)];
    }

    /** Runs every posted runnable, oldest first, the i-th SDK call completing with `cs[i]`. */
    method Drain(cs: seq<Completion>)
      requires AllFit(queue, cs)
      requires Ready(session.Some?, queue)
      modifies this
      ensures queue == []
      ensures calls == old(calls) + Calls(old(queue))
      ensures log == old(log) + Responses(old(queue), cs, codec)
      ensures session == SessionAfter(old(session), old(queue))
    {
      ghost var ts := queue;
      var i := 0;
      while i < |cs|
        invariant 0 <= i <= |ts| == |cs|
        invariant AllFit(ts, cs)
        invariant queue == ts[i..]
        invariant AllFit(ts[..i], cs[..i])
        invariant calls == old(calls) + Calls(ts[..i])
        invariant log == old(log) + Responses(ts[..i], cs[..i], codec)
        invariant session == SessionAfter(old(session), ts[..i])
        invariant Ready(session.Some?, ts[i..])
      {
        assert ts[i..][1..] == ts[i + 1..];
        RunNext(cs[i]);
        assert ts[..i + 1][..i] == ts[..i];
        assert cs[..i + 1][..i] == cs[..i];
        assert AllFit(ts[..i + 1], cs[..i + 1]);
        i := i + 1;
      }
      assert ts[..i] == ts && cs[..i] == cs;
    }
  }

  /** A `start` followed by two identity creations, the second one refused by the SDK. */
  lemma StartThenTwoIdentities(ts: seq<Task>, cs: seq<Completion>, codec: Codec)
    requires ts == [Task(0, Start("key")), Task(1, AddIdentity("ann", Male, 86400000, 170)),
                    Task(2, AddIdentity("bob", Female, 0, 180))]
    requires cs == [Done, Flagged(true), Flagged(false)]
    ensures AllFit(ts, cs) && Ready(false, ts)
    ensures Calls(ts) == [NewSkaly("key"), CallAddIdentity("ann", Male, 86400000, 170),
                          CallAddIdentity("bob", Female, 0, 180)]
    ensures Responses(ts, cs, codec) ==
      [Delivery(0, Success(NoPayload)), Delivery(1, Success(NoPayload)), Delivery(2, Error("Failed adding user"))]
    ensures SessionAfter(None, ts) == Some(Session("key"))
  {
    assert AllFit(ts, cs);
    assert Ready(false, ts) by {
      assert ts[1..][1..][1..] == [];
      assert Ready(true, ts[1..][1..]);
    }
    CallsInOrder(ts);
    ResponsesInOrder(ts, cs, codec);
    SessionAfterLastStart(None, ts);
  }

  /** The three tasks of the example below. */
  function ExampleTasks(): seq<Task>
  {
    [Task(0, Start("key")), Task(1, AddIdentity("ann", Male, 86400000, 170)),
     Task(2, AddIdentity("bob", Female, 0, 180))]
  }

  /**
   * A client of the specifications: after `start`, two `addIdentity` commands queue
   * behind it and an unknown action changes nothing.
   */
  method SubmitExample(codec: Codec, view: DeviceView) returns (plugin: SkalyPlugin)
    ensures fresh(plugin) && plugin.codec == codec
    ensures plugin.queue == ExampleTasks() && plugin.log == [] && plugin.calls == [] && plugin.session == None
  {
    plugin := new SkalyPlugin(codec);
    var ann := [JString("ann"), JNumber(0), JNumber(86400), JNumber(170)];
    var bob := [JString("bob"), JNumber(1), JNumber(0), JNumber(180)];
    var a := AddIdentity("ann", Male, 86400000, 170);
    var b := AddIdentity("bob", Female, 0, 180);
    assert Route("start", [JString("key")], view) == Posted(Start("key"));
    assert Route("addIdentity", ann, view) == Posted(a) by { AddIdentityRouted(ann, view); }
    assert Route("addIdentity", bob, view) == Posted(b) by { AddIdentityRouted(bob, view); }
    assert Route("doesNotExist", [], view) == Unrecognized;
    var r0 := plugin.Execute("start", [JString("key")], 0, view);
    assert plugin.queue == [Task(0, Start("key"))] && plugin.log == [];
    var r1 := plugin.Execute("addIdentity", ann, 1, view);
    assert plugin.queue == [Task(0, Start("key")), Task(1, a)] && plugin.log == [];
    var r2 := plugin.Execute("addIdentity", bob, 2, view);
    assert plugin.queue == ExampleTasks() && plugin.log == [];
    var r3 := plugin.Execute("doesNotExist", [], 3, view);
    assert r0 == r1 == r2 == Returned(true) && r3 == Returned(false);
  }

  /** Draining that queue runs the three in submission order; the SDK refuses the second identity. */
  method RunExample(codec: Codec, view: DeviceView) returns (log: seq<Delivery>, calls: seq<DeviceCall>, session: Option<Session>)
    ensures log == [Delivery(0, Success(NoPayload)), Delivery(1, Success(NoPayload)),
                    Delivery(2, Error("Failed adding user"))]
    ensures calls == [NewSkaly("key"), CallAddIdentity("ann", Male, 86400000, 170),
                      CallAddIdentity("bob", Female, 0, 180)]
    ensures session == Some(Session("key"))
  {
    var plugin := SubmitExample(codec, view);
    var cs := [Done, Flagged(true), Flagged(false)];
    StartThenTwoIdentities(ExampleTasks(), cs, codec);
    plugin.Drain(cs);
    log, calls, session := plugin.log, plugin.calls, plugin.session;
  }
}
