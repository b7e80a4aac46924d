/**
 * The surface of the Skaly device SDK as the bridge sees it: the SDK's value types,
 * the calls the bridge makes into a session, and the shapes in which those calls
 * complete. What the SDK does inside a call is not modelled: its answers reach the
 * model as parameters (a DeviceView, a Completion).
 */
module Device {
  import opened Wrappers

  /** `io.skaly.sdk.Sex`. */
  datatype Sex = Male | Female

  /** A scale reading; its contents are opaque to the bridge. */
  datatype ScaleReply = ScaleReply(data: string)

  /** A watch reading; its contents are opaque to the bridge. */
  datatype WatchReply = WatchReply(data: string)

  /** What a session answers synchronously: `hasScale()`, `hasWatch()`, `getHandles()`. */
  datatype DeviceView = DeviceView(hasScale: bool, hasWatch: bool, handles: seq<string>)

  /** One call from a posted runnable into the SDK, with the arguments it was given. */
  datatype DeviceCall =
    | NewSkaly(rootKey: string)
    | CallAddScale(supportedScales: seq<string>)
    | CallAddWatch(supportedWatches: seq<string>)
    | CallAddIdentity(handle: string, sex: Sex, birthdayMillis: int, length: int)
    | CallStartReading
    | UserScaleData(handle: string)
    | UserScaleDataBeforeHandle(handle: string, uid: int)
    | CallStartReadingWatch
    | CallAllowAccessToData(to: string, handle: string)

  /** How an SDK call completed: the arguments its callback received, its return value, or the exception it threw. */
  datatype Completion =
    | Done                                                                 // a constructor returned, or a `Function0<Unit>` callback
    | Flagged(success: bool)                                               // a `Function1<Boolean, Unit>` callback
    | Raised(message: string)                                              // the call threw an exception with this message
    | ReadingDone(success: bool, scannedHandle: string, reply: Option<ScaleReply>) // the `startReading` callback
    | PageDone(cursor: int, scaleReplies: seq<ScaleReply>)                   // the `Pair<Long, List<ScaleReply>>` a history fetch returns
    | BatchDone(success: bool, watchReplies: seq<WatchReply>)                // the `startReadingWatch` callback
}
