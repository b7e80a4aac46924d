/** The argument mappings `execute` applies before it posts an identity or history operation. */
module Decoders {
  import opened Wrappers
  import opened Device

  /** Sex code 0 is Male; every other code is Female (SkalySDK.java:134). */
  function SexOf(code: int): (sex: Sex)
    ensures sex == Male <==> code == 0
    ensures sex == Female <==> code != 0
  {
    if code == 0 then Male else Female
  }

  /** The birthday instant in milliseconds for a birthdate given in epoch seconds (SkalySDK.java:135). */
  function BirthdayMillis(seconds: int): (millis: int)
    ensures millis % 1000 == 0
    ensures millis / 1000 == seconds
  {
    seconds * 1000
  }

  /** The handle a history fetch uses: the one given, or else the first one the session knows (SkalySDK.java:188). */
  function ChooseHandle(given: Option<string>, handles: seq<string>): (handle: string)
    requires |handles| > 0
    ensures given.None? ==> handle == handles[0] && handle in handles
    ensures given.Some? ==> handle == given.value
  {
    match given
    case None => handles[0]
    case Some(h) => h
  }

  /** The history fetch a cursor selects: 0 is the newest page, any other UID the page before it (SkalySDK.java:195-200). */
  function FetchFor(handle: string, fromUID: int): (call: DeviceCall)
    ensures call.UserScaleData? <==> fromUID == 0
    ensures call.UserScaleDataBeforeHandle? <==> fromUID != 0
    ensures call.handle == handle
    ensures call.UserScaleDataBeforeHandle? ==> call.uid == fromUID
  {
    if fromUID == 0 then UserScaleData(handle) else UserScaleDataBeforeHandle(handle, fromUID)
  }
}
