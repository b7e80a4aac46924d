/**
 * The positional argument array that the script side passes to `execute`, and the
 * typed readers the bridge applies to it (org.json's `getString`, `getInt`, `getLong`).
 * A reader that fails raises a JSONException in the source; here it returns an ArgFault.
 */
module JsonArgs {
  import opened Wrappers

  /** One element of the argument array. */
  datatype JsonValue = JString(s: string) | JNumber(n: int) | JBool(b: bool) | JNull

  /** Why reading argument `index` failed: there is no such element, or it has the wrong type. */
  datatype ArgFault = Missing(index: nat) | Mismatch(index: nat)

  /** The string at `i`; a missing element, a null or a non-string is a fault. */
  function GetString(args: seq<JsonValue>, i: nat): (r: Result<string, ArgFault>)
    ensures r.Ok? <==> i < |args| && args[i].JString?
    ensures r.Ok? ==> r.value == args[i].s
    ensures r.Err? ==> r.error.index == i && (r.error.Missing? <==> i >= |args|)
  {
    if i >= |args| then Err(Missing(i))
    else if args[i].JString? then Ok(args[i].s)
    else Err(Mismatch(i))
  }

  /** The string at `i`, where a JSON null reads as an absent string. */
  function GetNullableString(args: seq<JsonValue>, i: nat): (r: Result<Option<string>, ArgFault>)
    ensures r.Ok? <==> i < |args| && (args[i].JString? || args[i].JNull?)
    ensures r.Ok? ==> (r.value.None? <==> args[i].JNull?)
    ensures r.Ok? && r.value.Some? ==> r.value.value == args[i].s
    ensures r.Err? ==> r.error.index == i && (r.error.Missing? <==> i >= |args|)
  {
    if i >= |args| then Err(Missing(i))
    else if args[i].JString? then Ok(Some(args[i].s))
    else if args[i].JNull? then Ok(None)
    else Err(Mismatch(i))
  }

  /** The integer at `i` (both `getInt` and `getLong`; widths are not modelled). */
  function GetInteger(args: seq<JsonValue>, i: nat): (r: Result<int, ArgFault>)
    ensures r.Ok? <==> i < |args| && args[i].JNumber?
    ensures r.Ok? ==> r.value == args[i].n
    ensures r.Err? ==> r.error.index == i && (r.error.Missing? <==> i >= |args|)
  {
    if i >= |args| then Err(Missing(i))
    else if args[i].JNumber? then Ok(args[i].n)
    else Err(Mismatch(i))
  }

  /**
   * Android's `JSONArray.getString` as that library writes it: a JSON null is read as the
   * four-letter text "null" and a boolean as its text, so the reader never yields Java null.
   * (Numbers, which it would also turn into text, are left out here.)
   */
  function AndroidGetString(args: seq<JsonValue>, i: nat): (r: Result<Option<string>, ArgFault>)
    ensures r.Ok? <==> i < |args| && !args[i].JNumber?
    ensures r.Ok? ==> r.value.Some?
    ensures r.Ok? && args[i].JNull? ==> r.value == Some("null")
    ensures r.Ok? && args[i].JString? ==> r.value == Some(args[i].s)
  {
    if i >= |args| then Err(Missing(i))
    else match args[i]
      case JString(s) => Ok(Some(s))
      case JNull => Ok(Some("null"))
      case JBool(b) => Ok(Some(if b then "true" else "false"))
      case JNumber(_) => Err(Mismatch(i))
  }
}
