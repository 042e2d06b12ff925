/**
 * Turning a result dict into the text of the result panel: an ERROR or
 * SUCCESS heading, and a pretty-printed payload cut at 5000 characters.
 * The panel shows the text literally (markup off), so the text is the whole
 * of what is displayed.
 */
module Rendering {
  import opened Wrappers
  import opened JsonValue
  import opened Invoker

  const Limit := 5000
  const Marker := "\n... (truncated)"
  const ErrorHeading := "ERROR:\n"
  const SuccessHeading := "SUCCESS:\n"

  /** A payload longer than the limit keeps its first 5000 characters and gets the marker. */
  function Truncate(s: string): (r: string)
    ensures |r| <= Limit + |Marker|
    ensures |s| <= Limit ==> r == s
    ensures |s| > Limit ==> |r| == Limit + |Marker| && r[..Limit] == s[..Limit] && r[Limit..] == Marker
  {
    if |s| > Limit then s[..Limit] + Marker else s
  }

  /** Truncating an already truncated payload changes nothing. */
  lemma TruncateIdempotent(s: string)
    ensures Truncate(Truncate(s)) == Truncate(s)
  {
  }

  /**
   * `_update_result` on a dict: the "error" key is consulted first; then a
   * truthy "success" shows the pretty-printed "data"; any other dict is shown
   * pretty-printed as a whole. None stands for the KeyError raised when
   * "success" is truthy but "data" is missing.
   */
  function Render(dict: Json, lib: Library): (r: Option<string>)
    requires dict.Object?
    ensures Lookup(dict.members, "error").Some? ==>
              r == Some(ErrorHeading + Text(Lookup(dict.members, "error").value, lib))
    ensures r.None? <==>
              && Lookup(dict.members, "error").None?
              && Lookup(dict.members, "success").Some? && Truthy(Lookup(dict.members, "success").value)
              && Lookup(dict.members, "data").None?
    ensures Lookup(dict.members, "error").None? && Lookup(dict.members, "success").Some?
            && Truthy(Lookup(dict.members, "success").value) && Lookup(dict.members, "data").Some? ==>
              r == Some(SuccessHeading + Truncate(lib.dumps(Lookup(dict.members, "data").value)))
    ensures Lookup(dict.members, "error").None?
            && (Lookup(dict.members, "success").None? || !Truthy(Lookup(dict.members, "success").value)) ==>
              r == Some(lib.dumps(dict))
  {
    match Lookup(dict.members, "error")
    case Some(e) => Some(ErrorHeading + Text(e, lib))
    case None =>
      var success := Lookup(dict.members, "success");
      if success.Some? && Truthy(success.value) then
        match Lookup(dict.members, "data")
        case Some(data) => Some(SuccessHeading + Truncate(lib.dumps(data)))
        case None => None
      else Some(lib.dumps(dict))
  }

  /** The panel text for a reply built by the dashboard: the dict renderer never fails on those. */
  function Display(reply: Reply, lib: Library): (r: string)
    ensures Render(AsDict(reply), lib) == Some(r)
    ensures reply.Failed? ==> r == ErrorHeading + reply.message
    ensures reply.Succeeded? ==> r == SuccessHeading + Truncate(lib.dumps(reply.data))
  {
    var dict := AsDict(reply);
    match Render(dict, lib)
    case Some(text) => text
    case None => assert false; ""
  }

  /** The heading tells errors and successes apart, and a success never shows more than the limit plus the marker. */
  lemma DisplayHeading(reply: Reply, lib: Library)
    ensures var r := Display(reply, lib);
            && (reply.Failed? <==> |r| >= |ErrorHeading| && r[..|ErrorHeading|] == ErrorHeading)
            && (reply.Succeeded? ==> r[..|SuccessHeading|] == SuccessHeading
                                     && |r| <= |SuccessHeading| + Limit + |Marker|)
  {
    var r := Display(reply, lib);
    if reply.Succeeded? {
      assert r[..|ErrorHeading|][1] == 'U';
    }
  }
}
