/**
 * The result a tool handler hands back to the agent runtime. On the wire it
 * is a string-keyed map with a "status" entry and exactly one payload entry:
 * "report" on success, "error_message" on error. The variant type makes the
 * two shapes explicit; ToWire gives the map, FromWire reads one back.
 */
module ToolResults {
  import opened Wrappers

  datatype ToolResult = Success(report: string) | Error(message: string)

  const StatusKey := "status"
  const ReportKey := "report"
  const ErrorKey := "error_message"
  const StatusSuccess := "success"
  const StatusError := "error"

  /** The map the handler returns for `r`. */
  function ToWire(r: ToolResult): (m: map<string, string>)
    ensures StatusKey in m && m[StatusKey] in {StatusSuccess, StatusError}
    ensures m[StatusKey] == StatusSuccess <==> r.Success?
    ensures ReportKey in m <==> r.Success?
    ensures ErrorKey in m <==> r.Error?
    ensures !(ReportKey in m && ErrorKey in m)
    ensures |m| == 2
  {
    match r
    case Success(report) => map[StatusKey := StatusSuccess, ReportKey := report]
    case Error(message) => map[StatusKey := StatusError, ErrorKey := message]
  }

  /**
   * Reads a result map: a status of "success" with only a report, or a
   * status of "error" with only an error message. Anything else is None.
   */
  function FromWire(m: map<string, string>): (r: Option<ToolResult>)
  {
    if m.Keys == {StatusKey, ReportKey} && m[StatusKey] == StatusSuccess then
      Some(Success(m[ReportKey]))
    else if m.Keys == {StatusKey, ErrorKey} && m[StatusKey] == StatusError then
      Some(Error(m[ErrorKey]))
    else
      None
  }

  /** Every result map a handler produces reads back as the same result. */
  lemma WireRoundTrip(r: ToolResult)
    ensures FromWire(ToWire(r)) == Some(r)
  {
    var m := ToWire(r);
    if r.Success? {
      assert m.Keys == {StatusKey, ReportKey};
    } else {
      assert m.Keys == {StatusKey, ErrorKey};
    }
  }

  /** A map that reads as a result is exactly that result's wire form. */
  lemma WireUnique(m: map<string, string>, r: ToolResult)
    requires FromWire(m) == Some(r)
    ensures ToWire(r) == m
  {
    var w := ToWire(r);
    assert w.Keys == m.Keys;
    forall k | k in m ensures w[k] == m[k] {
    }
  }
}
