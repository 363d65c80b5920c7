/**
 * What the library logs. `LogStyle` is the option set that gates logging;
 * each `log*` function is modelled as the list of lines it prints, and the
 * process-wide `logStyle` becomes the `style` of an explicit `LogContext`.
 */
module Logging {
  import opened Base
  import opened Foundation
  import opened HttpMethods
  import opened DataDirections
  import Decimal

  /** `BRNetworking.LogStyle`: an option set over the bits of a `UInt8`. */
  datatype LogStyle = LogStyle(rawValue: bv8) {

    /** Log descriptions of requests and results. */
    static const CallDescriptions := LogStyle(1 << 0)
    /** Log request headers; ignored unless `CallDescriptions` is also set. */
    static const CallHeaders := LogStyle(1 << 1)
    /** Log outgoing request bodies. */
    static const OutgoingJSON := LogStyle(1 << 2)
    /** Log incoming response bodies. */
    static const IncomingJSON := LogStyle(1 << 3)

    /** `OptionSet.contains`: every bit of `member` is set in this set. */
    predicate Contains(member: LogStyle) {
      rawValue & member.rawValue == member.rawValue
    }

    /** `OptionSet.union` (what `insert` does to the raw value). */
    function Union(other: LogStyle): (u: LogStyle)
      ensures u.Contains(this) && u.Contains(other)
      ensures forall m: LogStyle :: this.Contains(m) ==> u.Contains(m)
    {
      LogStyle(rawValue | other.rawValue)
    }

    /** An option set written as an array literal: the empty set with each member inserted in turn. */
    static function ArrayLiteral(members: seq<LogStyle>): (s: LogStyle)
      ensures forall i :: 0 <= i < |members| ==> s.Contains(members[i])
      decreases |members|
    {
      if members == [] then LogStyle(0)
      else ArrayLiteral(members[..|members| - 1]).Union(members[|members| - 1])
    }

    /** `LogStyle.none`: nothing is logged. */
    static function None(): (s: LogStyle)
      ensures forall i :: 0 <= i < |Flags| ==> !s.Contains(Flags[i])
    {
      ArrayLiteral([])
    }

    /** `LogStyle.complete`: everything is logged. */
    static function Complete(): (s: LogStyle)
      ensures forall i :: 0 <= i < |Flags| ==> s.Contains(Flags[i])
    {
      ArrayLiteral([CallDescriptions, CallHeaders, OutgoingJSON, IncomingJSON])
    }
  }

  /** The four flags, in declaration order. */
  const Flags: seq<LogStyle> := [LogStyle.CallDescriptions, LogStyle.CallHeaders, LogStyle.OutgoingJSON, LogStyle.IncomingJSON]

  /** The flags are the bits 1, 2, 4 and 8, pairwise disjoint; `none` is 0 and `complete` is 15. */
  lemma FlagBits()
    ensures Flags[0].rawValue == 1 && Flags[1].rawValue == 2 && Flags[2].rawValue == 4 && Flags[3].rawValue == 8
    ensures forall i, j :: 0 <= i < j < |Flags| ==> Flags[i].rawValue & Flags[j].rawValue == 0
    ensures LogStyle.None().rawValue == 0
    ensures LogStyle.Complete().rawValue == 15
  {
    var members := [LogStyle.CallDescriptions, LogStyle.CallHeaders, LogStyle.OutgoingJSON, LogStyle.IncomingJSON];
    assert members[..0] == [];
    assert LogStyle.ArrayLiteral(members[..1]).rawValue == 1 by { assert members[..1][..0] == []; }
    assert LogStyle.ArrayLiteral(members[..2]).rawValue == 3 by { assert members[..2][..1] == members[..1]; }
    assert LogStyle.ArrayLiteral(members[..3]).rawValue == 7 by { assert members[..3][..2] == members[..2]; }
    assert members[..4][..3] == members[..3];
    assert members[..4] == members;
  }

  /** A union holds a flag exactly when one of its operands does: it adds no other flag. */
  lemma UnionExactly(a: LogStyle, b: LogStyle, i: nat)
    requires i < |Flags|
    ensures a.Union(b).Contains(Flags[i]) <==> a.Contains(Flags[i]) || b.Contains(Flags[i])
  {
    var bit := Flags[i].rawValue;
    assert bit == 1 || bit == 2 || bit == 4 || bit == 8;
  }

  /** An array literal holds a flag exactly when one of its members does. */
  lemma {:induction false} ArrayLiteralExactly(members: seq<LogStyle>, i: nat)
    requires i < |Flags|
    ensures LogStyle.ArrayLiteral(members).Contains(Flags[i]) <==> exists j :: 0 <= j < |members| && members[j].Contains(Flags[i])
    decreases |members|
  {
    if members != [] {
      var n := |members|;
      var prefix := members[..n - 1];
      ArrayLiteralExactly(prefix, i);
      UnionExactly(LogStyle.ArrayLiteral(prefix), members[n - 1], i);
      assert forall j :: 0 <= j < n - 1 ==> prefix[j] == members[j];
    }
  }

  /** Flags are independent: a set holding only `callHeaders` does not hold `callDescriptions`. */
  lemma FlagsIndependent(i: nat, j: nat)
    requires i < |Flags| && j < |Flags| && i != j
    ensures !Flags[i].Contains(Flags[j])
  {
  }

  /** The environment the log functions read: the style, and Foundation's text conversions. */
  datatype LogContext = LogContext(
    style: LogStyle,
    /** `String(data:encoding: .utf8)`: the text, or nothing if the bytes are not valid UTF-8. */
    utf8Text: Bytes -> Option<string>,
    /** The interpolation of a header dictionary, `"\(headers)"`. */
    headersText: map<string, string> -> string)

  /** A value together with the lines printed while computing it. */
  datatype Logged<+T> = Logged(value: T, log: seq<string>)

  /** `logData`: dumps a payload if the flag for its direction is set. */
  function LogData(ctx: LogContext, data: Option<Bytes>, direction: DataDirection): (lines: seq<string>)
    ensures |lines| <= 1
    ensures lines != [] <==> ctx.style.Contains(if direction.Incoming? then LogStyle.IncomingJSON else LogStyle.OutgoingJSON)
    ensures forall line <- lines :: direction.LogPrefix() <= line
    ensures lines != [] && data.None? ==> lines[0] == direction.LogPrefix() + "No Data"
    ensures lines != [] && data.Some? && ctx.utf8Text(data.value).Some? ==>
              lines[0] == direction.LogPrefix() + ctx.utf8Text(data.value).value
    ensures lines != [] && data.Some? && ctx.utf8Text(data.value).None? ==>
              lines[0] == direction.LogPrefix() + "invalid JSON"
  {
    var enabled := match direction
      case Incoming => ctx.style.Contains(LogStyle.IncomingJSON)
      case Outgoing => ctx.style.Contains(LogStyle.OutgoingJSON);
    if !enabled then []
    else match data
      case None => [direction.LogPrefix() + "No Data"]
      case Some(d) =>
        [direction.LogPrefix() + (match ctx.utf8Text(d) case Some(text) => text case None => "invalid JSON")]
  }

  predicate EndsWith(line: string, suffix: string) {
    |suffix| <= |line| && line[|line| - |suffix|..] == suffix
  }

  /** `response.url?.absoluteString ?? "Unknown URL"`. */
  function URLText(url: Option<string>): string {
    match url
    case Some(s) => s
    case None => "Unknown URL"
  }

  /** `logFailure`: one line naming the URL and the status code, if call descriptions are on. */
  function LogFailure(ctx: LogContext, response: HTTPURLResponse): (lines: seq<string>)
    ensures |lines| == if ctx.style.Contains(LogStyle.CallDescriptions) then 1 else 0
    ensures forall line <- lines ::
              "Call to " <= line && EndsWith(line, " FAILED - " + Decimal.IntToString(response.statusCode))
  {
    if !ctx.style.Contains(LogStyle.CallDescriptions) then []
    else ["Call to " + URLText(response.url) + " FAILED - " + Decimal.IntToString(response.statusCode)]
  }

  /** `logSuccess`: one line naming the URL and the status code, if call descriptions are on. */
  function LogSuccess(ctx: LogContext, response: HTTPURLResponse): (lines: seq<string>)
    ensures |lines| == if ctx.style.Contains(LogStyle.CallDescriptions) then 1 else 0
    ensures forall line <- lines ::
              "Call to " <= line && EndsWith(line, " SUCCEEDED - " + Decimal.IntToString(response.statusCode))
  {
    if !ctx.style.Contains(LogStyle.CallDescriptions) then []
    else ["Call to " + URLText(response.url) + " SUCCEEDED - " + Decimal.IntToString(response.statusCode)]
  }

  /** `logRequest`: the method and URL if call descriptions are on, then the headers if call headers are on too. */
  function LogRequest(ctx: LogContext, m: HTTPMethod, url: string, headers: Option<map<string, string>>): (lines: seq<string>)
    ensures |lines| <= 2
    ensures lines == [] <==> !ctx.style.Contains(LogStyle.CallDescriptions)
    ensures |lines| == 2 <==> ctx.style.Contains(LogStyle.CallDescriptions) && ctx.style.Contains(LogStyle.CallHeaders)
    ensures lines != [] ==> lines[0] == "Creating " + m.RawValue() + " Request for URL: " + url
    ensures |lines| == 2 ==> lines[1] == "Headers: " + ctx.headersText(match headers case Some(h) => h case None => map[])
  {
    if !ctx.style.Contains(LogStyle.CallDescriptions) then []
    else
      var described := ["Creating " + m.RawValue() + " Request for URL: " + url];
      if !ctx.style.Contains(LogStyle.CallHeaders) then described
      else described + ["Headers: " + ctx.headersText(match headers case Some(h) => h case None => map[])]
  }

  /** With `LogStyle.none` no log function prints anything. */
  lemma NoneLogsNothing(ctx: LogContext, data: Option<Bytes>, direction: DataDirection, response: HTTPURLResponse,
                        m: HTTPMethod, url: string, headers: Option<map<string, string>>)
    requires ctx.style == LogStyle.None()
    ensures LogData(ctx, data, direction) == []
    ensures LogFailure(ctx, response) == [] && LogSuccess(ctx, response) == []
    ensures LogRequest(ctx, m, url, headers) == []
  {
    assert 0 < |Flags|;
  }

  /** With `LogStyle.complete` every log function prints all it can: one line each, two for a request. */
  lemma CompleteLogsEverything(ctx: LogContext, data: Option<Bytes>, direction: DataDirection, response: HTTPURLResponse,
                               m: HTTPMethod, url: string, headers: Option<map<string, string>>)
    requires ctx.style == LogStyle.Complete()
    ensures |LogData(ctx, data, direction)| == 1
    ensures |LogFailure(ctx, response)| == 1 && |LogSuccess(ctx, response)| == 1
    ensures |LogRequest(ctx, m, url, headers)| == 2
  {
    assert Flags[0] == LogStyle.CallDescriptions && Flags[1] == LogStyle.CallHeaders;
    assert Flags[2] == LogStyle.OutgoingJSON && Flags[3] == LogStyle.IncomingJSON;
  }
}
