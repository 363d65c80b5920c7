/**
 * The few Foundation values the library inspects or builds: errors, HTTP and
 * non-HTTP responses, and URL requests with case-insensitive header fields.
 */
module Foundation {
  import opened Base

  /** A Foundation error, opaque to the library: a domain, a code and its localized description. */
  datatype Error = Error(domain: string, code: int, localizedDescription: string)

  /** The metadata of an HTTP response: its URL (as `absoluteString`, if any) and its status code. */
  datatype HTTPURLResponse = HTTPURLResponse(url: Option<string>, statusCode: int)

  /** What a session hands back: an `HTTPURLResponse`, or a response of some other URL scheme. */
  datatype URLResponse = HTTPResponse(http: HTTPURLResponse) | OtherResponse(url: Option<string>)

  /**
   * A `URLRequest`: the URL (as `absoluteString`), the method token and the
   * header fields. Foundation looks header names up case-insensitively, so
   * the fields are keyed by the case-folded name.
   */
  datatype URLRequest = URLRequest(url: string, httpMethod: string, headerFields: map<string, string>)

  function Lower(c: char): char {
    if 'A' <= c <= 'Z' then (c as int + 32) as char else c
  }

  /** The case-insensitive key of a header name (HTTP field names are ASCII). */
  function FoldCase(name: string): (folded: string)
    ensures |folded| == |name|
    ensures forall i :: 0 <= i < |name| ==> folded[i] == Lower(name[i])
    ensures forall i :: 0 <= i < |name| ==> !('A' <= folded[i] <= 'Z')
    ensures forall i :: 0 <= i < |name| && !('A' <= name[i] <= 'Z') ==> folded[i] == name[i]
  {
    seq(|name|, i requires 0 <= i < |name| => Lower(name[i]))
  }

  /** Folding twice is folding once: a folded name is its own key. */
  lemma FoldCaseIdempotent(name: string)
    ensures FoldCase(FoldCase(name)) == FoldCase(name)
  {
  }

  /** `URLRequest(url:)`: Foundation's fresh request has method GET and no header fields. */
  function NewRequest(url: string): URLRequest {
    URLRequest(url, "GET", map[])
  }

  /** `request.value(forHTTPHeaderField:)`. */
  function ValueForHTTPHeaderField(request: URLRequest, field: string): Option<string> {
    var key := FoldCase(field);
    if key in request.headerFields then Some(request.headerFields[key]) else None
  }

  /** `request.setValue(_:forHTTPHeaderField:)`: replaces any value under the field. */
  function SetValue(request: URLRequest, value: string, field: string): URLRequest {
    request.(headerFields := request.headerFields[FoldCase(field) := value])
  }

  /**
   * `request.addValue(_:forHTTPHeaderField:)`: adds the field, or appends the
   * value to the one already present with a comma.
   */
  function AddValue(request: URLRequest, value: string, field: string): URLRequest {
    var key := FoldCase(field);
    if key in request.headerFields then
      request.(headerFields := request.headerFields[key := request.headerFields[key] + "," + value])
    else
      request.(headerFields := request.headerFields[key := value])
  }
}
