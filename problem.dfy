/**
 * `BRNetworking.Problem`: the closed set of failures a call reports, and the
 * human-readable description of each. `Obj` is the type of the request body
 * a failed encoding carries (Swift's `Any`).
 */
module Problems {
  import opened Base
  import opened Foundation
  import opened HttpMethods
  import Decimal

  datatype Problem<+Obj> =
    | BadResponse(code: int, responseBody: Bytes)
    | CannotDecodeResponse(error: Error, responseBody: Bytes)
    | CannotEncodeBody(error: Error, object: Obj)
    | MissingBody(httpMethod: HTTPMethod)
    | InvalidResponseType
    | Unknown(cause: Option<Error>)
    | BadURL(urlString: string)
  {
    /** The description to log: each case's title followed by the associated data worth logging. */
    function Description(): (d: string)
      ensures |d| >= 20
    {
      match this
      case BadResponse(code, _) => "Bad response code: " + Decimal.IntToString(code)
      case CannotDecodeResponse(error, _) => "Cannot decode response body with error: " + error.localizedDescription
      case CannotEncodeBody(error, _) => "Cannot encode request body with error: " + error.localizedDescription
      case MissingBody(m) => "Missing body for HTTP method " + m.RawValue()
      case InvalidResponseType => "Response type is not HTTPURLResponse"
      case Unknown(cause) => "Unclassified error: " + (match cause case Some(e) => e.localizedDescription case None => "nil error")
      case BadURL(urlString) => "Invalid string passed as for URL: " + urlString
    }
  }

  /** An error thrown inside a call: either a `Problem` already, or a foreign error (from Foundation). */
  datatype Thrown<+Obj> = Raised(problem: Problem<Obj>) | Foreign(error: Error)

  /** The entry points' catch clause: `(error as? Problem) ?? .unknown(error: error)`. */
  function Catch<Obj>(thrown: Thrown<Obj>): (p: Problem<Obj>)
    ensures thrown.Raised? ==> p == thrown.problem
    ensures thrown.Foreign? ==> p == Unknown(Some(thrown.error))
  {
    match thrown
    case Raised(problem) => problem
    case Foreign(error) => Unknown(Some(error))
  }

  /** The descriptions of the cases whose text is fixed by their fields, exactly. */
  lemma DescriptionTexts<Obj>(code: int, body: Bytes, m: HTTPMethod, urlString: string, e: Error, o: Obj)
    ensures Problem<Obj>.BadResponse(code, body).Description() == "Bad response code: " + Decimal.IntToString(code)
    ensures Problem<Obj>.BadResponse(404, body).Description() == "Bad response code: 404"
    ensures Problem<Obj>.CannotDecodeResponse(e, body).Description() == "Cannot decode response body with error: " + e.localizedDescription
    ensures CannotEncodeBody(e, o).Description() == "Cannot encode request body with error: " + e.localizedDescription
    ensures Problem<Obj>.MissingBody(m).Description() == "Missing body for HTTP method " + m.RawValue()
    ensures Problem<Obj>.MissingBody(Post).Description() == "Missing body for HTTP method POST"
    ensures Problem<Obj>.InvalidResponseType.Description() == "Response type is not HTTPURLResponse"
    ensures Problem<Obj>.Unknown(None).Description() == "Unclassified error: nil error"
    ensures Problem<Obj>.Unknown(Some(e)).Description() == "Unclassified error: " + e.localizedDescription
    ensures Problem<Obj>.BadURL(urlString).Description() == "Invalid string passed as for URL: " + urlString
  {
    calc {
      Decimal.IntToString(404);
      Decimal.NatToString(40) + [Decimal.DigitChar(4)];
      Decimal.NatToString(4) + [Decimal.DigitChar(0)] + [Decimal.DigitChar(4)];
      "404";
    }
  }

  /**
   * The description reads only the fields it prints: the response body, the
   * request body object, and an error's domain and code never change it.
   */
  lemma DescriptionIgnoresPayloads<Obj>(code: int, b1: Bytes, b2: Bytes, e1: Error, e2: Error, o1: Obj, o2: Obj)
    requires e1.localizedDescription == e2.localizedDescription
    ensures Problem<Obj>.BadResponse(code, b1).Description() == Problem<Obj>.BadResponse(code, b2).Description()
    ensures Problem<Obj>.CannotDecodeResponse(e1, b1).Description() == Problem<Obj>.CannotDecodeResponse(e2, b2).Description()
    ensures CannotEncodeBody(e1, o1).Description() == CannotEncodeBody(e2, o2).Description()
    ensures Problem<Obj>.Unknown(Some(e1)).Description() == Problem<Obj>.Unknown(Some(e2)).Description()
  {
  }

  lemma CancelPrefix(a: string, x: string, y: string)
    requires a + x == a + y
    ensures x == y
  {
    assert x == (a + x)[|a|..];
    assert y == (a + y)[|a|..];
  }

  /**
   * The description determines the case, and the printed fields of it: a
   * logged description identifies the problem up to the data it leaves out.
   */
  lemma DescriptionDeterminesProblem<Obj>(p: Problem<Obj>, q: Problem<Obj>)
    requires p.Description() == q.Description()
    ensures p.BadResponse? <==> q.BadResponse?
    ensures p.CannotDecodeResponse? <==> q.CannotDecodeResponse?
    ensures p.CannotEncodeBody? <==> q.CannotEncodeBody?
    ensures p.MissingBody? <==> q.MissingBody?
    ensures p.InvalidResponseType? <==> q.InvalidResponseType?
    ensures p.Unknown? <==> q.Unknown?
    ensures p.BadURL? <==> q.BadURL?
    ensures p.BadResponse? && q.BadResponse? ==> p.code == q.code
    ensures p.MissingBody? && q.MissingBody? ==> p.httpMethod == q.httpMethod
    ensures p.BadURL? && q.BadURL? ==> p.urlString == q.urlString
    ensures p.CannotDecodeResponse? && q.CannotDecodeResponse? ==> p.error.localizedDescription == q.error.localizedDescription
    ensures p.CannotEncodeBody? && q.CannotEncodeBody? ==> p.error.localizedDescription == q.error.localizedDescription
  {
    var d := p.Description();
    // The first character names the case, except for the two "Cannot ..." cases, which differ at index 7.
    assert d[0] == q.Description()[0] && d[7] == q.Description()[7];
    match p
    case BadResponse(c1, _) =>
      var c2 := q.code;
      CancelPrefix("Bad response code: ", Decimal.IntToString(c1), Decimal.IntToString(c2));
      Decimal.IntToStringInjective(c1, c2);
    case MissingBody(m1) =>
      CancelPrefix("Missing body for HTTP method ", m1.RawValue(), q.httpMethod.RawValue());
      RawValuesDistinct(m1, q.httpMethod);
    case BadURL(s1) =>
      CancelPrefix("Invalid string passed as for URL: ", s1, q.urlString);
    case CannotDecodeResponse(e1, _) =>
      CancelPrefix("Cannot decode response body with error: ", e1.localizedDescription, q.error.localizedDescription);
    case CannotEncodeBody(e1, _) =>
      CancelPrefix("Cannot encode request body with error: ", e1.localizedDescription, q.error.localizedDescription);
    case InvalidResponseType =>
    case Unknown(_) =>
  }
}
