/**
 * The response classifier: `isResponseSuccess` and the two `parseResponse`
 * overloads, one keeping only the status code and one decoding the body.
 */
module Responses {
  import opened Base
  import opened Foundation
  import opened Problems
  import opened Logging
  import opened DataDirections

  /** `ResponsePackage`: the bytes and the response a session hands back. */
  datatype ResponsePackage = ResponsePackage(data: Bytes, response: URLResponse)

  /** `isResponseSuccess`: the status code is in the 2xx class. */
  function IsResponseSuccess(response: HTTPURLResponse): (success: bool)
    ensures success <==> response.statusCode / 100 == 2
  {
    response.statusCode < 300 && response.statusCode >= 200
  }

  /**
   * `parseResponse(package:)`: a non-HTTP response fails with
   * `invalidResponseType` before anything else is looked at; a 2xx status
   * succeeds with that status; any other fails with `badResponse`, carrying
   * the status and the received bytes unchanged.
   */
  function ParseResponse<Obj>(ctx: LogContext, package: ResponsePackage): (r: Logged<Result<int, Problem<Obj>>>)
    ensures package.response.OtherResponse? ==> r.value == Failure(InvalidResponseType) && r.log == []
    ensures package.response.HTTPResponse? ==>
              var response := package.response.http;
              && (200 <= response.statusCode < 300 ==>
                    r.value == Success(response.statusCode) && r.log == LogSuccess(ctx, response))
              && (!(200 <= response.statusCode < 300) ==>
                    && r.value == Failure(BadResponse(response.statusCode, package.data))
                    && r.log == LogFailure(ctx, response) + LogData(ctx, Some(package.data), Incoming))
  {
    match package.response
    case OtherResponse(_) => Logged(Failure(InvalidResponseType), [])
    case HTTPResponse(response) =>
      if IsResponseSuccess(response) then
        Logged(Success(response.statusCode), LogSuccess(ctx, response))
      else
        Logged(Failure(BadResponse(response.statusCode, package.data)),
               LogFailure(ctx, response) + LogData(ctx, Some(package.data), Incoming))
  }

  /**
   * `parseResponse(package:_:decoder:)`: as above, except that a 2xx
   * response succeeds with the decoded body, and a body that does not decode
   * fails with `cannotDecodeResponse`, carrying the decoder's error and the
   * received bytes unchanged.
   */
  function ParseDecodedResponse<R, Obj>(ctx: LogContext, package: ResponsePackage, decode: Bytes -> Result<R, Error>)
    : (r: Logged<Result<R, Problem<Obj>>>)
    ensures package.response.OtherResponse? ==> r.value == Failure(InvalidResponseType) && r.log == []
    ensures package.response.HTTPResponse? ==>
              var response := package.response.http;
              && (200 <= response.statusCode < 300 ==>
                    && r.log == LogSuccess(ctx, response) + LogData(ctx, Some(package.data), Incoming)
                    && (decode(package.data).Success? ==> r.value == Success(decode(package.data).value))
                    && (decode(package.data).Failure? ==>
                          r.value == Failure(CannotDecodeResponse(decode(package.data).error, package.data))))
              && (!(200 <= response.statusCode < 300) ==>
                    && r.value == Failure(BadResponse(response.statusCode, package.data))
                    && r.log == LogFailure(ctx, response) + LogData(ctx, Some(package.data), Incoming))
  {
    match package.response
    case OtherResponse(_) => Logged(Failure(InvalidResponseType), [])
    case HTTPResponse(response) =>
      if IsResponseSuccess(response) then
        var lines := LogSuccess(ctx, response) + LogData(ctx, Some(package.data), Incoming);
        match decode(package.data)
        case Success(body) => Logged(Success(body), lines)
        case Failure(error) => Logged(Failure(CannotDecodeResponse(error, package.data)), lines)
      else
        Logged(Failure(BadResponse(response.statusCode, package.data)),
               LogFailure(ctx, response) + LogData(ctx, Some(package.data), Incoming))
  }

  /**
   * Outside a 2xx HTTP response the two overloads fail identically, and
   * print the same lines: whether a decoder was supplied does not matter.
   */
  lemma OverloadsAgreeOnFailure<R, Obj>(ctx: LogContext, package: ResponsePackage, decode: Bytes -> Result<R, Error>)
    requires !(package.response.HTTPResponse? && IsResponseSuccess(package.response.http))
    ensures ParseResponse<Obj>(ctx, package).value.Failure?
    ensures ParseDecodedResponse<R, Obj>(ctx, package, decode).value.Failure?
    ensures ParseDecodedResponse<R, Obj>(ctx, package, decode).value.error == ParseResponse<Obj>(ctx, package).value.error
    ensures ParseDecodedResponse<R, Obj>(ctx, package, decode).log == ParseResponse<Obj>(ctx, package).log
  {
  }

  /** Each overload succeeds exactly when the response is HTTP with a 2xx status (and, decoding, the body decodes). */
  lemma SuccessExactly<R, Obj>(ctx: LogContext, package: ResponsePackage, decode: Bytes -> Result<R, Error>)
    ensures ParseResponse<Obj>(ctx, package).value.Success?
            <==> package.response.HTTPResponse? && 200 <= package.response.http.statusCode < 300
    ensures ParseDecodedResponse<R, Obj>(ctx, package, decode).value.Success?
            <==> package.response.HTTPResponse? && 200 <= package.response.http.statusCode < 300
                 && decode(package.data).Success?
  {
  }

  /** The classification never depends on what is logged. */
  lemma ClassificationIgnoresLogging<R, Obj>(ctx1: LogContext, ctx2: LogContext, package: ResponsePackage,
                                             decode: Bytes -> Result<R, Error>)
    ensures ParseResponse<Obj>(ctx1, package).value == ParseResponse<Obj>(ctx2, package).value
    ensures ParseDecodedResponse<R, Obj>(ctx1, package, decode).value == ParseDecodedResponse<R, Obj>(ctx2, package, decode).value
  {
  }
}
