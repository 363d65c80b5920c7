/**
 * The call orchestrator: `getResponse` and the four public entry points.
 * The session and the JSON coder are parameters; every transport call is
 * recorded in the returned trace, so that "no I/O happened" can be stated.
 */
module Calls {
  import opened Base
  import opened Foundation
  import opened HttpMethods
  import opened Problems
  import opened Logging
  import opened DataDirections
  import opened Requests
  import opened Responses

  /** A transport call: `data(for:)` without a body, `upload(for:from:)` with one. */
  datatype Invocation = DataTask(request: URLRequest) | UploadTask(request: URLRequest, body: Bytes)

  /** A `URLSession`: what each kind of task returns for a request, or the error it throws. */
  datatype Session = Session(
    data: URLRequest -> Result<ResponsePackage, Error>,
    upload: (URLRequest, Bytes) -> Result<ResponsePackage, Error>)

  /** The outcome of a step, the transport calls it made, and the lines it printed. */
  datatype Exchange<+T> = Exchange(result: T, io: seq<Invocation>, log: seq<string>)

  /**
   * `getResponse`: encode the body, build the request, upload the encoded
   * bytes. An encoding failure throws `cannotEncodeBody` and nothing is sent;
   * the session's own errors are rethrown as they are.
   */
  function GetResponse<B>(ctx: LogContext, url: string, m: HTTPMethod, headers: Option<map<string, string>>,
                          order: seq<string>, requestBody: B, encode: B -> Result<Bytes, Error>, session: Session)
    : (r: Exchange<Result<ResponsePackage, Thrown<B>>>)
    ensures encode(requestBody).Failure? ==>
              r.result == Failure(Raised(CannotEncodeBody(encode(requestBody).error, requestBody))) && r.io == []
    ensures encode(requestBody).Success? ==>
              var request, bytes := BuildRequest(url, m, headers, order), encode(requestBody).value;
              && r.io == [UploadTask(request, bytes)]
              && (session.upload(request, bytes).Success? ==> r.result == Success(session.upload(request, bytes).value))
              && (session.upload(request, bytes).Failure? ==> r.result == Failure(Foreign(session.upload(request, bytes).error)))
  {
    match encode(requestBody)
    case Failure(error) =>
      Exchange(Failure(Raised(CannotEncodeBody(error, requestBody))), [], [])
    case Success(bytes) =>
      var made := LoggedRequest(ctx, url, m, headers, order);
      var request, lines := made.value, LogData(ctx, Some(bytes), Outgoing) + made.log;
      match session.upload(request, bytes)
      case Failure(error) => Exchange(Failure(Foreign(error)), [UploadTask(request, bytes)], lines)
      case Success(package) => Exchange(Success(package), [UploadTask(request, bytes)], lines)
  }

  /**
   * `call(url:method:headers:requestBody:...)`: upload an encoded body and
   * decode the response. The method is not checked, so this entry point never
   * reports `missingBody`.
   */
  function CallWithBody<B, R>(ctx: LogContext, url: string, m: HTTPMethod, headers: Option<map<string, string>>,
                              order: seq<string>, requestBody: B, session: Session,
                              encode: B -> Result<Bytes, Error>, decode: Bytes -> Result<R, Error>)
    : (r: Exchange<Result<R, Problem<B>>>)
    ensures encode(requestBody).Failure? ==>
              r.result == Failure(CannotEncodeBody(encode(requestBody).error, requestBody)) && r.io == []
    ensures encode(requestBody).Success? ==>
              var request, bytes := BuildRequest(url, m, headers, order), encode(requestBody).value;
              && r.io == [UploadTask(request, bytes)]
              && (session.upload(request, bytes).Failure? ==> r.result == Failure(Unknown(Some(session.upload(request, bytes).error))))
              && (session.upload(request, bytes).Success? ==>
                    r.result == ParseDecodedResponse(ctx, session.upload(request, bytes).value, decode).value)
    ensures !(r.result.Failure? && r.result.error.MissingBody?)
  {
    var sent := GetResponse(ctx, url, m, headers, order, requestBody, encode, session);
    match sent.result
    case Failure(thrown) => Exchange(Failure(Catch(thrown)), sent.io, sent.log)
    case Success(package) =>
      var parsed := ParseDecodedResponse(ctx, package, decode);
      Exchange(parsed.value, sent.io, sent.log + parsed.log)
  }

  /**
   * `callWithoutResponse(url:method:headers:requestBody:...)`: upload an
   * encoded body and keep only the status code.
   */
  function CallWithoutResponseWithBody<B>(ctx: LogContext, url: string, m: HTTPMethod, headers: Option<map<string, string>>,
                                          order: seq<string>, requestBody: B, session: Session,
                                          encode: B -> Result<Bytes, Error>)
    : (r: Exchange<Result<int, Problem<B>>>)
    ensures encode(requestBody).Failure? ==>
              r.result == Failure(CannotEncodeBody(encode(requestBody).error, requestBody)) && r.io == []
    ensures encode(requestBody).Success? ==>
              var request, bytes := BuildRequest(url, m, headers, order), encode(requestBody).value;
              && r.io == [UploadTask(request, bytes)]
              && (session.upload(request, bytes).Failure? ==> r.result == Failure(Unknown(Some(session.upload(request, bytes).error))))
              && (session.upload(request, bytes).Success? ==>
                    r.result == ParseResponse(ctx, session.upload(request, bytes).value).value)
    ensures !(r.result.Failure? && r.result.error.MissingBody?)
  {
    var sent := GetResponse(ctx, url, m, headers, order, requestBody, encode, session);
    match sent.result
    case Failure(thrown) => Exchange(Failure(Catch(thrown)), sent.io, sent.log)
    case Success(package) =>
      var parsed := ParseResponse(ctx, package);
      Exchange(parsed.value, sent.io, sent.log + parsed.log)
  }

  /**
   * `call(url:method:headers:...)`: no request body. A method that needs a
   * body fails with `missingBody` before any request is built, logged or
   * sent; otherwise the request is sent once and the response decoded.
   */
  function Call<R, Obj>(ctx: LogContext, url: string, m: HTTPMethod, headers: Option<map<string, string>>,
                        order: seq<string>, session: Session, decode: Bytes -> Result<R, Error>)
    : (r: Exchange<Result<R, Problem<Obj>>>)
    ensures m.RequiresRequestBody() ==> r.result == Failure(MissingBody(m)) && r.io == [] && r.log == []
    ensures (r.result.Failure? && r.result.error.MissingBody?) <==> m.RequiresRequestBody()
    ensures !m.RequiresRequestBody() ==>
              var request := BuildRequest(url, m, headers, order);
              && r.io == [DataTask(request)]
              && (session.data(request).Failure? ==> r.result == Failure(Unknown(Some(session.data(request).error))))
              && (session.data(request).Success? ==>
                    r.result == ParseDecodedResponse(ctx, session.data(request).value, decode).value)
  {
    if m.RequiresRequestBody() then Exchange(Failure(MissingBody(m)), [], [])
    else
      var made := LoggedRequest(ctx, url, m, headers, order);
      var request, lines := made.value, made.log;
      match session.data(request)
      case Failure(error) => Exchange(Failure(Catch(Foreign(error))), [DataTask(request)], lines)
      case Success(package) =>
        var parsed := ParseDecodedResponse(ctx, package, decode);
        Exchange(parsed.value, [DataTask(request)], lines + parsed.log)
  }

  /**
   * `callWithoutResponse(url:method:headers:...)`: no request body, only the
   * status code kept; `missingBody` as for `Call`.
   */
  function CallWithoutResponse<Obj>(ctx: LogContext, url: string, m: HTTPMethod, headers: Option<map<string, string>>,
                                    order: seq<string>, session: Session)
    : (r: Exchange<Result<int, Problem<Obj>>>)
    ensures m.RequiresRequestBody() ==> r.result == Failure(MissingBody(m)) && r.io == [] && r.log == []
    ensures (r.result.Failure? && r.result.error.MissingBody?) <==> m.RequiresRequestBody()
    ensures !m.RequiresRequestBody() ==>
              var request := BuildRequest(url, m, headers, order);
              && r.io == [DataTask(request)]
              && (session.data(request).Failure? ==> r.result == Failure(Unknown(Some(session.data(request).error))))
              && (session.data(request).Success? ==>
                    r.result == ParseResponse(ctx, session.data(request).value).value)
  {
    if m.RequiresRequestBody() then Exchange(Failure(MissingBody(m)), [], [])
    else
      var made := LoggedRequest(ctx, url, m, headers, order);
      var request, lines := made.value, made.log;
      match session.data(request)
      case Failure(error) => Exchange(Failure(Catch(Foreign(error))), [DataTask(request)], lines)
      case Success(package) =>
        var parsed := ParseResponse(ctx, package);
        Exchange(parsed.value, [DataTask(request)], lines + parsed.log)
  }

  /** Logging never changes what a call returns or what it sends. */
  lemma LoggingNeverChangesCalls<B, R, Obj>(ctx1: LogContext, ctx2: LogContext, url: string, m: HTTPMethod,
                                            headers: Option<map<string, string>>, order: seq<string>, requestBody: B,
                                            session: Session, encode: B -> Result<Bytes, Error>, decode: Bytes -> Result<R, Error>)
    ensures var c1, c2 := CallWithBody(ctx1, url, m, headers, order, requestBody, session, encode, decode),
                          CallWithBody(ctx2, url, m, headers, order, requestBody, session, encode, decode);
            c1.result == c2.result && c1.io == c2.io
    ensures var c1, c2 := CallWithoutResponseWithBody(ctx1, url, m, headers, order, requestBody, session, encode),
                          CallWithoutResponseWithBody(ctx2, url, m, headers, order, requestBody, session, encode);
            c1.result == c2.result && c1.io == c2.io
    ensures var c1, c2 := Call<R, Obj>(ctx1, url, m, headers, order, session, decode),
                          Call<R, Obj>(ctx2, url, m, headers, order, session, decode);
            c1.result == c2.result && c1.io == c2.io
    ensures var c1, c2 := CallWithoutResponse<Obj>(ctx1, url, m, headers, order, session),
                          CallWithoutResponse<Obj>(ctx2, url, m, headers, order, session);
            c1.result == c2.result && c1.io == c2.io
  {
  }

  /** A GET answered with 404 fails with `badResponse`, carrying 404 and the exact bytes received. */
  lemma NotFoundScenario<R, Obj>(ctx: LogContext, url: string, headers: Option<map<string, string>>, order: seq<string>,
                                 session: Session, decode: Bytes -> Result<R, Error>, body: Bytes)
    requires session.data(BuildRequest(url, Get, headers, order))
             == Success(ResponsePackage(body, HTTPResponse(HTTPURLResponse(Some(url), 404))))
    ensures Call<R, Obj>(ctx, url, Get, headers, order, session, decode).result == Failure(BadResponse(404, body))
    ensures CallWithoutResponse<Obj>(ctx, url, Get, headers, order, session).result == Failure(BadResponse(404, body))
  {
  }
}
