/** `BRNetworking.HTTPMethod`: the supported methods and whether each needs a request body. */
module HttpMethods {
  import opened Base

  datatype HTTPMethod = Get | Post | Put | Delete {

    /** The method token sent on the wire. */
    function RawValue(): (raw: string)
      ensures |raw| >= 3
      ensures forall i :: 0 <= i < |raw| ==> 'A' <= raw[i] <= 'Z'
    {
      match this
      case Get => "GET"
      case Post => "POST"
      case Put => "PUT"
      case Delete => "DELETE"
    }

    /** Whether a call with this method must carry a request body. */
    function RequiresRequestBody(): (required: bool)
      ensures required <==> RawValue() in {"POST", "PUT"}
    {
      match this
      case Get | Delete => false
      case Post | Put => true
    }
  }

  /** Swift's synthesized `HTTPMethod(rawValue:)`. */
  function FromRawValue(raw: string): Option<HTTPMethod> {
    if raw == "GET" then Some(Get)
    else if raw == "POST" then Some(Post)
    else if raw == "PUT" then Some(Put)
    else if raw == "DELETE" then Some(Delete)
    else None
  }

  /** The raw values are exactly GET, POST, PUT and DELETE. */
  lemma RawValues()
    ensures Get.RawValue() == "GET" && Post.RawValue() == "POST"
    ensures Put.RawValue() == "PUT" && Delete.RawValue() == "DELETE"
  {
  }

  /** A method is recovered from its raw value, and only its own raw value yields it. */
  lemma RawValueRoundTrip(m: HTTPMethod, raw: string)
    ensures FromRawValue(m.RawValue()) == Some(m)
    ensures FromRawValue(raw) == Some(m) <==> m.RawValue() == raw
  {
  }

  /** Distinct methods have distinct raw values. */
  lemma RawValuesDistinct(a: HTTPMethod, b: HTTPMethod)
    requires a.RawValue() == b.RawValue()
    ensures a == b
  {
    RawValueRoundTrip(a, a.RawValue());
    RawValueRoundTrip(b, b.RawValue());
  }

  /** GET and DELETE never need a body; POST and PUT always do. */
  lemma RequiresRequestBodyByMethod(m: HTTPMethod)
    ensures m.RequiresRequestBody() <==> m == Post || m == Put
    ensures !Get.RequiresRequestBody() && !Delete.RequiresRequestBody()
    ensures Post.RequiresRequestBody() && Put.RequiresRequestBody()
  {
  }
}
