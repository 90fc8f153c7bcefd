/**
 * One request to the exchange: the URL is assembled step by step from the
 * client's base address, the endpoint path, the serialised parameters and,
 * for a signed request, the signature; then the transport is called and its
 * outcome is turned into the call's result.
 */
module Requests {
  import opened JsValues
  import opened ClientConfig
  import opened Utils

  datatype MethodType = Get | Post | Put | Delete

  /**
   * A JavaScript object, which is passed by reference. `===` and `!==` on
   * objects compare identity, which is why this is a class and not a value.
   */
  class JsObject {
    const entries: Params

    constructor (entries: Params)
      ensures this.entries == entries
    {
      this.entries := entries;
    }
  }

  /**
   * What the HTTP library reports: a response body on success, or a failure
   * that carries `e.response` when the server answered and nothing when it
   * did not (a network error, say).
   */
  datatype TransportOutcome = Delivered(data: Value) | Failed(response: Option<Value>)

  /** The HTTP call, from the method, the URL and the value of the `X-MBX-APIKEY` header. */
  type Transport = (MethodType, string, string) -> TransportOutcome

  /**
   * The result of `call`: the response data, a `ResponseError` carrying the
   * remote error body, or a thrown exception (reading `data` of a missing
   * `e.response` throws inside the handler).
   */
  datatype CallOutcome = RawData(data: Value) | CallError(message: Value) | CallThrew

  /** A request description: its HTTP method, endpoint path and whether it is signed. */
  datatype Request = Request(httpMethod: MethodType, endpoint: string, signed: bool)

  /** The prefix every URL starts with. */
  function BaseUrl(client: Client, request: Request): string {
    client.apiUrl + request.endpoint
  }

  /** The URL before the signature: the query is always appended after a `?`. */
  function UnsignedUrl(client: Client, request: Request, rt: Runtime, parameters: Params): string {
    BaseUrl(client, request) + "?" + QueryString(rt, parameters)
  }

  /** The URL the request is sent to. */
  function RequestUrl(client: Client, request: Request, rt: Runtime, parameters: Params): string {
    UnsignedUrl(client, request, rt, parameters)
      + (if request.signed then "&signature=" + SignatureFromParameters(client, rt, parameters) else "")
  }

  /**
   * `Request.call`. The tests `parameters !== {}` and `parameters === {}`
   * compare `parameters` with a freshly created empty object, so the first is
   * always true and the second always false.
   */
  method Call(request: Request, client: Client, rt: Runtime, transport: Transport, parameters: JsObject)
    returns (url: string, outcome: CallOutcome)
    ensures url == RequestUrl(client, request, rt, parameters.entries)
    ensures var t := transport(request.httpMethod, url, client.binanceApiKey);
      && (t.Delivered? ==> outcome == RawData(t.data))
      && (t.Failed? && t.response.Some? ==> outcome == CallError(t.response.value))
      && (t.Failed? && t.response.None? ==> outcome == CallThrew)
  {
    url := client.apiUrl + request.endpoint;

    var emptyLiteral := new JsObject([]);
    if parameters != emptyLiteral {
      url := url + "?" + QueryString(rt, parameters.entries);
    }

    if request.signed {
      var signature := SignatureFromParameters(client, rt, parameters.entries);
      var otherEmptyLiteral := new JsObject([]);
      if parameters == otherEmptyLiteral {
        url := url + "?signature=" + signature;
      } else {
        url := url + "&signature=" + signature;
      }
    }

    var response := transport(request.httpMethod, url, client.binanceApiKey);
    match response
    case Delivered(data) =>
      outcome := RawData(data);
    case Failed(Some(body)) =>
      outcome := CallError(body);
    case Failed(None) =>
      outcome := CallThrew;
  }

  /** Every URL is the base address, then the endpoint path, then `?`. */
  lemma UrlStartsWithBase(client: Client, request: Request, rt: Runtime, parameters: Params)
    ensures var url := RequestUrl(client, request, rt, parameters);
      var n := |client.apiUrl| + |request.endpoint|;
      |url| > n && url[..n] == client.apiUrl + request.endpoint && url[n] == '?'
  {
    var url := RequestUrl(client, request, rt, parameters);
    var base := client.apiUrl + request.endpoint;
    assert url == base + ("?" + QueryString(rt, parameters)
      + (if request.signed then "&signature=" + SignatureFromParameters(client, rt, parameters) else ""));
  }

  /** An unsigned URL is exactly the base, `?` and the query, even when the query is empty. */
  lemma UnsignedUrlIsBaseAndQuery(client: Client, request: Request, rt: Runtime, parameters: Params)
    requires !request.signed
    ensures RequestUrl(client, request, rt, parameters) ==
      client.apiUrl + request.endpoint + "?" + QueryString(rt, parameters)
  {
  }

  /**
   * A signed URL is the unsigned URL followed by `&signature=` and the HMAC,
   * under the client's secret, of exactly the query that the URL carries.
   */
  lemma SignedUrlSignsItsOwnQuery(client: Client, request: Request, rt: Runtime, parameters: Params)
    requires request.signed && DistinctKeys(parameters)
    ensures var q := QueryString(rt, parameters);
      RequestUrl(client, request, rt, parameters) ==
        client.apiUrl + request.endpoint + "?" + q + "&signature=" + rt.hmacSha256Hex(client.binanceSecretKey, q)
  {
    SignatureOfParameters(client, rt, parameters);
  }

  /** Splitting separator-free parts joined and then followed by one more segment. */
  lemma {:induction false} SplitJoinThenSegment(parts: seq<string>, last: string)
    requires |parts| >= 1 && '&' !in last
    requires forall i :: 0 <= i < |parts| ==> '&' !in parts[i]
    ensures Split(Join(parts, "&") + "&" + last, '&') == parts + [last]
  {
    JoinAppend(parts, [last], "&");
    assert Join([last], "&") == last;
    forall i | 0 <= i < |parts + [last]| ensures '&' !in (parts + [last])[i] {
      if i < |parts| { assert (parts + [last])[i] == parts[i]; }
    }
    SplitJoin(parts + [last], '&');
  }

  /** The query parts of an object whose defined entries are free of `&`. */
  lemma PartsSeparatorFree(rt: Runtime, parameters: Params)
    requires forall e :: e in parameters && e.1 != Undefined ==> '&' !in Pair(rt, e)
    ensures forall i :: 0 <= i < |Pairs(rt, Defined(parameters))| ==> '&' !in Pairs(rt, Defined(parameters))[i]
  {
    var parts := Pairs(rt, Defined(parameters));
    forall i | 0 <= i < |parts| ensures '&' !in parts[i] {
      assert Defined(parameters)[i] in Defined(parameters);
    }
  }

  /**
   * When neither a defined entry nor the signature contains `&`, the text
   * after the `?` splits into the `key=value` pairs in order, followed by one
   * `signature=...` segment exactly when the request is signed.
   */
  lemma UrlSegments(client: Client, request: Request, rt: Runtime, parameters: Params)
    requires Defined(parameters) != []
    requires forall e :: e in parameters && e.1 != Undefined ==> '&' !in Pair(rt, e)
    requires request.signed ==> '&' !in SignatureFromParameters(client, rt, parameters)
    ensures var url := RequestUrl(client, request, rt, parameters);
      var n := |client.apiUrl| + |request.endpoint| + 1;
      n <= |url| &&
      Split(url[n..], '&') == Pairs(rt, Defined(parameters))
        + (if request.signed then ["signature=" + SignatureFromParameters(client, rt, parameters)] else [])
  {
    var url := RequestUrl(client, request, rt, parameters);
    var base := client.apiUrl + request.endpoint + "?";
    var q := QueryString(rt, parameters);
    var parts := Pairs(rt, Defined(parameters));
    PartsSeparatorFree(rt, parameters);
    if request.signed {
      var sig := SignatureFromParameters(client, rt, parameters);
      var last := "signature=" + sig;
      assert '&' !in last by {
        assert forall i :: 0 <= i < |"signature="| ==> "signature="[i] != '&';
        assert last[..|"signature="|] == "signature=" && last[|"signature="|..] == sig;
        forall c | c in last ensures c != '&' {
          var i :| 0 <= i < |last| && last[i] == c;
          if i < |"signature="| { assert last[i] == "signature="[i]; } else { assert last[i] == sig[i - |"signature="|]; }
        }
      }
      assert url == base + (q + "&" + last);
      SplitJoinThenSegment(parts, last);
    } else {
      assert url == base + q;
      SplitJoin(parts, '&');
      assert parts + [] == parts;
    }
  }

  /** With no parameters at all, an unsigned URL still ends in a bare `?`. */
  lemma EmptyParametersKeepQuestionMark(client: Client, rt: Runtime, httpMethod: MethodType, endpoint: string)
    ensures RequestUrl(client, Request(httpMethod, endpoint, false), rt, []) == client.apiUrl + endpoint + "?"
  {
    assert QueryString(rt, []) == "";
  }

  /** With no parameters at all, a signed URL reads `?&signature=`, never `?signature=`. */
  lemma EmptyParametersSignedUrl(client: Client, rt: Runtime, httpMethod: MethodType, endpoint: string)
    ensures RequestUrl(client, Request(httpMethod, endpoint, true), rt, []) ==
      client.apiUrl + endpoint + "?&signature=" + rt.hmacSha256Hex(client.binanceSecretKey, "")
  {
    assert QueryString(rt, []) == "";
    SignatureOfParameters(client, rt, []);
  }
}
