/** The WidePay API client: it configures one curl request per call, sends it,
    and turns what comes back into a WidepayResponse. The transport and the PHP
    library functions (http_build_query, json_encode, json_decode) are given as
    parameters and left uninterpreted. */
module Api {
  import opened Values
  import opened Strings
  import opened Response

  const ApiUrl := "https://api.widepay.com/v1"
  const SdkHeader := "WP-API: SDK-PHP"
  const ChargeRoute := "recebimentos/cobrancas/adicionar"
  const NotificationRoute := "recebimentos/cobrancas/notificacao"
  const ConnectTimeout := 30
  const CurlErrorMessage := "An internal error occurred, or the server did not respond to the request."

  /** The body the client builds after a transport error. */
  const CurlErrorBody := Object([
    ("error", Str("Curl Error")),
    ("message", Str(CurlErrorMessage)),
    ("status", Int(500))])

  /** A request body: a PHP associative array, keys in insertion order. */
  type Body = seq<(string, Value)>

  /** The library functions the client calls. */
  datatype Library = Library(
    buildQuery: Body -> string,
    jsonEncode: Value -> string,
    jsonDecode: string -> Value)

  /** What curl_exec yields: an error (curl_errno set) or the bytes of the
      transfer, header block included. */
  datatype TransportOutcome = TransportError | Received(result: string)

  /** The options set on the curl handle before it is executed. */
  datatype CurlRequest = CurlRequest(
    url: string,
    post: bool,
    postFields: Option<string>,
    customRequest: string,
    returnTransfer: bool,
    includeHeader: bool,
    userPwd: string,
    connectTimeout: nat,
    sslVerifyPeer: bool,
    sslVerifyHost: nat,
    sslVersion: nat,
    httpHeader: seq<string>)

  /** The methods whose body goes into the query string, matched after
      strtoupper. */
  predicate IsQueryMethod(httpMethod: string)
    ensures IsQueryMethod(httpMethod) ==> |httpMethod| == 3 || |httpMethod| == 6
    ensures httpMethod in ["GET", "get", "Get", "DELETE", "delete", "Delete"] ==> IsQueryMethod(httpMethod)
    ensures httpMethod in ["POST", "post", "PUT", "put"] ==> !IsQueryMethod(httpMethod)
  {
    ToUpper(httpMethod) == "GET" || ToUpper(httpMethod) == "DELETE"
  }

  /** The request apiRequest configures for a route, body and method. */
  function ComposeRequest(apiUrl: string, walletId: string, walletToken: string,
                          route: string, body: Body, httpMethod: string,
                          buildQuery: Body -> string): (req: CurlRequest)
    ensures |apiUrl + "/" + route| <= |req.url| && req.url[..|apiUrl + "/" + route|] == apiUrl + "/" + route
    ensures req.url != apiUrl + "/" + route <==> IsQueryMethod(httpMethod) && |body| > 0
    ensures req.postFields.Some? <==> !IsQueryMethod(httpMethod)
    ensures req.customRequest == ToUpper(httpMethod)
    ensures req.userPwd == walletId + ":" + walletToken
    ensures req.httpHeader == [SdkHeader]
  {
    var base := apiUrl + "/" + route;
    var upper := ToUpper(httpMethod);
    CurlRequest(
      url := if IsQueryMethod(httpMethod) && |body| > 0 then base + "?" + buildQuery(body) else base,
      post := upper == "POST",
      postFields := if IsQueryMethod(httpMethod) then None else Some(buildQuery(body)),
      customRequest := upper,
      returnTransfer := true,
      includeHeader := true,
      userPwd := walletId + ":" + walletToken,
      connectTimeout := ConnectTimeout,
      sslVerifyPeer := false,
      sslVerifyHost := 0,
      sslVersion := 0,
      httpHeader := [SdkHeader])
  }

  /** The transfer split on "\n": the last piece is the body, the others are
      the header lines. */
  datatype Framed = Framed(headers: seq<string>, content: string)

  function Frame(result: string): (f: Framed)
    ensures '\n' !in f.content
    ensures PiecesFree('\n', f.headers)
    ensures |f.headers| == Count('\n', result)
  {
    var data := Explode('\n', result);
    Framed(data[..|data| - 1], data[|data| - 1])
  }

  /** The array apiRequest hands to the response for a transport outcome. */
  function ResponseInput(outcome: TransportOutcome, jsonEncode: Value -> string): (input: ApiResponse)
    ensures outcome.TransportError? <==> input.headers.None?
  {
    match outcome
    case TransportError => ApiResponse(jsonEncode(CurlErrorBody), None)
    case Received(result) =>
      var f := Frame(result);
      ApiResponse(f.content, Some(f.headers))
  }

  /** `r` is the response apiRequest builds when `send` answers `req`. */
  ghost predicate Answers(r: WidepayResponse, req: CurlRequest,
                          send: CurlRequest -> TransportOutcome, lib: Library)
    reads r
  {
    var input := ResponseInput(send(req), lib.jsonEncode);
    && r.Valid()
    && r.raw == input.content
    && r.headers == input.headers
    && r.response == lib.jsonDecode(input.content)
  }

  /** ifSet: the value when it is set, the alternative otherwise. */
  function IfSet(value: Option<Value>, alt: Value): (r: Value)
    ensures Isset(value) ==> r == value.value
    ensures !Isset(value) ==> r == alt
  {
    if Isset(value) then value.value else alt
  }

  class WidepayApi {
    var apiUrl: string
    var walletId: string
    var walletToken: string

    constructor (walletId: string, walletToken: string)
      ensures apiUrl == ApiUrl
      ensures this.walletId == walletId && this.walletToken == walletToken
    {
      apiUrl := ApiUrl;
      this.walletId := walletId;
      this.walletToken := walletToken;
    }

    /** The curl options apiRequest sets, in the order it sets them. */
    method BuildRequest(route: string, body: Body, httpMethod: string, buildQuery: Body -> string)
      returns (req: CurlRequest)
      ensures req == ComposeRequest(apiUrl, walletId, walletToken, route, body, httpMethod, buildQuery)
    {
      var url := apiUrl + "/" + route;
      var post := false;
      var postFields: Option<string> := None;
      var upper := ToUpper(httpMethod);
      if upper == "GET" || upper == "DELETE" {
        url := url + (if |body| == 0 then "" else "?" + buildQuery(body));
      } else {
        if upper == "POST" {
          post := true;
        }
        postFields := Some(buildQuery(body));
      }
      var headers: seq<string> := [];
      headers := headers + [SdkHeader];
      req := CurlRequest(url, post, postFields, upper, true, true, walletId + ":" + walletToken,
                         ConnectTimeout, false, 0, 0, headers);
    }

    method ApiRequest(route: string, body: Body, httpMethod: string,
                      send: CurlRequest -> TransportOutcome, lib: Library)
      returns (r: WidepayResponse)
      ensures fresh(r)
      ensures Answers(r, ComposeRequest(apiUrl, walletId, walletToken, route, body, httpMethod, lib.buildQuery), send, lib)
      ensures send(ComposeRequest(apiUrl, walletId, walletToken, route, body, httpMethod, lib.buildQuery)).TransportError?
              && lib.jsonDecode(lib.jsonEncode(CurlErrorBody)) == CurlErrorBody
              ==> r.status == DefaultStatus && r.errors == [Str("Curl Error")]
    {
      var req := BuildRequest(route, body, httpMethod, lib.buildQuery);
      var outcome := send(req);
      if outcome.TransportError? {
        r := new WidepayResponse(ApiResponse(lib.jsonEncode(CurlErrorBody), None), lib.jsonDecode);
        return;
      }
      var data := Explode('\n', outcome.result);
      var content := data[|data| - 1];
      var headers := data[..|data| - 1];
      r := new WidepayResponse(ApiResponse(content, Some(headers)), lib.jsonDecode);
    }

    method CreateCharge(params: Body, send: CurlRequest -> TransportOutcome, lib: Library)
      returns (r: WidepayResponse)
      ensures fresh(r)
      ensures Answers(r, ComposeRequest(apiUrl, walletId, walletToken, ChargeRoute, params, "POST", lib.buildQuery), send, lib)
    {
      r := ApiRequest(ChargeRoute, params, "POST", send, lib);
    }

    method GetNotificationCharge(notificationId: string, send: CurlRequest -> TransportOutcome, lib: Library)
      returns (r: WidepayResponse)
      ensures fresh(r)
      ensures Answers(r, ComposeRequest(apiUrl, walletId, walletToken, NotificationRoute,
                                        [("id", Str(notificationId))], "POST", lib.buildQuery), send, lib)
    {
      r := ApiRequest(NotificationRoute, [("id", Str(notificationId))], "POST", send, lib);
    }
  }

  /** GET and DELETE, in any case: the body goes into the query string, and
      only when it is non-empty; nothing is posted. */
  lemma QueryMethodRequest(apiUrl: string, walletId: string, walletToken: string,
                           route: string, body: Body, httpMethod: string, buildQuery: Body -> string)
    requires IsQueryMethod(httpMethod)
    ensures var req := ComposeRequest(apiUrl, walletId, walletToken, route, body, httpMethod, buildQuery);
      && (|body| == 0 ==> req.url == apiUrl + "/" + route)
      && (|body| > 0 ==> req.url == apiUrl + "/" + route + "?" + buildQuery(body))
      && req.postFields == None
      && !req.post
      && req.customRequest == ToUpper(httpMethod)
  {
  }

  /** Every other method: the URL is not extended and the encoded body is
      posted; CURLOPT_POST is set for POST only; the custom request method is
      the upper-cased method. */
  lemma BodyMethodRequest(apiUrl: string, walletId: string, walletToken: string,
                          route: string, body: Body, httpMethod: string, buildQuery: Body -> string)
    requires !IsQueryMethod(httpMethod)
    ensures var req := ComposeRequest(apiUrl, walletId, walletToken, route, body, httpMethod, buildQuery);
      && req.url == apiUrl + "/" + route
      && req.postFields == Some(buildQuery(body))
      && (req.post <==> ToUpper(httpMethod) == "POST")
      && req.customRequest == ToUpper(httpMethod)
  {
  }

  /** The method is matched without regard to case. */
  lemma MethodCaseInsensitive(apiUrl: string, walletId: string, walletToken: string,
                              route: string, body: Body, m1: string, m2: string, buildQuery: Body -> string)
    requires ToUpper(m1) == ToUpper(m2)
    ensures ComposeRequest(apiUrl, walletId, walletToken, route, body, m1, buildQuery)
         == ComposeRequest(apiUrl, walletId, walletToken, route, body, m2, buildQuery)
  {
  }

  /** Lower-case spellings select the same branches as upper-case ones. */
  lemma LowerCaseMethods()
    ensures IsQueryMethod("get") && IsQueryMethod("Delete") && !IsQueryMethod("post")
    ensures ToUpper("post") == "POST"
  {
  }

  /** The fixed transport settings every request carries. */
  lemma RequestConstants(apiUrl: string, walletId: string, walletToken: string,
                         route: string, body: Body, httpMethod: string, buildQuery: Body -> string)
    ensures var req := ComposeRequest(apiUrl, walletId, walletToken, route, body, httpMethod, buildQuery);
      && req.returnTransfer && req.includeHeader
      && req.connectTimeout == 30
      && !req.sslVerifyPeer && req.sslVerifyHost == 0 && req.sslVersion == 0
  {
  }

  /** createCharge posts its parameters to the charge route. */
  lemma ChargeRequest(apiUrl: string, walletId: string, walletToken: string,
                      params: Body, buildQuery: Body -> string)
    ensures var req := ComposeRequest(apiUrl, walletId, walletToken, ChargeRoute, params, "POST", buildQuery);
      && req.url == apiUrl + "/recebimentos/cobrancas/adicionar"
      && req.post && req.customRequest == "POST"
      && req.postFields == Some(buildQuery(params))
  {
  }

  /** getNotificationCharge posts {id: notification id} to the notification
      route. */
  lemma NotificationRequest(apiUrl: string, walletId: string, walletToken: string,
                            notificationId: string, buildQuery: Body -> string)
    ensures var req := ComposeRequest(apiUrl, walletId, walletToken, NotificationRoute,
                                      [("id", Str(notificationId))], "POST", buildQuery);
      && req.url == apiUrl + "/recebimentos/cobrancas/notificacao"
      && req.post && req.customRequest == "POST"
      && req.postFields == Some(buildQuery([("id", Str(notificationId))]))
  {
  }

  /** Joining the header lines and the body with "\n" gives back the
      transfer. */
  lemma FrameRejoins(result: string)
    ensures Join('\n', Frame(result).headers + [Frame(result).content]) == result
  {
    var data := Explode('\n', result);
    assert data[..|data| - 1] + [data[|data| - 1]] == data;
    JoinExplode('\n', result);
  }

  /** Framing recovers any header lines and body that were joined with "\n". */
  lemma FrameOfJoin(headers: seq<string>, content: string)
    requires PiecesFree('\n', headers) && '\n' !in content
    ensures Frame(Join('\n', headers + [content])) == Framed(headers, content)
  {
    var pieces := headers + [content];
    assert PiecesFree('\n', pieces) by {
      forall k | 0 <= k < |pieces| ensures '\n' !in pieces[k] {
        if k < |headers| { assert pieces[k] == headers[k]; }
      }
    }
    ExplodeJoin('\n', pieces);
    assert pieces[..|pieces| - 1] == headers;
  }

  /** A transfer without a newline has no header lines; all of it is body. */
  lemma FrameWithoutNewline(result: string)
    requires '\n' !in result
    ensures Frame(result) == Framed([], result)
  {
    ExplodeWithoutSep('\n', result);
  }

  /** After a transport error there are no headers, so the status is the
      default "400" rather than the 500 in the synthetic body; if json_decode
      reads back what json_encode wrote, the errors are exactly ["Curl Error"]. */
  lemma TransportErrorResponse(lib: Library)
    requires lib.jsonDecode(lib.jsonEncode(CurlErrorBody)) == CurlErrorBody
    ensures var input := ResponseInput(TransportError, lib.jsonEncode);
      && input.headers == None
      && StatusOf(input.headers) == DefaultStatus
      && ErrorsOf(lib.jsonDecode(input.content)) == [Str("Curl Error")]
  {
  }

  /** End to end for a received transfer: with a status line `first code rest`
      followed by more header lines and a body, the response body is that body
      and the status is `code`. */
  lemma ReceivedStatus(first: string, code: string, rest: string, more: seq<string>,
                       content: string, jsonEncode: Value -> string)
    requires ' ' !in first && ' ' !in code && (rest == [] || rest[0] == ' ')
    requires PiecesFree('\n', [first + " " + code + rest] + more) && '\n' !in content
    ensures var input := ResponseInput(Received(Join('\n', [first + " " + code + rest] + more + [content])), jsonEncode);
      && input.content == content
      && StatusOf(input.headers) == code
  {
    var headers := [first + " " + code + rest] + more;
    FrameOfJoin(headers, content);
    StatusIsSecondToken(first, code, rest, more);
  }

  /** ifSet yields null only when the value is unset and the alternative is
      null, as with the default alternative. */
  lemma IfSetNull(value: Option<Value>, alt: Value)
    ensures IfSet(value, alt) == Null <==> !Isset(value) && alt == Null
  {
  }
}
