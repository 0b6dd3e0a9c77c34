/**
 * The request-level rules written inline in main.go: the CORS middleware
 * and the route closures that map service outcomes to JSON replies. The
 * services they call are parameters; their results are inputs.
 */
module Routes {
  import opened Wrappers
  import opened Response
  import opened Http
  import Proxy

  const StatusOK: int := 200
  const StatusNoContent: int := 204

  const AllowMethods: string := "Access-Control-Allow-Methods"
  const AllowHeaders: string := "Access-Control-Allow-Headers"
  const AllowedMethods: string := "POST, GET, OPTIONS, PUT, DELETE"
  const AllowedHeaders: string := "Content-Type, Content-Length, Accept-Encoding, X-CSRF-Token, Authorization"

  const MsgMissingQrKey: string := "缺少 qrcodekey 参数"
  const MsgMissingVideoIds: string := "缺少 bvid 或 cid 参数"
  const MsgResolvePrefix: string := "解析失败: "
  const MsgNoCookie: string := "暂无 Cookie，请先扫码登录"

  /** A JSON reply: the HTTP status and the envelope. */
  datatype Reply<T> = Reply(status: int, body: Result<T>)

  /** A Go `(value, error)` pair from a service; the error is kept as its `Error()` text. */
  datatype Outcome<T> = Ok(value: T) | Err(error: string)

  // ---------------------------------------------------------------------
  // CORS middleware

  /** The writer's headers after the middleware's three `Set` calls. */
  function CorsHeaders(h: Header): (r: Header)
    ensures r.Keys == h.Keys + {AllowOrigin, AllowMethods, AllowHeaders}
    ensures r[AllowOrigin] == ["*"]
    ensures r[AllowMethods] == [AllowedMethods]
    ensures r[AllowHeaders] == [AllowedHeaders]
    ensures forall k :: k in h && k !in {AllowOrigin, AllowMethods, AllowHeaders} ==> r[k] == h[k]
  {
    SetHeader(SetHeader(SetHeader(h, AllowOrigin, "*"), AllowMethods, AllowedMethods), AllowHeaders, AllowedHeaders)
  }

  /**
   * The middleware: every request gets the three CORS headers; an OPTIONS
   * request is aborted with 204 and reaches no route handler; any other
   * method continues (`next`) with the status untouched.
   */
  method Cors(w: ResponseWriter, httpMethod: string) returns (next: bool)
    modifies w
    ensures next <==> httpMethod != "OPTIONS"
    ensures w.header == CorsHeaders(old(w.header))
    ensures w.status == (if next then old(w.status) else StatusNoContent)
    ensures w.json == old(w.json) && w.body == old(w.body)
  {
    w.Set(AllowOrigin, "*");
    w.Set(AllowMethods, AllowedMethods);
    w.Set(AllowHeaders, AllowedHeaders);
    if httpMethod == "OPTIONS" {
      w.Status(StatusNoContent);
      return false;
    }
    next := true;
  }

  // ---------------------------------------------------------------------
  // /getQRCode

  /** `/getQRCode`: the service's data as a success, its error text as a failure, always HTTP 200. */
  function GetQRCodeReply<T>(svc: Outcome<T>): (r: Reply<T>)
    ensures r.status == StatusOK
    ensures IsSuccess(r.body) <==> svc.Ok?
    ensures svc.Ok? ==> r.body == Success(svc.value)
    ensures svc.Err? ==> r.body == Fail(svc.error)
  {
    match svc
    case Ok(d) => Reply(StatusOK, Success(d))
    case Err(e) => Reply(StatusOK, Fail(e))
  }

  // ---------------------------------------------------------------------
  // /verifyQRCode

  /** The poll status the login service returns; the closure reads only its message. */
  datatype QrStatus = QrStatus(message: string, fields: map<string, string>)

  /** `CheckQRCodeStatus(key)`: an error, or the status and whether the login is complete. */
  datatype QrCheck = CheckFailed(error: string) | Checked(data: QrStatus, success: bool)

  /** The key: `qrcodekey`, and `qrcode_key` when that is empty. */
  method SelectQrKey(q: Query) returns (key: string)
    ensures QueryParam(q, "qrcodekey") != "" ==> key == QueryParam(q, "qrcodekey")
    ensures QueryParam(q, "qrcodekey") == "" ==> key == QueryParam(q, "qrcode_key")
    ensures key == "" <==> QueryParam(q, "qrcodekey") == "" && QueryParam(q, "qrcode_key") == ""
  {
    key := QueryParam(q, "qrcodekey");
    if key == "" {
      key := QueryParam(q, "qrcode_key");
    }
  }

  /**
   * The reply for a completed status check. An unfinished login is a
   * failure code with the status's own message and, unlike `Fail`, the
   * status as data.
   */
  function QrReply(c: QrCheck): (r: Reply<QrStatus>)
    ensures r.status == StatusOK
    ensures IsSuccess(r.body) <==> c.Checked? && c.success
    ensures c.Checked? ==> r.body.data == Some(c.data)
    ensures c.Checked? && c.success ==> r.body == Success(c.data)
    ensures c.Checked? && !c.success ==> r.body.code == CodeError && r.body.msg == c.data.message
    ensures c.CheckFailed? ==> r.body == Fail(c.error)
  {
    match c
    case CheckFailed(e) => Reply(StatusOK, Fail(e))
    case Checked(data, success) =>
      if success then Reply(StatusOK, Success(data))
      else Reply(StatusOK, Result(500, data.message, Some(data)))
  }

  /**
   * `/verifyQRCode`: with no key the reply is the missing-key failure and
   * the service is never asked; otherwise the service is asked with the
   * chosen key and its answer mapped by `QrReply`.
   */
  method VerifyQRCode(q: Query, checkStatus: string -> QrCheck) returns (reply: Reply<QrStatus>, asked: Option<string>)
    ensures asked.None? <==> QueryParam(q, "qrcodekey") == "" && QueryParam(q, "qrcode_key") == ""
    ensures asked.None? ==> reply == Reply(StatusOK, Fail(MsgMissingQrKey))
    ensures asked.Some? ==> asked.value != "" && reply == QrReply(checkStatus(asked.value))
    ensures asked.Some? && QueryParam(q, "qrcodekey") != "" ==> asked.value == QueryParam(q, "qrcodekey")
    ensures asked.Some? && QueryParam(q, "qrcodekey") == "" ==> asked.value == QueryParam(q, "qrcode_key")
    ensures reply.status == StatusOK
  {
    var key := SelectQrKey(q);
    if key == "" {
      return Reply(StatusOK, Fail(MsgMissingQrKey)), None;
    }
    asked := Some(key);
    reply := QrReply(checkStatus(key));
  }

  // ---------------------------------------------------------------------
  // /video/resolve

  /** A route's reply together with the arguments its service was called with, if it was. */
  datatype Handled<T, A> = Handled(reply: Reply<T>, call: Option<A>)

  /**
   * `/video/resolve`: the resolver is called only when both `bvid` and
   * `cid` are non-empty; otherwise the missing-parameter failure. A
   * resolver error is reported with its prefix.
   */
  function ResolveVideo<V>(q: Query, resolve: (string, string) -> Outcome<V>): (r: Handled<V, (string, string)>)
    ensures r.reply.status == StatusOK
    ensures r.call.Some? <==> QueryParam(q, "bvid") != "" && QueryParam(q, "cid") != ""
    ensures r.call.Some? ==> r.call.value == (QueryParam(q, "bvid"), QueryParam(q, "cid"))
    ensures r.call.None? ==> r.reply.body == Fail(MsgMissingVideoIds)
    ensures r.call.Some? ==> (IsSuccess(r.reply.body) <==> resolve(r.call.value.0, r.call.value.1).Ok?)
    ensures r.call.Some? && resolve(r.call.value.0, r.call.value.1).Ok? ==>
      r.reply.body == Success(resolve(r.call.value.0, r.call.value.1).value)
    ensures r.call.Some? && resolve(r.call.value.0, r.call.value.1).Err? ==>
      r.reply.body == Fail(MsgResolvePrefix + resolve(r.call.value.0, r.call.value.1).error)
  {
    var bvid, cid := QueryParam(q, "bvid"), QueryParam(q, "cid");
    if bvid == "" || cid == "" then
      Handled(Reply(StatusOK, Fail(MsgMissingVideoIds)), None)
    else
      match resolve(bvid, cid)
      case Ok(data) => Handled(Reply(StatusOK, Success(data)), Some((bvid, cid)))
      case Err(e) => Handled(Reply(StatusOK, Fail(MsgResolvePrefix + e)), Some((bvid, cid)))
  }

  // ---------------------------------------------------------------------
  // /api/cookie/view

  /**
   * The stored cookie. `SessData` is a Go string, so its length and slices
   * count bytes; the other fields are only copied.
   */
  datatype Cookie = Cookie(sessData: seq<byte>, otherFields: map<string, seq<byte>>)

  /** The bytes of "...". */
  const Ellipsis: seq<byte> := [46, 46, 46]

  /** At most ten bytes of `SessData` are shown; a longer value is cut and marked with "...". */
  function MaskSessData(s: seq<byte>): (m: seq<byte>)
    ensures |m| <= 13
    ensures |m| >= Proxy.Min(|s|, 10) && m[..Proxy.Min(|s|, 10)] == s[..Proxy.Min(|s|, 10)]
    ensures |s| <= 10 ==> m == s
    ensures |s| > 10 ==> |m| == 13 && m[10..] == Ellipsis
  {
    if |s| > 10 then s[..10] + Ellipsis else s
  }

  /**
   * `/api/cookie/view`: an empty `SessData` is the no-cookie failure;
   * otherwise a copy of the cookie with only `SessData` masked.
   */
  function CookieView(c: Cookie): (r: Reply<Cookie>)
    ensures r.status == StatusOK
    ensures IsSuccess(r.body) <==> c.sessData != []
    ensures c.sessData == [] ==> r.body == Fail(MsgNoCookie)
    ensures c.sessData != [] ==> r.body == Success(c.(sessData := MaskSessData(c.sessData)))
  {
    if c.sessData == [] then Reply(StatusOK, Fail(MsgNoCookie))
    else Reply(StatusOK, Success(c.(sessData := MaskSessData(c.sessData))))
  }

  // ---------------------------------------------------------------------
  // The middleware in front of /proxy

  /**
   * On `/proxy` the middleware runs first, then the relay rewrites the
   * headers: `Access-Control-Allow-Origin` is `*` either way, but an
   * upstream `Access-Control-Allow-Methods` or `-Headers` replaces the
   * middleware's value, which survives only where upstream sends none.
   */
  lemma CorsThenRelay(h: Header, up: Header)
    ensures var r := Proxy.RelayHeaders(CorsHeaders(h), up);
      && r[AllowOrigin] == ["*"]
      && (AllowMethods in up ==> r[AllowMethods] == up[AllowMethods])
      && (AllowMethods !in up ==> r[AllowMethods] == [AllowedMethods])
      && (AllowHeaders in up ==> r[AllowHeaders] == up[AllowHeaders])
      && (AllowHeaders !in up ==> r[AllowHeaders] == [AllowedHeaders])
  {
  }
}
