/**
 * The stream relay (internal/api/proxy.go): validate the `url` parameter,
 * fetch it upstream with the origin's referer and a browser user agent,
 * mirror status and headers (with `Access-Control-Allow-Origin` forced to
 * `*`) and stream the body through.
 *
 * Whether `http.NewRequest` accepts the URL, what the upstream call
 * returns, and when the client stops accepting bytes are inputs.
 */
module Proxy {
  import opened Wrappers
  import opened Response
  import opened Http

  const OriginReferer: string := "https://www.bilibili.com"
  const BrowserAgent: string :=
    "Mozilla/5.0 (Windows NT 10.0; Win64; x64) AppleWebKit/537.36 (KHTML, like Gecko) Chrome/120.0.0.0 Safari/537.36"

  const StatusBadRequest: int := 400
  const StatusInternalServerError: int := 500
  const StatusBadGateway: int := 502

  const MsgMissingUrl: string := "Missing url parameter"
  const MsgInvalidUrl: string := "Invalid URL"
  const MsgUpstreamFailed: string := "Failed to request upstream"

  /** An outbound HTTP request. */
  datatype Request = Request(verb: string, url: string, header: Header)

  /** What `http.DefaultClient.Do` gives back: an error, or a response whose body is read chunk by chunk. */
  datatype Upstream =
    | Unreachable
    | Responded(status: int, header: Header, chunks: seq<seq<byte>>, readFails: bool)

  /** The inbound client: it takes every byte, or its connection breaks after `limit` bytes. */
  datatype Client = StaysConnected | DisconnectsAfter(limit: nat)

  datatype CopyError = ReadFailed | WriteFailed

  /** The outbound GET with the two injected headers. */
  function Outbound(url: string): (r: Request)
    ensures r.verb == "GET" && r.url == url
    ensures r.header.Keys == {"Referer", "User-Agent"}
    ensures r.header["Referer"] == [OriginReferer]
    ensures r.header["User-Agent"] == [BrowserAgent]
  {
    var h := SetHeader(map[], "Referer", OriginReferer);
    Request("GET", url, SetHeader(h, "User-Agent", BrowserAgent))
  }

  // ---------------------------------------------------------------------
  // Header rewrite

  /** The writer's headers after the copy loop: upstream keys other than `AllowOrigin` overwrite or join. */
  function Forwarded(h: Header, up: Header): (r: Header)
  {
    map k | k in h.Keys + (up.Keys - {AllowOrigin}) :: if k in up && k != AllowOrigin then up[k] else h[k]
  }

  /** The headers the client finally sees: the copy, then `AllowOrigin` set to `*`. */
  function RelayHeaders(h: Header, up: Header): (r: Header)
    ensures r.Keys == h.Keys + up.Keys + {AllowOrigin}
    ensures r[AllowOrigin] == ["*"]
    ensures forall k :: k in up && k != AllowOrigin ==> r[k] == up[k]
    ensures forall k :: k in h && k !in up && k != AllowOrigin ==> r[k] == h[k]
  {
    SetHeader(Forwarded(h, up), AllowOrigin, "*")
  }

  /** The `for k, v := range resp.Header` loop, writing into the writer's header map in place. */
  method CopyHeaders(w: ResponseWriter, up: Header)
    modifies w
    ensures w.State() == old(w.State()).(header := Forwarded(old(w.header), up))
  {
    ghost var h0 := w.header;
    var todo := up.Keys;
    ghost var done: set<string> := {};
    while todo != {}
      invariant todo + done == up.Keys && todo !! done
      invariant w.State() == old(w.State()).(header := w.header)
      invariant w.header == Forwarded(h0, map k | k in done :: up[k])
      decreases todo
    {
      var k :| k in todo;
      if k != AllowOrigin {
        w.header := w.header[k := up[k]];
      }
      todo, done := todo - {k}, done + {k};
    }
    assert (map k | k in done :: up[k]) == up;
  }

  // ---------------------------------------------------------------------
  // Stream copy

  /** The body bytes, in order. */
  function Concat(chunks: seq<seq<byte>>): (bytes: seq<byte>)
    decreases |chunks|
  {
    if chunks == [] then [] else chunks[0] + Concat(chunks[1..])
  }

  lemma {:induction false} ConcatAppend(a: seq<seq<byte>>, b: seq<seq<byte>>)
    ensures Concat(a + b) == Concat(a) + Concat(b)
    decreases |a|
  {
    if a == [] {
      assert a + b == b;
    } else {
      assert (a + b)[0] == a[0];
      assert (a + b)[1..] == a[1..] + b;
      ConcatAppend(a[1..], b);
    }
  }

  function Min(a: int, b: int): (m: int)
  {
    if a <= b then a else b
  }

  /** How many of `total` upstream bytes the client accepts. */
  function Accepted(total: nat, client: Client): (n: nat)
    ensures n <= total
    ensures n == total <==> (client.StaysConnected? || client.limit >= total)
  {
    match client
    case StaysConnected => total
    case DisconnectsAfter(limit) => Min(total, limit)
  }

  /** The bytes that reach the client: a prefix of the body, the whole of it unless the client breaks off. */
  function Transferred(chunks: seq<seq<byte>>, client: Client): (out: seq<byte>)
    ensures out <= Concat(chunks)
    ensures out == Concat(chunks) <==> Accepted(|Concat(chunks)|, client) == |Concat(chunks)|
  {
    Concat(chunks)[..Accepted(|Concat(chunks)|, client)]
  }

  /** How the copy ends: a failed write first, else a failed read at the end, else end-of-stream. */
  function CopyOutcome(chunks: seq<seq<byte>>, readFails: bool, client: Client): (err: Option<CopyError>)
  {
    if Accepted(|Concat(chunks)|, client) < |Concat(chunks)| then Some(WriteFailed)
    else if readFails then Some(ReadFailed)
    else None
  }

  /** The copy ends without error exactly when every byte arrived and the stream ended cleanly. */
  lemma CopyCleanIffComplete(chunks: seq<seq<byte>>, readFails: bool, client: Client)
    ensures CopyOutcome(chunks, readFails, client) == None <==>
      (Transferred(chunks, client) == Concat(chunks) && !readFails)
  {
  }

  /**
   * `io.Copy(c.Writer, resp.Body)`: read a chunk, write it, stop at
   * end-of-stream or at the first error. A write the client breaks off
   * delivers only the part the client still accepts.
   */
  method StreamCopy(chunks: seq<seq<byte>>, readFails: bool, client: Client)
    returns (out: seq<byte>, err: Option<CopyError>)
    ensures out == Transferred(chunks, client)
    ensures err == CopyOutcome(chunks, readFails, client)
  {
    out := [];
    var i := 0;
    while i < |chunks|
      invariant 0 <= i <= |chunks|
      invariant out == Concat(chunks[..i])
      invariant client.DisconnectsAfter? ==> |out| <= client.limit
    {
      var c := chunks[i];
      ConcatAppend(chunks[..i], [c]);
      ConcatAppend(chunks[..i + 1], chunks[i + 1..]);
      assert chunks[..i] + [c] == chunks[..i + 1];
      assert chunks[..i + 1] + chunks[i + 1..] == chunks;
      assert Concat([c]) == c + Concat([]);
      if client.DisconnectsAfter? && |out| + |c| > client.limit {
        var room := client.limit - |out|;
        assert Concat(chunks) == out + c + Concat(chunks[i + 1..]);
        out := out + c[..room];
        assert out == Concat(chunks)[..client.limit];
        err := Some(WriteFailed);
        return;
      }
      out := out + c;
      i := i + 1;
    }
    assert chunks[..i] == chunks;
    err := if readFails then Some(ReadFailed) else None;
  }

  // ---------------------------------------------------------------------
  // The handler

  /** Everything the handler produces: the writer, the request it sent if any, and whether it closed an upstream body. */
  datatype Relayed = Relayed(writer: Written, sent: Option<Request>, bodyClosed: bool)

  /** `ProxyHandler` over the writer state it starts from. */
  function Relay(w: Written, url: string, urlParses: bool, up: Upstream, client: Client): (r: Relayed)
  {
    if url == "" then
      Relayed(w.(status := StatusBadRequest, json := Some(Fail(MsgMissingUrl))), None, false)
    else if !urlParses then
      Relayed(w.(status := StatusInternalServerError, json := Some(Fail(MsgInvalidUrl))), None, false)
    else
      match up
      case Unreachable =>
        Relayed(w.(status := StatusBadGateway, json := Some(Fail(MsgUpstreamFailed))), Some(Outbound(url)), false)
      case Responded(status, header, chunks, _) =>
        Relayed(Written(RelayHeaders(w.header, header), status, w.json, w.body + Transferred(chunks, client)),
                Some(Outbound(url)), true)
  }

  /** `ProxyHandler`, with the query of the inbound request and the outcomes of the calls it makes. */
  method ProxyHandler(w: ResponseWriter, q: Query, urlParses: bool, up: Upstream, client: Client)
    returns (sent: Option<Request>, bodyClosed: bool)
    modifies w
    ensures Relayed(w.State(), sent, bodyClosed) == Relay(old(w.State()), QueryParam(q, "url"), urlParses, up, client)
  {
    var targetUrl := QueryParam(q, "url");
    if targetUrl == "" {
      w.Json(StatusBadRequest, Fail(MsgMissingUrl));
      return None, false;
    }
    if !urlParses {
      w.Json(StatusInternalServerError, Fail(MsgInvalidUrl));
      return None, false;
    }
    var req := Outbound(targetUrl);
    sent := Some(req);
    if up.Unreachable? {
      w.Json(StatusBadGateway, Fail(MsgUpstreamFailed));
      return sent, false;
    }
    CopyHeaders(w, up.header);
    w.Set(AllowOrigin, "*");
    w.Status(up.status);
    var out, err := StreamCopy(up.chunks, up.readFails, client);
    w.Write(out);
    // the deferred resp.Body.Close()
    bodyClosed := true;
  }

  // ---------------------------------------------------------------------
  // Properties of the relay

  /** An empty `url` is a 400 with its own message, and nothing is sent upstream. */
  lemma EmptyUrlRejected(w: Written, urlParses: bool, up: Upstream, client: Client)
    ensures var r := Relay(w, "", urlParses, up, client);
      && r.sent == None && !r.bodyClosed
      && r.writer.status == 400 && r.writer.json == Some(Fail("Missing url parameter"))
      && r.writer.header == w.header && r.writer.body == w.body
  {
  }

  /** A URL the request constructor refuses is a 500 and nothing is sent upstream. */
  lemma InvalidUrlRejected(w: Written, url: string, up: Upstream, client: Client)
    requires url != ""
    ensures var r := Relay(w, url, false, up, client);
      && r.sent == None && !r.bodyClosed
      && r.writer.status == 500 && r.writer.json == Some(Fail("Invalid URL"))
      && r.writer.header == w.header && r.writer.body == w.body
  {
  }

  /** An upstream failure is a 502: the request was sent, but no header is copied and no byte written. */
  lemma UnreachableIsBadGateway(w: Written, url: string, client: Client)
    requires url != ""
    ensures var r := Relay(w, url, true, Unreachable, client);
      && r.sent == Some(Outbound(url)) && !r.bodyClosed
      && r.writer.status == 502 && r.writer.json == Some(Fail("Failed to request upstream"))
      && r.writer.header == w.header && r.writer.body == w.body
  {
  }

  /**
   * On an upstream response: the status is passed through untranslated,
   * headers are mirrored with `Access-Control-Allow-Origin: *`, the bytes
   * written are a prefix of the body (all of it if the client stays), no
   * JSON is written and the upstream body is closed.
   */
  lemma RespondedIsMirrored(w: Written, url: string, status: int, header: Header,
                            chunks: seq<seq<byte>>, readFails: bool, client: Client)
    requires url != ""
    ensures var r := Relay(w, url, true, Responded(status, header, chunks, readFails), client);
      && r.sent == Some(Outbound(url)) && r.bodyClosed
      && r.writer.status == status
      && r.writer.json == w.json
      && r.writer.header[AllowOrigin] == ["*"]
      && (forall k :: k in header && k != AllowOrigin ==> r.writer.header[k] == header[k])
      && (forall k :: k in w.header && k !in header && k != AllowOrigin ==> r.writer.header[k] == w.header[k])
      && w.body <= r.writer.body
      && r.writer.body[|w.body|..] <= Concat(chunks)
      && (client.StaysConnected? ==> r.writer.body == w.body + Concat(chunks))
  {
    var r := Relay(w, url, true, Responded(status, header, chunks, readFails), client);
    assert r.writer.body == w.body + Transferred(chunks, client);
    assert r.writer.body[|w.body|..] == Transferred(chunks, client);
  }

  /** Status and headers do not depend on how the body copy ends. */
  lemma CopyErrorKeepsStatusAndHeaders(w: Written, url: string, urlParses: bool, status: int, header: Header,
                                       chunks1: seq<seq<byte>>, readFails1: bool, client1: Client,
                                       chunks2: seq<seq<byte>>, readFails2: bool, client2: Client)
    ensures var r1 := Relay(w, url, urlParses, Responded(status, header, chunks1, readFails1), client1);
      var r2 := Relay(w, url, urlParses, Responded(status, header, chunks2, readFails2), client2);
      r1.writer.status == r2.writer.status && r1.writer.header == r2.writer.header
  {
  }
}
