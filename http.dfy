/**
 * The slice of the web framework the handlers touch: query parameters,
 * header maps and the response writer they mutate.
 */
module Http {
  import opened Wrappers
  import opened Response

  newtype byte = x: int | 0 <= x < 256

  /** `http.Header`; keys are assumed already canonicalised. */
  type Header = map<string, seq<string>>

  /** The CORS header the middleware sets and the relay forces. */
  const AllowOrigin: string := "Access-Control-Allow-Origin"

  /** The query string of a request, one value per key. */
  type Query = map<string, string>

  /** `c.Query(k)`: the value, or "" when the key is absent. */
  function QueryParam(q: Query, k: string): (v: string)
  {
    if k in q then q[k] else ""
  }

  /** `Header.Set(k, v)`: the key now has exactly the one value. */
  function SetHeader(h: Header, k: string, v: string): (r: Header)
  {
    h[k := [v]]
  }

  /**
   * What a handler has produced on the writer so far: headers, status,
   * a JSON reply (only failures are written as JSON through a writer here)
   * and the raw body bytes.
   */
  datatype Written = Written(header: Header, status: int, json: Option<Result<()>>, body: seq<byte>)

  /** `gin.ResponseWriter`, mutated in place by middleware and handlers. */
  class ResponseWriter {
    var header: Header
    var status: int
    var json: Option<Result<()>>
    var body: seq<byte>

    function State(): Written
      reads this
    {
      Written(header, status, json, body)
    }

    /** A fresh writer: the given headers, the default status 200, nothing written yet. */
    constructor (h: Header)
      ensures State() == Written(h, 200, None, [])
    {
      header, status, json, body := h, 200, None, [];
    }

    /** `c.Writer.Header().Set(k, v)`. */
    method Set(k: string, v: string)
      modifies this
      ensures State() == old(State()).(header := SetHeader(old(header), k, v))
    {
      header := SetHeader(header, k, v);
    }

    /** `c.Status(code)` and `c.AbortWithStatus(code)`: only the status changes. */
    method Status(code: int)
      modifies this
      ensures State() == old(State()).(status := code)
    {
      status := code;
    }

    /** `c.JSON(code, r)`: status and JSON reply. */
    method Json(code: int, r: Result<()>)
      modifies this
      ensures State() == old(State()).(status := code, json := Some(r))
    {
      status, json := code, Some(r);
    }

    /** `Write(bytes)`: the bytes are appended to the body. */
    method Write(bytes: seq<byte>)
      modifies this
      ensures State() == old(State()).(body := old(body) + bytes)
    {
      body := body + bytes;
    }
  }
}
