# bili-download-backend: progress channel, stream relay and route rules

This project models the logic of a small local backend. The backend helps a browser client download videos from bilibili. It does two things. It relays media bytes from the origin, adding the referer and user agent that the origin requires. It also pushes download progress to a single WebSocket subscriber. The WebSocket, HTTP and service layers around that logic are abstracted: the outcome of every call into them is an input.

Modules, one per source file plus two helpers:

- `Wrappers` (`wrappers.dfy`): `Option`.
- `Response` (`response.dfy`): the `{code, msg, data}` envelope (`internal/model/response.go`).
- `Http` (`http.dfy`): query lookup, header maps and the `ResponseWriter` that handlers change in place. This is the part of gin that the handlers use.
- `Progress` (`progress.dfy`): the notification channel (`internal/api/progress.go`).
  - A pure state machine: `Hub`, one function per locked section, and `Run` over a sequence of sections.
  - The class `ProgressChannel`. Its fields are the slot, the connection counter, the set of closed connections and the frames written to each connection. `Subscribe` and `SendProgress` are each one `wsLock` critical section. `ReadLoop` and `ReadLoopGuarded` are the unlocked read loop followed by one critical section. Each method is proved equal to the matching state-machine function.
- `Proxy` (`proxy.dfy`): the stream relay (`internal/api/proxy.go`).
  - The validation ladder and the spec function `Relay`.
  - The in-place header copy loop `CopyHeaders`.
  - The body copy loop `StreamCopy`.
  - The handler `ProxyHandler`, proved equal to `Relay`.
- `Routes` (`routes.dfy`): the rules written inline in `main.go`: the CORS middleware, the QR-key fallback and reply mapping, the resolve parameter check, and the masking of the session cookie.

A connection is numbered by the order in which its upgrade succeeded: the channel hands out `nextConn`, so every new connection is fresh by construction. A `float64` progress value is kept only as its 64-bit pattern, because the channel never looks at it. Go strings that the code measures or slices by bytes (`SessData`) are `seq<byte>`.

The relay's inputs are:

- whether `http.NewRequest` accepts the URL;
- the upstream outcome: unreachable, or a status, a header map, the body chunks and whether the final read fails;
- the client: it stays connected, or it stops accepting writes after a given number of bytes. A write that crosses that limit delivers only the part that fits, and `io.Copy` then stops with a write error.

Three behaviours of the code are worth stating explicitly:

- The relay has three failure statuses of its own: 400 for a missing `url`, 500 for a URL that `http.NewRequest` rejects, and 502 when the upstream call fails (`internal/api/proxy.go:15-39`). Any upstream status is passed through unchanged.
- The middleware sets `Access-Control-Allow-Methods` and `Access-Control-Allow-Headers` on every request (`main.go:22-24`). On `/proxy` the relay's header copy then replaces them with upstream's values when upstream sends those keys (`internal/api/proxy.go:44-49`, `Routes.CorsThenRelay`). Only `Access-Control-Allow-Origin` is guaranteed to stay `*`.
- When a read fails, the read loop clears the slot whoever holds it (`internal/api/progress.go:59-64`). See Findings.

## Model

| member | source | states |
|---|---|---|
| `Response.Success` | internal/model/response.go:18-24 | the result has the success code, the message "success" and the data passed in |
| `Response.Fail` | internal/model/response.go:27-33 | the result has the error code 500, the given message and no data (nil) |
| `Response.SuccessFailDistinct` | internal/model/response.go:12-15 | 200 and 500 differ, so a Success and a Fail result are always told apart by their code |
| `Response.ConstructorsInjective` | internal/model/response.go:18-33 | each constructor depends only on its argument and keeps it: equal results mean equal arguments, and the converse |
| `Progress.ProgressChannel.constructor` | internal/api/progress.go:32-35 | the slot starts empty, no connection exists and nothing has been written |
| `Progress.ProgressChannel.Subscribe` | internal/api/progress.go:39-52 | a failed upgrade returns and changes nothing; otherwise the previous connection, if any, is closed and the new (fresh) connection is installed |
| `Progress.ProgressChannel.ReadLoop` | internal/api/progress.go:57-67 | while reads succeed nothing changes; the loop ends exactly when some read fails, and then the slot is emptied whoever holds it |
| `Progress.ProgressChannel.ReadLoopGuarded` | internal/api/progress.go:57-67 | corrected exit: same loop, but the slot is emptied only when it still holds the loop's own connection |
| `Progress.ProgressChannel.SendProgress` | internal/api/progress.go:72-94 | returns nothing to the caller; with an empty slot nothing changes; a successful write appends one text frame with (fileName, progress) to the current connection; a failed write closes it and empties the slot |
| `Progress.StepPreservesInv` | internal/api/progress.go:47-94 | every locked section keeps the channel invariant: the current connection was upgraded and is not closed, and only upgraded connections are closed or written to |
| `Progress.RunPreservesInv` | internal/api/progress.go:47-94 | any order of locked sections keeps that invariant |
| `Progress.OnlyLastSubscriberOpen` | internal/api/progress.go:47-52 | after back-to-back subscribes S1..Sn, with no read-loop exit in between, only Sn is current and open; S1..Sn-1 and the earlier holder are closed; nothing is written |
| `Progress.DeliveredInOrder` | internal/api/progress.go:81-89 | successful publishes to the current connection append exactly their text frames in call order; slot, closed set and other connections' logs are unchanged |
| `Progress.CountedDelivery` | internal/api/progress.go:81-89 | N successful publishes give exactly N new frames, the i-th carrying the i-th (fileName, progress) |
| `Progress.SilentWithoutSubscriber` | internal/api/progress.go:76-79 | with the slot empty, any run of publishes changes nothing |
| `Progress.FailedWriteThenSilent` | internal/api/progress.go:89-94 | a failed write closes the current connection and empties the slot; later publishes without a new subscribe are no-ops |
| `Progress.StaleReadLoopClearsNewer` | internal/api/progress.go:59-64 | as written: after S1 is replaced by S2, S1's loop ending empties the slot; S2 is still open, the next publish is dropped, and no later run of sections ever writes to S2 |
| `Progress.ReplacedNeverWritten` | internal/api/progress.go:47-94 | a connection that was upgraded but no longer holds the slot never gets it back, and no later run of sections writes anything more to it |
| `Progress.StaleExitOrphansSubscriber` | internal/api/progress.go:47-64 | as written: subscribe S1, subscribe S2 (closing S1), S1's read fails, subscribe S3: S3 holds the slot, and S2 and S3 are both open, against the one-connection rule stated at line 31 |
| `Progress.GuardedReconnectClosesPrevious` | internal/api/progress.go:47-64 | with the corrected exit, the same schedule closes S1 and S2, and only S3 is open |
| `Progress.GuardedReconnectsKeepLast` | internal/api/progress.go:47-64 | with the corrected exit, any run of subscribes and exits of replaced read loops leaves the last subscriber in the slot, every connection upgraded before it during the run closed, the earlier holder closed, and nothing written; with no subscribe the state is unchanged |
| `Progress.GuardedStaleExitsChangeNothing` | internal/api/progress.go:57-64 | with the corrected exit, a run made only of exits of replaced read loops leaves the state unchanged |
| `Progress.GuardedSingleOpenConnection` | internal/api/progress.go:31-64 | with the corrected exit, starting from a state where only the slot's connection is open, any such run with a subscribe leaves exactly one upgraded connection open: the one in the slot |
| `Progress.GuardedKeepsSubscriber` | internal/api/progress.go:59-64 | with the corrected exit, the current subscriber leaves the slot only by replacement, its own read error or a failed write |
| `Progress.GuardedOwnErrorClears` | internal/api/progress.go:59-64 | with the corrected exit, the loop's own read error still empties the slot |
| `Proxy.Outbound` | internal/api/proxy.go:22-31 | the outbound request is a GET to exactly the given URL whose only headers are the bilibili Referer and the fixed Chrome User-Agent |
| `Proxy.RelayHeaders` | internal/api/proxy.go:44-52 | every upstream key except Access-Control-Allow-Origin has exactly upstream's values; writer keys upstream did not send keep theirs; Access-Control-Allow-Origin is exactly ["*"]; no other key appears |
| `Proxy.CopyHeaders` | internal/api/proxy.go:44-49 | the in-place loop over upstream's headers leaves the writer's map equal to the forwarded map and changes nothing else |
| `Proxy.Transferred` | internal/api/proxy.go:59 | the bytes that reach the client are a prefix of the upstream body, and all of it exactly when the client accepts it all |
| `Proxy.StreamCopy` | internal/api/proxy.go:59-62 | the chunk-by-chunk copy writes exactly `Transferred` and ends with a write error, a read error or cleanly, as `CopyOutcome` says |
| `Proxy.CopyCleanIffComplete` | internal/api/proxy.go:59-62 | the copy ends without error if and only if the whole body arrived and the stream ended cleanly |
| `Proxy.ProxyHandler` | internal/api/proxy.go:14-63 | the handler's writer, its sent request and whether it closed the upstream body are exactly what `Relay` gives |
| `Proxy.EmptyUrlRejected` | internal/api/proxy.go:15-19 | an empty url gives 400 with Fail("Missing url parameter"); no request is built or sent; headers and body are untouched |
| `Proxy.InvalidUrlRejected` | internal/api/proxy.go:22-26 | a URL the constructor rejects gives 500 with Fail("Invalid URL") and nothing is sent |
| `Proxy.UnreachableIsBadGateway` | internal/api/proxy.go:35-39 | an upstream failure gives 502 with Fail("Failed to request upstream") after sending the request; no header is copied and no byte is written |
| `Proxy.RespondedIsMirrored` | internal/api/proxy.go:40-62 | on an upstream response the status is passed through unchanged, headers are mirrored with Allow-Origin "*", the bytes written are a prefix of the body (all of it if the client stays connected), and the body is closed |
| `Proxy.CopyErrorKeepsStatusAndHeaders` | internal/api/proxy.go:55-62 | status and headers are the same however the body copy ends |
| `Routes.CorsHeaders` | main.go:22-24 | the three CORS headers have their fixed single values and every other header is unchanged |
| `Routes.Cors` | main.go:21-30 | every request gets those headers; OPTIONS is aborted with 204 and no handler runs; every other method continues with its status untouched |
| `Routes.CorsThenRelay` | main.go:22-24 | on /proxy Allow-Origin stays "*", but upstream's Allow-Methods and Allow-Headers replace the middleware's |
| `Routes.GetQRCodeReply` | main.go:34-41 | HTTP 200 always; the reply is a success iff the service succeeded; it is exactly Success(data) on success and Fail(error text), code 500, on error |
| `Routes.SelectQrKey` | main.go:46-49 | the key is qrcodekey when that is non-empty, otherwise qrcode_key; it is empty iff both are |
| `Routes.QrReply` | main.go:55-69 | HTTP 200; success iff the check completed successfully, and then exactly Success(status); an unsuccessful check keeps the status as data, with code 500 and the status's message; a check error is Fail(error text) |
| `Routes.VerifyQRCode` | main.go:45-70 | with both keys empty the reply is Fail("缺少 qrcodekey 参数") and the service is not called; otherwise it is called once, with qrcodekey if that is non-empty and qrcode_key otherwise, and its answer is mapped by QrReply |
| `Routes.ResolveVideo` | main.go:75-91 | the resolver is called, with (bvid, cid), iff both are non-empty; otherwise Fail("缺少 bvid 或 cid 参数"); a resolver result is exactly Success(data); a resolver error is Fail with the "解析失败: " prefix; HTTP 200 |
| `Routes.MaskSessData` | main.go:114-116 | the shown SessData is at most 13 bytes and starts with the first min(len, 10) bytes; 10 bytes or fewer are unchanged; longer values are cut to 10 bytes followed by "..." |
| `Routes.CookieView` | main.go:108-119 | HTTP 200; an empty SessData gives Fail("暂无 Cookie，请先扫码登录"); otherwise exactly Success of the cookie copy in which only SessData is masked |

## Left out

- WebSocket transport: the upgrader, `CheckOrigin`, buffer sizes, and how `ReadMessage`/`WriteMessage` work inside. Only whether each call succeeds is modelled, as an input.
- Reads on a connection the channel has closed are not forced to fail. Read outcomes are free inputs, so the model admits every schedule the real system admits, and some more.
- The mutex and real concurrency: each `wsLock` critical section is one atomic step, and a run is any sequence of steps.
- The read-loop goroutine's connection is never closed by the handler in the source. The model records only the connections the channel itself closes.
- `json.Marshal` of the progress message: the text it produces, including float formatting. A frame carries the `(fileName, progress)` pair itself.
- Progress.CountedDelivery: a frame is the pair, not its JSON text. For a NaN or ±Inf progress `json.Marshal` fails, its error is ignored (`internal/api/progress.go:86`), and line 89 writes an empty text frame. For such values the lemma's "the i-th frame carries the i-th pair" does not match what goes on the wire.
- `http.NewRequest` URL parsing is an input flag, and `http.DefaultClient.Do` is an input outcome. Neither has a timeout or cancellation, as in the source.
- `io.Copy` internals: its buffer size, its `ReaderFrom`/`WriterTo` fast paths, and a read error part-way through. A mid-body read error is the same as a shorter chunk list followed by a failing read.
- Header-key canonicalisation and the `Content-Type` that gin adds to JSON replies.
- When gin actually sends the status line. The model keeps the last status set.
- `internal/api/video.go` (`DownloadVideoWBI`): a thin wrapper around a service that is not shown.
- The services and the store (`GetQRCode`, `CheckQRCodeStatus`, `ResolveVideoUrl`, `InitStore`, `LoadCookie`): their results are inputs. The error from `LoadCookie` is ignored by the source, so the view reads only the cookie value.
- The cookie's fields other than `SessData` are not shown in the source. They are an opaque map that is copied unchanged.
- gin routing and startup (`gin.Default`, `r.GET`, `r.Run(":9961")`).
- Logging (`log.Println`).

## Findings

| source | as written | input that shows it | evidently intended | confidence | as-written member | corrected member |
|---|---|---|---|---|---|---|
| internal/api/progress.go:59-64 | when a read fails, the handler sets `wsConn = nil` without checking that the slot still holds its own `conn` | subscribe S1, then subscribe S2 (this closes S1), then S1's read fails: the slot is empty and S2 is open; every `SendProgress` is dropped until the next subscribe, and none ever reaches S2; the next subscribe S3 then leaves S2 open, so two connections are open | clear the slot only when `wsConn == conn` | medium, not executed | `Progress.StaleReadLoopClearsNewer`, `Progress.ReplacedNeverWritten`, `Progress.StaleExitOrphansSubscriber` | `Progress.GuardedKeepsSubscriber`, `Progress.GuardedSingleOpenConnection` |

The class keeps the as-written `ReadLoop`, so its behaviour matches the source. `ReadLoopGuarded` is the corrected section. `GuardedKeepsSubscriber`, `GuardedOwnErrorClears`, `GuardedReconnectsKeepLast` and `GuardedSingleOpenConnection` prove its intended property over the state machine run with `guarded = true`.
