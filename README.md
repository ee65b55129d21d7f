# jaeger-proxy: buffer-and-flush model

A Dafny model of the core of jaeger-proxy, a small proxy that accepts
Jaeger trace payloads over an authenticated HTTP endpoint, keeps them in an
in-memory queue, and periodically forwards them to a Jaeger collector.

The model covers the path a payload takes through one worker process:

- `Buffer` — the envelope `(data, headers)` and the `collections.deque`
  shared by the HTTP service and the sender (a class over a `seq`, with
  `append`, `popleft`, `list(...)` and `clear`).
- `Rest` — `ping`, and `statistic_receiver`: the Basic-auth decision chain
  (401 for a missing or empty `Authorization` value, 403 for one that does
  not decode, 403 for a wrong password, then 403 for a wrong login), the
  header dictionary over the four-name allow-list, and the append at the
  tail of the queue with a 202 answer. `Receive` is the pure statement of
  what the handler does to the queue; `Api.StatisticReceiver` does it in
  place on the shared deque and is proved equal to it.
- `Forwarder` — the `Sender` service: `send` (nothing for an empty batch,
  otherwise one POST per envelope, recorded in an outbound log),
  `callback` (the drain loop of one tick) and `stop` (snapshot, clear,
  send).
- `Worker` — the single deque built at start-up and handed to both
  services, with two end-to-end statements: a tick sends the whole queue
  whatever the batch size, and an accepted POST is forwarded by the next
  tick with its body and allow-listed headers.

Two behaviours of the code differ from what its names suggest; the model
follows the code:

- The attribute name `bulk_size` and its default of 10000
  (jaeger_proxy/sender.py:16) suggest a cap on the envelopes sent per tick.
  The tick loop's condition is `queue or len(metrics) < bulk_size`, though:
  while the queue is non-empty the loop keeps popping, so `bulk_size` never
  bounds a tick and one tick drains the whole queue. `Sender.Callback`
  proves this, and `TickIgnoresBulkSize` shows a queue longer than the batch
  size is sent in one tick. No "at most `bulk_size` per tick" property is
  claimed.
- The header comprehension filters on `if header`, which tests the header
  name, never empty. Every envelope therefore carries all four allow-listed
  names, with `None` for a header the request lacked, rather than omitting
  absent headers. `BypassHeaders` states exactly this.

`BasicAuth.decode` is a parameter of type `string -> Option<Credentials>`:
`None` stands for the `ValueError` it raises. The network is replaced by
the sender's `outbound` log of `Forwarder.Post(url, data, headers)` records.

## Model

| member | source | states |
|---|---|---|
| `Buffer.Deque.constructor` | jaeger_proxy/main.py:69 | a new deque is empty |
| `Buffer.Deque.IsEmpty` | jaeger_proxy/sender.py:20-25 | the truthiness test of the deque (`not self.queue`, `self.queue`) is false exactly when the deque holds no envelope |
| `Buffer.Deque.Append` | jaeger_proxy/rest.py:60 | the envelope is added at the tail and nothing else changes |
| `Buffer.Deque.PopLeft` | jaeger_proxy/sender.py:27-29 | on a non-empty deque returns the head and removes exactly it; on an empty deque signals absence (the `IndexError`) and changes nothing |
| `Buffer.Deque.Snapshot` | jaeger_proxy/sender.py:36 | `list(queue)` is the current contents in order, head first |
| `Buffer.Deque.Clear` | jaeger_proxy/sender.py:37 | the deque is left empty |
| `Rest.Ping` | jaeger_proxy/rest.py:20-25 | always status 200, content type plain text, and the explicit header map holds exactly `version`, set to the given version |
| `Rest.Authenticate` | jaeger_proxy/rest.py:37-51 | 401 exactly when the `Authorization` value is missing or empty; 202-acceptance exactly when it is present, non-empty and decodes to the configured login and password; 403 in every other case (undecodable, wrong password, wrong login) |
| `Rest.WrongCredentialsForbidden` | jaeger_proxy/rest.py:47-51 | a decoded wrong password gives 403 whatever the login, and a wrong login gives 403 |
| `Rest.BypassHeaders` | jaeger_proxy/rest.py:55-59 | the envelope's header map has exactly the four allow-listed names (never `Authorization`); each maps to the request's value for that name, or to `None` when the request lacks it |
| `Rest.Receive` | jaeger_proxy/rest.py:36-62 | the status is the credential check's; a rejected request leaves the queue unchanged; an accepted one leaves the old queue as a prefix and adds exactly one envelope at the tail, carrying the request body and the `BypassHeaders` map of the request (the four allow-listed names, each with the request's value or `None`) |
| `Rest.Api.constructor` | jaeger_proxy/rest.py:78-84 | the service keeps the configured login, password and the queue it is given |
| `Rest.Api.StatisticReceiver` | jaeger_proxy/rest.py:36-62 | the returned status and the new contents of the shared deque are exactly `Receive` of the old contents |
| `Forwarder.Posts` | jaeger_proxy/sender.py:45-50 | one POST per envelope, as many as the batch holds, the i-th carrying the collector URL and the i-th envelope's data and headers |
| `Forwarder.PostsAppend` | jaeger_proxy/sender.py:45-50 | the POSTs of a concatenated batch are the POSTs of the first part followed by those of the second |
| `Forwarder.Sender.constructor` | jaeger_proxy/sender.py:9-17 | the sender keeps the collector route, the batch size and the shared queue, and has sent nothing |
| `Forwarder.Sender.Send` | jaeger_proxy/sender.py:40-50 | the outbound log grows by exactly the batch's POSTs, in batch order; an empty batch adds nothing |
| `Forwarder.Sender.Callback` | jaeger_proxy/sender.py:19-31 | after a tick the queue is empty and the log grew by the POSTs of the whole pre-tick queue in FIFO order, whatever the batch size; on an empty queue nothing is sent (the loop keeps `metrics + queue == old(queue)`) |
| `Forwarder.Sender.Stop` | jaeger_proxy/sender.py:33-38 | the queue is left empty and the log grew by the POSTs of exactly the old queue, in order |
| `Worker.Worker.constructor` | jaeger_proxy/main.py:69-81 | one fresh empty deque is shared by the HTTP service and the sender; the sender uses the default batch size 10000 |
| `Worker.TickIgnoresBulkSize` | jaeger_proxy/sender.py:16-31 | for any batch size, one tick sends exactly the POSTs of every pending envelope, in order, to the route, and empties the queue; a queue longer than the batch size is sent past it in one tick |
| `Worker.AcceptThenForward` | jaeger_proxy/rest.py:53-62 | a request with the configured credentials gets 202, and the next tick forwards exactly one POST with its body and allow-listed headers |

## Left out

- `jaeger_proxy/main.py` beyond the shared deque: argument parsing, environment clearing, logging, socket binding, privilege drop, forking and the service entrypoint.
- The aiohttp network layer: `ClientSession`, `conn.post`, `asyncio.gather` concurrency and request failures. Each POST is a record appended to the sender's `outbound` log; delivery success or failure is not observable in the code and is not modelled.
- `BasicAuth.decode` internals (base64 decoding, splitting at the colon): the decoder is a parameter.
- Header lookup in aiohttp is case-insensitive; the model keys headers by exact name.
- The `PeriodicService` timer and its float interval, `super().stop()` stopping it, the `print` in `send`, `log.exception`, the `version` module and aiohttp routing and application setup.
- Interleaving across await points: the model treats each handler and each sender method as atomic, but only the individual deque operations and the drain loop itself are free of awaits. `callback` awaits `send` (jaeger_proxy/sender.py:31), `send` awaits `gather` (:45), `stop` awaits `super().stop()` (:34) before the snapshot and `send` (:38) after the clear, and `statistic_receiver` awaits `request.read()` (jaeger_proxy/rest.py:53) between the credential checks and the append. So `Sender.Callback` and `Sender.Stop` promise an empty queue at the moment `send` starts, not when the coroutine returns; an envelope appended during the final `send` of `stop` can stay queued and never be sent, which the model does not capture.
- Rest.Api.StatisticReceiver: returns only the status. The error statuses stand for the raised `HTTPUnauthorized`/`HTTPForbidden` exceptions, whose response bodies are not modelled; the 202 response's `text/plain` content type (jaeger_proxy/rest.py:62) is not modelled; and the body is given up front in `Request.body`, so a failure of `await request.read()` (jaeger_proxy/rest.py:53), which would raise before the append, is not modelled.
