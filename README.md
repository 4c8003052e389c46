# A verified model of a minimal HTTP/1.1 client

This project models the request side of `httpclient.py`, a small teaching
HTTP client that writes its own HTTP/1.1 requests over a TCP socket. It
covers:

- `HTTPResponse`, a code and a body that default to 200 and "";
- `HTTPClient.parse_url`, which takes path, hostname and port from the
  result of `urllib.parse.urlparse` and puts port 80 in place of a missing
  or zero port;
- `HTTPClient.construct_payload`, whose GET branch writes the request line,
  a `Host` header and `Connection: close`, each ended by CR LF, then an empty
  line. This is the line framing of RFC 7230 (section 3: lines end with
  CR LF, and an empty line ends the head). The request does not meet every
  rule of that RFC; see the list below;
- `HTTPClient.recvall`, which reads from the socket in pieces of at most
  1024 bytes until a read comes back empty, appending every piece to a
  buffer;
- `HTTPClient.handle_request`, `GET`, `POST` and `command`, which route a
  call and run one connect, send, receive cycle.

Modules:

- `Wrappers` (`wrappers.dfy`): `Option`, for Python's `None`.
- `Text` (`text.dfy`): the CR LF line structure of HTTP text. It gives
  `SplitLines` and `JoinLines`: joining the lines of any text gives it back,
  and splitting joined lines gives them back when no line holds a CR. It also
  gives `BlankLineAt`, the place of a CR LF CR LF.
- `Request` (`request.dfy`): `UrlParts` is the `urlparse` result, taken as
  an input. It also holds `ParseUrl`, `GetPayload`, `ConstructPayload` and
  their lemmas.
- `Transport` (`transport.dfy`): the socket. The peer is a script of byte
  chunks, and an empty chunk or the end of the script means the peer has
  closed. From then on every read returns nothing, so no chunk after the
  first empty one is ever delivered. `ReadToEof` and `AtEof` specify what reading to the end of the
  stream collects and what it leaves behind.
- `Client` (`client.dfy`): `HttpResponse`, `Route`, and the class
  `HttpClient`. The class holds the `socket` field that `connect` replaces.
  `RecvAll` is the `recvall` loop with its invariants.

The model follows the code as written:

- An empty path stays empty, so the request line is `GET  HTTP/1.1`. Section
  5.3.1 of RFC 7230 asks for "/" in that case.
- The `Host` header never carries the port, even when the URL names one;
  section 5.4 of RFC 7230 asks for the URL's host and port.
- The GET request has exactly three lines before the empty line: the request
  line, `Host` and `Connection: close`.
- `handle_request` always sends a GET request, whatever its `type` is. It
  does not parse the reply and never closes the socket. When the URL has a
  hostname and the reply decodes as UTF-8, it answers 500 with an empty body.
- When the URL has no hostname (for example `example.com/x`, which has no
  scheme), `connect` is handed the host None and raises TypeError. Nothing is
  sent. The model reports this as the outcome `Raised(ConnectTypeError)`.
- `POST` does not build a form-encoded request.

When `construct_payload` is called directly with a missing host, it writes
the `Host` header as the text `None`, because that is what `str.format` makes
of Python's `None` (`HostText`). Through `handle_request` this never happens,
because `connect` has already raised.

## Model

| member | source | states |
|---|---|---|
| `Client.DefaultResponse` | httpclient.py:31-34 | an `HttpResponse` made with no arguments has code 200 and an empty body |
| `Request.ParseUrl` | httpclient.py:48-58 | path and host come through unchanged (an empty path stays empty); a present, non-zero port is kept; a missing port or port 0 becomes 80; a port in urlparse's range 0..65535 always gives a usable port 1..65535 |
| `Request.DefaultPortIff` | httpclient.py:55 | the connection goes to port 80 exactly when the parsed port is missing, 0 or 80 |
| `Request.HostText` | httpclient.py:73 | the host field is written as the host name itself, or as `None` when the URL has no host |
| `Request.GetPayload` | httpclient.py:72-73 | the GET request starts with `GET `, ends with CR LF CR LF, is 44 characters longer than path and host together, and holds path and host verbatim at their places |
| `Request.GetPayloadLines` | httpclient.py:73 | when path and host hold no CR, the request splits at CR LF into exactly `GET <path> HTTP/1.1`, `Host: <host>`, `Connection: close`, and two empty strings, one for the empty line that ends the head and one for the nothing after its final CR LF |
| `Request.GetPayloadOneHead` | httpclient.py:73 | when path and host hold no CR, the only CR LF CR LF in the request is the final one, so it is one header block with no body |
| `Request.ConstructPayload` | httpclient.py:64-77 | the command "GET", and only it, gives the GET request for the parsed path and host; "POST", and only it, gives the placeholder; any other command gives nothing |
| `Transport.ReadToEofStopsAtEmpty` | httpclient.py:97-106 | reading to the end of the stream collects exactly the chunks before the first empty chunk, concatenated in order, and stops at that empty chunk, so no chunk after it is ever read |
| `Transport.ReadToEofWithoutEmpty` | httpclient.py:97-106 | a stream with no empty chunk is read whole and nothing is left |
| `Transport.RecvStepKeepsStream` | httpclient.py:101 | one read returns at most 1024 bytes; a non-empty read moves the next bytes of the stream to the reader without losing or reordering any and leaves less to read; an empty read means the stream has ended and leaves it unchanged, so every later read is empty too |
| `Transport.Socket.constructor` | httpclient.py:60-62 | a new socket is connected to the given host and port, has sent nothing, and has the peer's whole stream still to read |
| `Transport.Socket.SendAll` | httpclient.py:90-91 | `sendall` appends the whole text to what was sent and reads nothing |
| `Transport.Socket.Recv` | httpclient.py:101 | `recv(1024)` returns the next piece of the stream and removes it; once the peer has closed it returns nothing and leaves the stream as it is, so it returns nothing on every later call |
| `Client.Route` | httpclient.py:136-140 | `command` takes the POST path exactly when the method string is `"POST"`; every other string, `"post"` and `"PUT"` included, takes the GET path |
| `Client.HttpClient.constructor` | httpclient.py:36 | a new `HTTPClient` has no socket yet (the class has no `__init__`; the field appears with the first `connect`) |
| `Client.HttpClient.Connect` | httpclient.py:60-62 | `connect` puts a new socket for the given host and port in the `socket` field and changes nothing else; it fails (TypeError) exactly when the host is None |
| `Client.HttpClient.RecvAll` | httpclient.py:97-106 | the loop returns every byte sent before the peer closed, in order; it stops exactly at the first empty read and leaves the socket at the end of the stream; the buffer only grows (its invariant keeps it a prefix of the result) |
| `Client.HttpClient.HandleRequest` | httpclient.py:108-120 | one cycle raises TypeError, having sent nothing, exactly when the URL has no hostname; otherwise it connects to the parsed host and port, sends the GET request for the parsed path and host whatever the `type` argument is, reads the reply to its end, and answers code 500 with an empty body (for a reply that decodes as UTF-8) |
| `Client.HttpClient.Get` | httpclient.py:122-127 | `GET` runs one cycle with kind "GET": TypeError for a URL with no hostname, otherwise the GET exchange and 500 with an empty body (for a reply that decodes as UTF-8) |
| `Client.HttpClient.Post` | httpclient.py:129-134 | `POST` runs one cycle with kind "POST", which ends as any cycle does: TypeError for a URL with no hostname, otherwise a GET request is sent and the answer is 500 with an empty body (for a reply that decodes as UTF-8) |
| `Client.HttpClient.Command` | httpclient.py:136-140 | `command` hands the call on with kind "POST" exactly when the method is `"POST"` and with kind "GET" otherwise, including by default; the outcome is the same either way (TypeError for a URL with no hostname, otherwise the GET exchange and 500 with an empty body, for a reply that decodes as UTF-8) |

## Left out

- `urllib.parse.urlparse` is a library call. The model takes its result (path, hostname, port) as the input `UrlParts` and does not model how a URL string is parsed.
- The UTF-8 `encode` in `sendall` and the UTF-8 `decode` at the end of `recvall` are library codec behaviour. The socket records the text that was sent, and `RecvAll` returns the bytes before decoding.
- Client.HttpClient.HandleRequest: the answer 500 with an empty body (for a URL with a hostname) holds only for a reply that decodes as UTF-8. For any other reply, the `decode('utf-8')` at the end of `recvall` raises `UnicodeDecodeError`, so the call raises instead of answering. The model does not decode, so it does not capture that exception.
- Client.HttpClient.Get: answers 500 only for a reply that decodes as UTF-8, as HandleRequest above.
- Client.HttpClient.Post: answers 500 only for a reply that decodes as UTF-8, as HandleRequest above.
- Client.HttpClient.Command: answers 500 only for a reply that decodes as UTF-8, as HandleRequest above.
- Socket failures other than a None host are not modelled: a host that cannot be resolved or reached, a refused connection, and send or receive errors. The peer always answers with its scripted chunks, and a read never blocks.
- `close` is not modelled, because no modelled operation calls it; `handle_request` leaves its socket open.
- `get_code`, `get_headers` and `get_body` are stubs that return `None`, so there is no response parsing to model.
- Request.ConstructPayload: the POST branch is a whitespace-padded placeholder text, not a request. The model marks that branch with the constructor `PostPlaceholder` and does not carry its text.
- The `args` parameter of `handle_request`, `GET`, `POST` and `command` is never read, so the model leaves it out.
- The `print` calls, `help()` and the `__main__` command-line handling are console glue.
- `Client.HttpClient.lastKind` is a ghost observation. It records the `type` argument of the latest `handle_request` call so that the routing of `command` shows in the contracts; it is not program state.
