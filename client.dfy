/**
 * HTTPResponse and HTTPClient: one request/response cycle per call, reached
 * through `GET`, `POST` or `command`.
 */
module Client {

  import opened Wrappers
  import opened Request
  import opened Transport

  /** HTTPResponse: a status code and a body, 200 and "" unless given. */
  datatype HttpResponse = HttpResponse(code: int := 200, body: string := "")

  /** A response made with no arguments is a 200 with an empty body. */
  lemma DefaultResponse()
    ensures HttpResponse().code == 200 && HttpResponse().body == ""
  {
  }

  /** The exceptions a request cycle can raise in this model. */
  datatype ClientError =
    | ConnectTypeError  // `connect((None, port))`: the URL had no hostname

  /** How a call ends: it returns a response or raises. */
  datatype Outcome = Answered(response: HttpResponse) | Raised(error: ClientError)

  /** The entry point `command` hands a request to. */
  datatype Verb = Get | Post

  /** `command` takes the POST path only for the exact, upper-case string "POST". */
  function Route(command: string): (verb: Verb)
    ensures verb == Post <==> command == "POST"
  {
    if command == "POST" then Post else Get
  }

  class HttpClient {
    /** The socket of the latest request; there is none before the first one. */
    var socket: Socket?
    /** The `type` argument of the latest `handle_request` call (an observation, not program state). */
    ghost var lastKind: string

    constructor ()
      ensures socket == null && lastKind == ""
    {
      socket := null;
      lastKind := "";
    }

    /**
     * The state one request cycle for the URL `parts` leaves behind: the
     * socket went to the parsed host and port, carried the GET request for
     * the parsed path and host, and was read up to the peer's end of stream.
     */
    ghost predicate Exchanged(parts: UrlParts, peer: seq<Bytes>)
      reads this, socket
    {
      var info := ParseUrl(parts);
      socket != null
      && socket.host == info.host && socket.port == info.port
      && socket.sent == GetPayload(info.path, HostText(info.host))
      && socket.incoming == AtEof(peer)
    }

    /**
     * `connect`: a new socket replaces the field, then connects to
     * (host, port). Connecting to a host of None raises TypeError, reported
     * here as `connected == false`; the new socket stays in the field unused.
     */
    method Connect(host: Option<string>, port: int, peer: seq<Bytes>) returns (connected: bool)
      modifies this`socket
      ensures fresh(socket)
      ensures socket.host == host && socket.port == port
      ensures socket.sent == [] && socket.incoming == peer
      ensures connected <==> host.Some?
    {
      socket := new Socket(host, port, peer);
      connected := host.Some?;
    }

    /**
     * `recvall`: reads until a read comes back empty, appending each piece
     * to the buffer. The result is every byte the peer sent before closing,
     * in order, and the socket is left at the end of the stream.
     */
    method RecvAll(sock: Socket) returns (data: Bytes)
      modifies sock
      ensures data == ReadToEof(old(sock.incoming))
      ensures sock.incoming == AtEof(old(sock.incoming))
      ensures sock.sent == old(sock.sent)
    {
      var buffer: Bytes := [];
      var done := false;
      while !done
        invariant sock.sent == old(sock.sent)
        invariant !done ==> buffer + ReadToEof(sock.incoming) == ReadToEof(old(sock.incoming))
        invariant !done ==> AtEof(sock.incoming) == AtEof(old(sock.incoming))
        invariant done ==> buffer == ReadToEof(old(sock.incoming))
        invariant done ==> sock.incoming == AtEof(old(sock.incoming))
        decreases !done, Pending(sock.incoming)
      {
        RecvStepKeepsStream(sock.incoming);
        var part := sock.Recv();
        if part != [] {
          buffer := buffer + part;
        } else {
          done := part == [];
        }
      }
      data := buffer;
    }

    /**
     * How one request cycle for the URL `parts` ends. A URL without a
     * hostname raises TypeError in `connect`, before anything is sent. Any
     * other URL leads to the exchange above and the answer 500 with an empty
     * body.
     */
    ghost predicate Finished(parts: UrlParts, peer: seq<Bytes>, r: Outcome)
      reads this, socket
    {
      socket != null
      && (r.Raised? <==> parts.hostname.None?)
      && (r.Raised? ==> r.error == ConnectTypeError && socket.sent == [] && socket.incoming == peer)
      && (r.Answered? ==> r.response.code == 500 && r.response.body == "" && Exchanged(parts, peer))
    }

    /**
     * `handle_request`: connects to the parsed host and port, sends the GET
     * request whatever `kind` says, reads the whole reply and answers 500
     * with an empty body. The reply is not looked at and the socket stays open.
     */
    method HandleRequest(kind: string, parts: UrlParts, peer: seq<Bytes>) returns (r: Outcome)
      modifies this
      ensures fresh(socket) && Finished(parts, peer, r)
      ensures lastKind == kind
    {
      lastKind := kind;
      var info := ParseUrl(parts);
      var connected := Connect(info.host, info.port, peer);
      if !connected {
        return Raised(ConnectTypeError);
      }
      var payload := ConstructPayload(info, "GET");
      socket.SendAll(payload.text);
      var data := RecvAll(socket);
      r := Answered(HttpResponse(500, ""));
    }

    /** `GET`: a request cycle of kind "GET". */
    method Get(parts: UrlParts, peer: seq<Bytes>) returns (r: Outcome)
      modifies this
      ensures fresh(socket) && Finished(parts, peer, r)
      ensures lastKind == "GET"
    {
      r := HandleRequest("GET", parts, peer);
    }

    /** `POST`: a request cycle of kind "POST", which still sends a GET request. */
    method Post(parts: UrlParts, peer: seq<Bytes>) returns (r: Outcome)
      modifies this
      ensures fresh(socket) && Finished(parts, peer, r)
      ensures lastKind == "POST"
    {
      r := HandleRequest("POST", parts, peer);
    }

    /** `command`: "POST" goes to Post, every other string (and the default) to Get. */
    method Command(parts: UrlParts, peer: seq<Bytes>, command: string := "GET") returns (r: Outcome)
      modifies this
      ensures fresh(socket) && Finished(parts, peer, r)
      ensures lastKind == (if command == "POST" then "POST" else "GET")
    {
      if Route(command).Post? {
        r := Post(parts, peer);
      } else {
        r := Get(parts, peer);
      }
    }
  }
}
