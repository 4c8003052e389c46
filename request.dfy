/**
 * The request side of HTTPClient: choosing the connection fields out of a
 * parsed URL (`parse_url`) and writing the request text (`construct_payload`).
 * The request is a request line, a Host line and `Connection: close`, each
 * ended by CR LF, then an empty line: the line framing of RFC 7230
 * (section 3). An empty path is written as is and the Host line never holds
 * the port, so the request does not meet sections 5.3.1 and 5.4 of RFC 7230.
 */
module Request {

  import opened Wrappers
  import opened Text

  /**
   * The three attributes of `urllib.parse.urlparse(url)` that `parse_url`
   * reads. `hostname` is None when the URL has no network location; `port`
   * is None when the URL names no port.
   */
  datatype UrlParts = UrlParts(path: string, hostname: Option<string>, port: Option<int>)

  /** The `url_info` dict that `parse_url` returns. */
  datatype UrlInfo = UrlInfo(path: string, host: Option<string>, port: int)

  const DefaultPort: int := 80

  /** urlparse only reports a port in the TCP range 0..65535 (it raises otherwise). */
  predicate PortInRange(port: Option<int>)
  {
    port.None? || 0 <= port.value <= 65535
  }

  /**
   * parse_url: path and host are taken as parsed, and the port is the parsed
   * one when it is present and truthy, 80 otherwise (so a parsed port 0 also
   * becomes 80).
   */
  function ParseUrl(parts: UrlParts): (info: UrlInfo)
    ensures info.path == parts.path && info.host == parts.hostname
    ensures parts.port.Some? && parts.port.value != 0 ==> info.port == parts.port.value
    ensures parts.port.None? || parts.port == Some(0) ==> info.port == DefaultPort
    ensures PortInRange(parts.port) ==> 1 <= info.port <= 65535
  {
    UrlInfo(parts.path, parts.hostname,
            if parts.port.Some? && parts.port.value != 0 then parts.port.value else DefaultPort)
  }

  /** The connection goes to port 80 exactly when no port, port 0 or port 80 was parsed. */
  lemma DefaultPortIff(parts: UrlParts)
    ensures ParseUrl(parts).port == DefaultPort
        <==> parts.port in {None, Some(0), Some(DefaultPort)}
  {
  }

  /** What `str.format` writes for the host field: the name itself, or "None" when absent. */
  function HostText(host: Option<string>): (text: string)
    ensures host.Some? ==> text == host.value
    ensures host.None? ==> text == "None"
  {
    match host
    case Some(h) => h
    case None => "None"
  }

  /**
   * The GET request text for `path` and `host`, both inserted verbatim, with
   * no escaping and no check.
   */
  function GetPayload(path: string, host: string): (r: string)
    ensures |r| == |path| + |host| + 44
    ensures r[..4] == "GET " && r[|r| - 4..] == BlankLine
    ensures r[4..4 + |path|] == path
    ensures r[|path| + 21..|path| + 21 + |host|] == host
  {
    "GET " + path + " HTTP/1.1" + CRLF + "Host: " + host + CRLF + "Connection: close" + CRLF + CRLF
  }

  /** The GET payload as its request line, CR LF, and what follows that line. */
  lemma GetPayloadParts(path: string, host: string)
    ensures GetPayload(path, host)
         == ("GET " + path + " HTTP/1.1") + CRLF + (("Host: " + host) + CRLF + ("Connection: close" + CRLF + CRLF))
  {
  }

  /** The lines of the GET request line, the header lines and the empty line. */
  function GetHeadLines(path: string, host: string): seq<string>
  {
    ["GET " + path + " HTTP/1.1", "Host: " + host, "Connection: close", "", ""]
  }

  /**
   * When path and host hold no CR, splitting the GET payload at CR LF gives
   * exactly the request line, the Host line, the Connection line and the
   * empty line that ends the head.
   */
  lemma GetPayloadLines(path: string, host: string)
    requires NoCr(path) && NoCr(host)
    ensures SplitLines(GetPayload(path, host)) == GetHeadLines(path, host)
  {
    var requestLine := "GET " + path + " HTTP/1.1";
    var hostLine := "Host: " + host;
    var lines := GetHeadLines(path, host);
    NoCrAppend("GET " + path, " HTTP/1.1");
    NoCrAppend("GET ", path);
    NoCrAppend("Host: ", host);
    assert NoCr(lines[0]) && NoCr(lines[1]) && NoCr(lines[2]);
    var last2 := ["", ""];
    var last3 := ["Connection: close"] + last2;
    var last4 := [hostLine] + last3;
    assert lines == [requestLine] + last4;
    assert JoinLines(last2) == CRLF by {
      assert last2[1..] == [""];
    }
    assert JoinLines(last3) == "Connection: close" + CRLF + CRLF by {
      assert last3[1..] == last2;
    }
    assert JoinLines(last4) == hostLine + CRLF + JoinLines(last3) by {
      assert last4[1..] == last3;
    }
    assert JoinLines(lines) == requestLine + CRLF + JoinLines(last4) by {
      assert lines[1..] == last4;
    }
    assert JoinLines(lines) == GetPayload(path, host);
    assert forall k :: 0 <= k < |lines| ==> NoCr(lines[k]) by {
      assert NoCr(lines[3]) && NoCr(lines[4]);
    }
    SplitJoinLines(lines);
  }

  /**
   * When path and host hold no CR, the GET payload is one request head and
   * nothing more: its only CR LF CR LF is the one that ends it.
   */
  lemma GetPayloadOneHead(path: string, host: string)
    requires NoCr(path) && NoCr(host)
    ensures forall i :: BlankLineAt(GetPayload(path, host), i) <==> i == |GetPayload(path, host)| - 4
  {
    var p := GetPayload(path, host);
    var requestLine := "GET " + path + " HTTP/1.1";
    var hostLine := "Host: " + host;
    var connection := "Connection: close";
    var afterConnection := CRLF;
    var afterHost := connection + CRLF + afterConnection;
    var afterRequest := hostLine + CRLF + afterHost;
    NoCrAppend("GET " + path, " HTTP/1.1");
    NoCrAppend("GET ", path);
    NoCrAppend("Host: ", host);
    GetPayloadParts(path, host);
    forall i | BlankLineAt(p, i) ensures i == |p| - 4 {
      BlankLineAfterLine(requestLine, afterRequest, i);
      assert afterRequest[0] == 'H';
      var j := i - |requestLine| - 2;
      BlankLineAfterLine(hostLine, afterHost, j);
      assert afterHost[0] == 'C';
      var k := j - |hostLine| - 2;
      BlankLineAfterLine(connection, afterConnection, k);
    }
    assert BlankLineAt(p, |p| - 4);
  }

  /** The request text `construct_payload` returns, by command. */
  datatype Payload =
    | Request(text: string)  // command "GET"
    | PostPlaceholder        // command "POST": a fixed placeholder, not a request
    | NoPayload              // any other command: the function returns None

  /**
   * construct_payload: "GET" gives the GET request for the path and host of
   * `info`, "POST" gives the placeholder, anything else gives nothing.
   */
  function ConstructPayload(info: UrlInfo, command: string): (r: Payload)
    ensures r.Request? <==> command == "GET"
    ensures r.PostPlaceholder? <==> command == "POST"
    ensures r.Request? ==> r.text == GetPayload(info.path, HostText(info.host))
  {
    if command == "GET" then Request(GetPayload(info.path, HostText(info.host)))
    else if command == "POST" then PostPlaceholder
    else NoPayload
  }
}
