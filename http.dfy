/**
 * The HTTP CONNECT dialer: it dials the proxy through a forward dialer,
 * arms a handshake deadline, writes a `CONNECT <target> HTTP/1.1` request
 * (section 9.3.6 of RFC 9110), optionally with Basic credentials
 * (section 2 of RFC 7617), and hands the connection back as a tunnel only
 * when the proxy answers with status 200.
 *
 * Sockets are objects whose effects are recorded: each connection keeps
 * the sequence of operations performed on it, and its write and read
 * outcomes are fixed when it is created, so every branch of the handshake
 * has a stated post-state.
 */
module Proxy {
  import opened Results
  import Base64

  type byte = Base64.byte

  /** `time.Duration`: a signed count of nanoseconds. */
  type Duration = int

  const Second: Duration := 1_000_000_000

  /**
   * Initial value of the exported package variable `ConnectTimeout`, the
   * handshake timeout used when the options give none. Importers may
   * reassign the variable, so the dial methods take its current value as
   * the parameter `connectTimeout`.
   */
  const DefaultConnectTimeout: Duration := 5 * Second

  const StatusOK: int := 200

  /** The byte of `:` between user name and password. */
  const Colon: byte := 58

  /** The errors a dial can end with. */
  datatype Error =
    | UnsupportedNetwork(network: string)  // any network but "tcp"
    | Io(reason: string)                   // an error of the forward dialer or the socket, passed on unchanged
    | ProxyStatus(status: string)          // a reply other than 200, carrying its status text

  /** The text of each error, as `err.Error()` gives it. */
  function ErrorText(e: Error): (text: string)
    ensures e.UnsupportedNetwork? ==> text == "http proxy: " + e.network + " unsupported"
    ensures e.ProxyStatus? ==> text == e.status
  {
    match e
    case UnsupportedNetwork(n) => "http proxy: " + n + " unsupported"
    case Io(reason) => reason
    case ProxyStatus(s) => s
  }

  /** `url.Userinfo`: a user name and a password that may be unset. */
  datatype Userinfo = Userinfo(username: seq<byte>, password: Option<seq<byte>>)

  /** `user.Password()` with its "is set" flag dropped: an unset password reads as empty. */
  function Password(u: Userinfo): (p: seq<byte>)
    ensures u.password.None? ==> p == []
    ensures u.password.Some? ==> p == u.password.value
  {
    match u.password
    case None => []
    case Some(p) => p
  }

  datatype HTTPOptions = HTTPOptions(userAgent: string, user: Option<Userinfo>, timeout: Duration)

  /** The options of a dialer built for an `http://` proxy URL: only its credentials are taken. */
  function URLOptions(user: Option<Userinfo>): (o: HTTPOptions)
    ensures o.user == user && o.userAgent == "" && o.timeout == 0
  {
    HTTPOptions("", user, 0)
  }

  /** A URL with only its host set (the authority form of a request target). */
  datatype Url = Url(host: string)

  /** The request fields the dialer sets; each header name has the one value its last `Set` gave it. */
  datatype Request = Request(
    verb: string, url: Url, host: string,
    protoMajor: nat, protoMinor: nat,
    header: map<string, string>)

  datatype Response = Response(statusCode: int, status: string)

  /** A connection deadline, relative to the moment it was set. */
  datatype Deadline = NoDeadline | Expires(after: Duration)

  /** One operation performed on a connection. */
  datatype Event = SetDeadline(d: Deadline) | WroteRequest(req: Request) | ReadReply | Closed

  /**
   * The handshake deadline: the configured timeout when positive, otherwise
   * the package's `ConnectTimeout`. It is positive exactly when one of the
   * two is; a non-positive one arms a deadline that has already passed.
   */
  function EffectiveTimeout(timeout: Duration, connectTimeout: Duration): (t: Duration)
    ensures timeout > 0 ==> t == timeout
    ensures timeout <= 0 ==> t == connectTimeout
    ensures t > 0 <==> timeout > 0 || connectTimeout > 0
  {
    if timeout <= 0 then connectTimeout else timeout
  }

  /** The User-Agent sent: the configured one when not empty, else the tool's name and build. */
  function UserAgent(options: HTTPOptions, versionWithDate: string): (ua: string)
    ensures options.userAgent != "" ==> ua == options.userAgent
    ensures options.userAgent == "" ==> ua == "tcp-proxy/" + versionWithDate
  {
    if options.userAgent != "" then options.userAgent else "tcp-proxy/" + versionWithDate
  }

  /** The Proxy-Authorization value: "Basic " and the base64 of `user ":" password`. */
  function BasicAuthorization(u: Userinfo): (value: string)
    ensures |value| >= 6 && value[..6] == "Basic "
  {
    "Basic " + Base64.Encode(u.username + [Colon] + Password(u))
  }

  /** The request the dialer writes to the proxy to reach `addr`. */
  function ConnectRequest(options: HTTPOptions, addr: string, versionWithDate: string): (req: Request)
    ensures req.verb == "CONNECT" && req.url == Url(addr) && req.host == addr
    ensures req.protoMajor == 1 && req.protoMinor == 1
  {
    var header := map["User-Agent" := UserAgent(options, versionWithDate), "Proxy-Connection" := "keep-alive"];
    Request("CONNECT", Url(addr), addr, 1, 1,
      if options.user.Some? then header["Proxy-Authorization" := BasicAuthorization(options.user.value)] else header)
  }

  /** How the handshake ends once the request was written (or not) and the reply read (or not). */
  function HandshakeError(writeResult: Option<Error>, reply: Result<Response, Error>): (err: Option<Error>)
  {
    if writeResult.Some? then writeResult
    else if reply.Err? then Some(reply.error)
    else if reply.value.statusCode != StatusOK then Some(ProxyStatus(reply.value.status))
    else None
  }

  /** The operations the handshake performs on the proxy connection, in order. */
  function HandshakeEvents(timeout: Duration, req: Request, writeResult: Option<Error>): (events: seq<Event>)
  {
    [SetDeadline(Expires(timeout)), WroteRequest(req)]
      + (if writeResult.None? then [ReadReply] else [])
      + [SetDeadline(NoDeadline)]
  }

  /** The tunnel is accepted exactly when the write and the read succeed and the status is 200; any other status is refused with its text. */
  lemma HandshakeAcceptsOnly200(writeResult: Option<Error>, reply: Result<Response, Error>)
    ensures HandshakeError(writeResult, reply).None? <==>
              writeResult.None? && reply.Ok? && reply.value.statusCode == StatusOK
    ensures writeResult.Some? ==> HandshakeError(writeResult, reply) == writeResult
    ensures writeResult.None? && reply.Err? ==> HandshakeError(writeResult, reply) == Some(reply.error)
    ensures writeResult.None? && reply.Ok? && reply.value.statusCode != StatusOK ==>
              HandshakeError(writeResult, reply) == Some(ProxyStatus(reply.value.status))
  {
  }

  /** The deadline is armed first, before the request is written, and cleared last, on every path. */
  lemma DeadlineDiscipline(timeout: Duration, req: Request, writeResult: Option<Error>)
    ensures var e := HandshakeEvents(timeout, req, writeResult);
            e[0] == SetDeadline(Expires(timeout)) && e[1] == WroteRequest(req) &&
            e[|e| - 1] == SetDeadline(NoDeadline) &&
            forall i :: 0 < i < |e| - 1 ==> !e[i].SetDeadline? && !e[i].Closed?
  {
  }

  /** The request's fixed fields and headers. */
  lemma ConnectRequestHeaders(options: HTTPOptions, addr: string, versionWithDate: string)
    ensures var h := ConnectRequest(options, addr, versionWithDate).header;
            "User-Agent" in h && h["User-Agent"] == UserAgent(options, versionWithDate) &&
            "Proxy-Connection" in h && h["Proxy-Connection"] == "keep-alive" &&
            ("Proxy-Authorization" in h <==> options.user.Some?) &&
            (options.user.Some? ==> h["Proxy-Authorization"] == BasicAuthorization(options.user.value)) &&
            h.Keys <= {"User-Agent", "Proxy-Connection", "Proxy-Authorization"}
  {
  }

  /** First position of `x` in `s`, if any. */
  function FirstIndex(s: seq<byte>, x: byte): (r: Option<nat>)
    ensures r.Some? ==> r.value < |s| && s[r.value] == x && x !in s[..r.value]
    ensures r.None? ==> x !in s
  {
    if s == [] then None
    else if s[0] == x then Some(0)
    else match FirstIndex(s[1..], x)
      case None => None
      case Some(i) => Some(i + 1)
  }

  /**
   * How a proxy reads a Basic Proxy-Authorization value: the scheme, then
   * the base64 of the user name and the password, split at the first colon.
   */
  function ParseBasic(value: string): (r: Option<(seq<byte>, seq<byte>)>)
  {
    if |value| < 6 || value[..6] != "Basic " then None
    else match Base64.Decode(value[6..])
      case None => None
      case Some(b) =>
        match FirstIndex(b, Colon)
        case None => None
        case Some(i) => Some((b[..i], b[i + 1..]))
  }

  /** A proxy recovers the credentials from the header, provided the user name holds no colon (as section 2 of RFC 7617 requires). */
  lemma BasicAuthorizationRoundTrip(u: Userinfo)
    requires Colon !in u.username
    ensures ParseBasic(BasicAuthorization(u)) == Some((u.username, Password(u)))
  {
    var plain := u.username + [Colon] + Password(u);
    var value := BasicAuthorization(u);
    assert value[6..] == Base64.Encode(plain);
    Base64.DecodeEncode(plain);
    var i := |u.username|;
    assert plain[i] == Colon && plain[..i] == u.username && plain[i + 1..] == Password(u);
    assert FirstIndex(plain, Colon) == Some(i);
  }

  /**
   * A user name with a colon is read back differently: the proxy splits at
   * the first colon, which lies inside the user name, so the header is
   * ambiguous for it.
   */
  lemma ColonInUserIsMisread(u: Userinfo)
    requires Colon in u.username
    ensures ParseBasic(BasicAuthorization(u)) != Some((u.username, Password(u)))
  {
  }

  /** The credentials of the options travel in the request's Proxy-Authorization header. */
  lemma ConnectRequestCarriesCredentials(options: HTTPOptions, addr: string, versionWithDate: string)
    requires options.user.Some? && Colon !in options.user.value.username
    ensures var h := ConnectRequest(options, addr, versionWithDate).header;
            "Proxy-Authorization" in h &&
            ParseBasic(h["Proxy-Authorization"]) == Some((options.user.value.username, Password(options.user.value)))
  {
    BasicAuthorizationRoundTrip(options.user.value);
  }

  /**
   * A dialer built from an `http://` URL uses the package's `ConnectTimeout`
   * (5 s unless reassigned) and the default User-Agent.
   */
  lemma URLOptionsDefaults(user: Option<Userinfo>, addr: string, versionWithDate: string, connectTimeout: Duration)
    ensures EffectiveTimeout(URLOptions(user).timeout, connectTimeout) == connectTimeout
    ensures EffectiveTimeout(URLOptions(user).timeout, DefaultConnectTimeout) == 5 * Second
    ensures ConnectRequest(URLOptions(user), addr, versionWithDate).header["User-Agent"] == "tcp-proxy/" + versionWithDate
  {
  }

  /**
   * A socket to the proxy. What writing to it and reading from it yield is
   * fixed at creation; every operation performed on it is recorded.
   */
  class Conn {
    var open: bool
    var deadline: Deadline
    var events: seq<Event>
    const writeResult: Option<Error>
    const reply: Result<Response, Error>

    constructor (writeResult: Option<Error>, reply: Result<Response, Error>)
      ensures open && deadline == NoDeadline && events == []
      ensures this.writeResult == writeResult && this.reply == reply
    {
      open := true;
      deadline := NoDeadline;
      events := [];
      this.writeResult := writeResult;
      this.reply := reply;
    }

    method SetDeadline(d: Deadline)
      modifies this`deadline, this`events
      ensures deadline == d && events == old(events) + [Event.SetDeadline(d)]
    {
      deadline := d;
      events := events + [Event.SetDeadline(d)];
    }

    /** `req.Write(conn)`: serialises the request onto the socket. */
    method Write(req: Request) returns (err: Option<Error>)
      modifies this`events
      ensures err == writeResult && events == old(events) + [WroteRequest(req)]
    {
      err := writeResult;
      events := events + [WroteRequest(req)];
    }

    /** `http.ReadResponse`: reads and parses the proxy's reply. */
    method ReadResponse() returns (r: Result<Response, Error>)
      modifies this`events
      ensures r == reply && events == old(events) + [ReadReply]
    {
      r := reply;
      events := events + [ReadReply];
    }

    method Close()
      modifies this`open, this`events
      ensures !open && events == old(events) + [Closed]
    {
      open := false;
      events := events + [Closed];
    }
  }

  /**
   * Calls `Close` through a `net.Conn` interface value. On a nil interface
   * the call does not close anything: it is a run-time panic.
   */
  method CloseInterface(c: Conn?) returns (panicked: bool)
    modifies c
    ensures panicked <==> c == null
    ensures c != null ==> !c.open && c.events == old(c.events) + [Closed] && c.deadline == old(c.deadline)
  {
    if c == null {
      return true;
    }
    c.Close();
    return false;
  }

  /** What the forward dialer will do when asked: connect, or fail with an error. */
  datatype DialOutcome = Connected(conn: Conn) | Refused(err: Error) {
    /** The connection this outcome can hand out. */
    function Conns(): set<Conn> {
      if Connected? then {conn} else {}
    }
  }

  /** A forward dialer asked for a (network, address) pair. */
  datatype DialRequest = DialRequest(network: string, address: string)

  /** The dialer the HTTP dialer reaches the proxy through; it records what it is asked for. */
  class ForwardDialer {
    var requests: seq<DialRequest>
    const outcome: DialOutcome

    constructor (outcome: DialOutcome)
      ensures requests == [] && this.outcome == outcome
    {
      requests := [];
      this.outcome := outcome;
    }

    method DialContext(network: string, address: string) returns (conn: Conn?, err: Option<Error>)
      modifies this`requests
      ensures requests == old(requests) + [DialRequest(network, address)]
      ensures outcome.Connected? ==> conn == outcome.conn && err.None?
      ensures outcome.Refused? ==> conn == null && err == Some(outcome.err)
    {
      requests := requests + [DialRequest(network, address)];
      if outcome.Connected? {
        conn, err := outcome.conn, None;
      } else {
        conn, err := null, Some(outcome.err);
      }
    }
  }

  /** The HTTP CONNECT dialer: the proxy's address, the way to reach it and the options. */
  class HTTPDialer {
    const forward: ForwardDialer
    const address: string
    const options: HTTPOptions

    /** `NewHTTPDialer(addr, forward, options)`. */
    constructor (addr: string, forward: ForwardDialer, options: HTTPOptions)
      ensures this.address == addr && this.forward == forward && this.options == options
    {
      this.address := addr;
      this.forward := forward;
      this.options := options;
    }

    /** The CONNECT request for `addr`, its header filled by successive `Set` calls. */
    method BuildRequest(addr: string, versionWithDate: string) returns (req: Request)
      ensures req == ConnectRequest(options, addr, versionWithDate)
    {
      var header: map<string, string> := map[];
      var userAgent := "tcp-proxy/" + versionWithDate;
      if options.userAgent != "" {
        userAgent := options.userAgent;
      }
      header := header["User-Agent" := userAgent];
      header := header["Proxy-Connection" := "keep-alive"];
      if options.user.Some? {
        var u := options.user.value.username;
        var p := Password(options.user.value);
        header := header["Proxy-Authorization" := "Basic " + Base64.Encode(u + [Colon] + p)];
      }
      req := Request("CONNECT", Url(addr), addr, 1, 1, header);
    }

    /**
     * The handshake on the freshly dialed proxy connection `c`: arm the
     * deadline, write the CONNECT request, read the reply and check its
     * status; the deferred reset clears the deadline on every exit.
     */
    method Handshake(c: Conn, addr: string, versionWithDate: string, connectTimeout: Duration) returns (err: Option<Error>)
      modifies c`deadline, c`events
      ensures err == HandshakeError(c.writeResult, c.reply)
      ensures c.deadline == NoDeadline
      ensures c.events == old(c.events) +
                HandshakeEvents(EffectiveTimeout(options.timeout, connectTimeout), ConnectRequest(options, addr, versionWithDate), c.writeResult)
    {
      var timeout := options.timeout;
      if timeout <= 0 {
        timeout := connectTimeout;
      }
      c.SetDeadline(Expires(timeout));
      var req := BuildRequest(addr, versionWithDate);
      err := c.Write(req);
      if err.None? {
        var resp := c.ReadResponse();
        if resp.Err? {
          err := Some(resp.error);
        } else if resp.value.statusCode != StatusOK {
          err := Some(ProxyStatus(resp.value.status));
        }
      }
      // deferred: the receiver was captured when the defer was registered
      c.SetDeadline(NoDeadline);
    }

    /**
     * `DialContext` as the source writes it. Every failing return after the
     * forward dial is `return nil, err`, which sets the named result `conn`
     * to nil before the deferred closure runs; that closure then calls
     * `Close` on the nil interface. So a failed handshake panics and the
     * proxy connection is never closed (`panicked` is that panic).
     */
    method DialContextAsWritten(network: string, addr: string, versionWithDate: string, connectTimeout: Duration)
      returns (conn: Conn?, err: Option<Error>, panicked: bool)
      modifies forward`requests, forward.outcome.Conns()
      ensures network != "tcp" ==>
                conn == null && err == Some(UnsupportedNetwork(network)) && !panicked &&
                forward.requests == old(forward.requests)
      ensures network != "tcp" && forward.outcome.Connected? ==> unchanged(forward.outcome.conn)
      ensures network == "tcp" ==> forward.requests == old(forward.requests) + [DialRequest("tcp", address)]
      ensures network == "tcp" && forward.outcome.Refused? ==>
                conn == null && err == Some(forward.outcome.err) && !panicked
      ensures network == "tcp" && forward.outcome.Connected? ==>
                var c := forward.outcome.conn;
                var e := HandshakeError(c.writeResult, c.reply);
                err == e && conn == (if e.None? then c else null) &&
                panicked == e.Some? &&
                c.open == old(c.open) && c.deadline == NoDeadline &&
                c.events == old(c.events) +
                  HandshakeEvents(EffectiveTimeout(options.timeout, connectTimeout), ConnectRequest(options, addr, versionWithDate), c.writeResult)
    {
      panicked := false;
      if network != "tcp" {
        return null, Some(UnsupportedNetwork(network)), false;
      }
      conn, err := forward.DialContext(network, address);
      if err.Some? {
        return;
      }
      var c := conn;
      err := Handshake(c, addr, versionWithDate, connectTimeout);
      if err.Some? {
        conn := null;  // `return nil, err`
      }
      // deferred: `if err != nil { conn.Close() }`, on the named result
      if err.Some? {
        panicked := CloseInterface(conn);
      }
    }

    /**
     * `DialContext` with the close on error applied to the dialed proxy
     * connection, as the deferred closure intends: every failure after the
     * forward dial leaves the proxy connection closed with its deadline
     * cleared, and success hands back the very connection that was dialed.
     */
    method DialContext(network: string, addr: string, versionWithDate: string, connectTimeout: Duration)
      returns (conn: Conn?, err: Option<Error>)
      modifies forward`requests, forward.outcome.Conns()
      ensures network != "tcp" ==>
                conn == null && err == Some(UnsupportedNetwork(network)) &&
                forward.requests == old(forward.requests)
      ensures network != "tcp" && forward.outcome.Connected? ==> unchanged(forward.outcome.conn)
      ensures network == "tcp" ==> forward.requests == old(forward.requests) + [DialRequest("tcp", address)]
      ensures network == "tcp" && forward.outcome.Refused? ==>
                conn == null && err == Some(forward.outcome.err)
      ensures network == "tcp" && forward.outcome.Connected? ==>
                var c := forward.outcome.conn;
                var e := HandshakeError(c.writeResult, c.reply);
                err == e && conn == (if e.None? then c else null) &&
                c.open == (old(c.open) && e.None?) && c.deadline == NoDeadline &&
                c.events == old(c.events) +
                  HandshakeEvents(EffectiveTimeout(options.timeout, connectTimeout), ConnectRequest(options, addr, versionWithDate), c.writeResult) +
                  (if e.Some? then [Closed] else [])
    {
      if network != "tcp" {
        return null, Some(UnsupportedNetwork(network));
      }
      conn, err := forward.DialContext(network, address);
      if err.Some? {
        return;
      }
      var c := conn;
      err := Handshake(c, addr, versionWithDate, connectTimeout);
      if err.Some? {
        conn := null;
        c.Close();
      }
    }

    /**
     * `Dial` as the source writes it: `DialContext` as written, with a
     * background context. A failed handshake panics and leaves the proxy
     * connection open.
     */
    method DialAsWritten(network: string, addr: string, versionWithDate: string, connectTimeout: Duration)
      returns (conn: Conn?, err: Option<Error>, panicked: bool)
      modifies forward`requests, forward.outcome.Conns()
      ensures network != "tcp" ==>
                conn == null && err == Some(UnsupportedNetwork(network)) && !panicked &&
                forward.requests == old(forward.requests)
      ensures network != "tcp" && forward.outcome.Connected? ==> unchanged(forward.outcome.conn)
      ensures network == "tcp" ==> forward.requests == old(forward.requests) + [DialRequest("tcp", address)]
      ensures network == "tcp" && forward.outcome.Refused? ==>
                conn == null && err == Some(forward.outcome.err) && !panicked
      ensures network == "tcp" && forward.outcome.Connected? ==>
                var c := forward.outcome.conn;
                var e := HandshakeError(c.writeResult, c.reply);
                (err.None? <==> c.reply.Ok? && c.reply.value.statusCode == StatusOK && c.writeResult.None?) &&
                err == e && conn == (if e.None? then c else null) &&
                panicked == e.Some? &&
                c.open == old(c.open) && c.deadline == NoDeadline &&
                c.events == old(c.events) +
                  HandshakeEvents(EffectiveTimeout(options.timeout, connectTimeout), ConnectRequest(options, addr, versionWithDate), c.writeResult)
    {
      conn, err, panicked := DialContextAsWritten(network, addr, versionWithDate, connectTimeout);
      if network == "tcp" && forward.outcome.Connected? {
        HandshakeAcceptsOnly200(forward.outcome.conn.writeResult, forward.outcome.conn.reply);
      }
    }

    /**
     * `Dial` over the corrected `DialContext`: a failed handshake returns
     * the error and closes the proxy connection.
     */
    method Dial(network: string, addr: string, versionWithDate: string, connectTimeout: Duration) returns (conn: Conn?, err: Option<Error>)
      modifies forward`requests, forward.outcome.Conns()
      ensures network != "tcp" ==>
                conn == null && err == Some(UnsupportedNetwork(network)) &&
                forward.requests == old(forward.requests)
      ensures network != "tcp" && forward.outcome.Connected? ==> unchanged(forward.outcome.conn)
      ensures network == "tcp" ==> forward.requests == old(forward.requests) + [DialRequest("tcp", address)]
      ensures network == "tcp" && forward.outcome.Refused? ==>
                conn == null && err == Some(forward.outcome.err)
      ensures network == "tcp" && forward.outcome.Connected? ==>
                var c := forward.outcome.conn;
                var e := HandshakeError(c.writeResult, c.reply);
                (err.None? <==> c.reply.Ok? && c.reply.value.statusCode == StatusOK && c.writeResult.None?) &&
                err == e && conn == (if e.None? then c else null) &&
                c.open == (old(c.open) && e.None?) && c.deadline == NoDeadline &&
                c.events == old(c.events) +
                  HandshakeEvents(EffectiveTimeout(options.timeout, connectTimeout), ConnectRequest(options, addr, versionWithDate), c.writeResult) +
                  (if e.Some? then [Closed] else [])
    {
      conn, err := DialContext(network, addr, versionWithDate, connectTimeout);
      if network == "tcp" && forward.outcome.Connected? {
        HandshakeAcceptsOnly200(forward.outcome.conn.writeResult, forward.outcome.conn.reply);
      }
    }
  }

  /**
   * A proxy that answers `403 Forbidden`: the dialer as written panics and
   * leaves the proxy connection open.
   */
  method ForbiddenTunnelAsWritten() returns (panicked: bool, leftOpen: bool)
    ensures panicked && leftOpen
  {
    var c := new Conn(None, Ok(Response(403, "403 Forbidden")));
    var f := new ForwardDialer(Connected(c));
    var d := new HTTPDialer("proxy:3128", f, HTTPOptions("", None, 0));
    var conn, err;
    conn, err, panicked := d.DialContextAsWritten("tcp", "example.com:443", "v1", DefaultConnectTimeout);
    leftOpen := c.open;
  }

  /**
   * The same proxy with the close applied to the dialed connection: the
   * dial fails with the status text and the proxy connection is closed.
   */
  method ForbiddenTunnelClosed() returns (err: Option<Error>, closed: bool)
    ensures err == Some(ProxyStatus("403 Forbidden")) && closed
  {
    var c := new Conn(None, Ok(Response(403, "403 Forbidden")));
    var f := new ForwardDialer(Connected(c));
    var d := new HTTPDialer("proxy:3128", f, HTTPOptions("", None, 0));
    var conn;
    conn, err := d.DialContext("tcp", "example.com:443", "v1", DefaultConnectTimeout);
    closed := !c.open;
  }
}
