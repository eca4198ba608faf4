# tcp-proxy core, modelled in Dafny

This project models three sequential pieces of the `tcp-proxy` relay, a tool
that listens on local ports and forwards each connection to a remote host.
The command in cmd/tcp-proxy dials the remote host directly with `net.Dial`
and has no proxy option. The HTTP CONNECT dialer is a library in pkg/proxy
that this command does not use.

* **The HTTP CONNECT dialer** (`http.dfy`, module `Proxy`). `HTTPDialer` is a
  class. `DialContext` refuses every network but `tcp`. It dials the proxy
  address, never the target, through a `ForwardDialer`. It then arms a
  deadline: the configured timeout when positive, otherwise the package
  variable `ConnectTimeout` (5 s unless reassigned). It writes a
  `CONNECT <target> HTTP/1.1` request (section 9.3.6 of RFC 9110). The request
  carries `User-Agent`, `Proxy-Connection: keep-alive` and, when credentials
  are configured, `Proxy-Authorization: Basic base64(user ":" password)`
  (section 2 of RFC 7617). It accepts the tunnel only on status 200, and it
  clears the deadline on every exit. Sockets are `Conn` objects. Each `Conn`
  records the operations performed on it, in order, and its write and read
  outcomes are fixed when it is created. So every branch has a stated
  post-state: which address was dialed, the deadline, whether the
  connection is open, and the exact request written. `Dial`, `DialContext`
  and their as-written counterparts all state it.
* **Base64** (`base64.dfy`). This is the standard-alphabet, padded encoding of
  section 4 of RFC 4648 used for the credentials. A decoder is its partner,
  and `Base64.DecodeEncode` proves that decoding inverts encoding.
* **The command-line port mappings** (`main.dfy`, module `Cli`). The first
  positional argument is the remote host. Each later argument is split on
  `:` as Go's `strings.Split` does. More than two pieces is fatal. A single
  piece is both the local and the remote port. A valid spec starts a
  listener on `<address>:<local>` that forwards to `<remote>:<remote port>`.
  `--address` defaults to `127.0.0.1` (`Cli.DefaultAddress`). `Cli.Run` is
  the loop over the specs, and `Cli.RunOnDefaultAddress` runs it without
  `--address`. The goroutines of the listeners before the first invalid spec
  have been spawned; then `log.Fatalf` ends the process, so none of them
  keeps serving and some may never bind.
* **The level-gated logger** (`level.dfy`, `log.dfy`). `Level` is a plain
  integer. ERROR, WARNING, INFO and DEBUG are `0 + 10*iota`. `Log.Logger`
  holds the mutable level (INFO at start) and the two output streams as
  sequences of messages. Error messages always go to standard error.
  Warning messages always go to standard output. Info messages are printed
  only when the level is at least INFO, and Debug messages only when it is
  at least DEBUG.

`common.dfy` holds the `Option` and `Result` datatypes that the modules share.

## Model

| member | source | states |
|---|---|---|
| `Levels.Declared` | pkg/log/level.go:5-10 | each constant of the block is a non-negative multiple of 10, and each one is 10 more than the one before it |
| `Levels.ConstantValues` | pkg/log/level.go:6-9 | ERROR = 0, WARNING = 10, INFO = 20, DEBUG = 30, in strict increasing order |
| `Log.Route` | pkg/log/log.go:19-77 | a call goes to standard error exactly when it is an Error call |
| `Log.Emitted` | pkg/log/log.go:19-77 | a call appends at most one entry, the message itself, and only to the stream it is routed to |
| `Log.ErrorAlwaysEmitted` | pkg/log/log.go:19-29 | at every level, an Error message is appended to standard error and to nothing else |
| `Log.WarningAlwaysEmitted` | pkg/log/log.go:31-41 | at every level, ERROR included, a Warning message is appended to standard output and to nothing else |
| `Log.InfoGate` | pkg/log/log.go:43-59 | an Info message is appended to standard output if and only if level >= INFO; otherwise nothing changes |
| `Log.DebugGate` | pkg/log/log.go:61-77 | a Debug message is appended to standard output if and only if level >= DEBUG; otherwise nothing changes |
| `Log.DebugImpliesInfo` | pkg/log/log.go:43-77 | at any level where a Debug message is printed, an Info message is printed too |
| `Log.AtMostOneEntry` | pkg/log/log.go:19-77 | every call adds at most one log entry across both streams |
| `Log.Logger.constructor` | pkg/log/log.go:8-13 | the initial level is INFO and both streams are empty |
| `Log.Logger.SetLevel` | pkg/log/log.go:15-17 | the level is replaced and neither stream changes |
| `Log.Logger.Error` | pkg/log/log.go:19-29 | the streams grow exactly as `Emitted` says for an Error call |
| `Log.Logger.Warning` | pkg/log/log.go:31-41 | the streams grow exactly as `Emitted` says for a Warning call |
| `Log.Logger.Info` | pkg/log/log.go:43-59 | the streams grow exactly as `Emitted` says for an Info call at the current level |
| `Log.Logger.Debug` | pkg/log/log.go:61-77 | the streams grow exactly as `Emitted` says for a Debug call at the current level |
| `Cli.Split` | cmd/tcp-proxy/main.go:65 | `strings.Split` on `:` gives one piece more than there are colons; no piece holds a colon; joining the pieces with `:` gives back the input |
| `Cli.ParsePort` | cmd/tcp-proxy/main.go:65-71 | a rejected spec fails with `InvalidPort` naming that very spec |
| `Cli.ParsePortAccepts` | cmd/tcp-proxy/main.go:65-68 | a spec is accepted if and only if it has at most one colon; no other check is made, so `""` and `":"` pass |
| `Cli.ParsePortNoColon` | cmd/tcp-proxy/main.go:69-71 | a spec without a colon is used as both the local and the remote port |
| `Cli.ParsePortOneColon` | cmd/tcp-proxy/main.go:65-77 | for a spec with one colon, the text before the colon is the local port and the text after it is the remote port |
| `Cli.MappingOf` | cmd/tcp-proxy/main.go:75-77 | the listen address is `<address>:` followed by the local port and the forward address is `<remote>:` followed by the remote port; a colon-free port is exactly what follows the last colon of its address |
| `Cli.MappingPorts` | cmd/tcp-proxy/main.go:75-78 | for an accepted spec, the text after the last colon of the listen string is the local port and that of the forward string is the remote port, whatever colons the address or the host hold; this is a fact about the strings, not about what `net.Listen` accepts |
| `Cli.Run` | cmd/tcp-proxy/main.go:52-84 | fewer than two arguments is fatal and starts nothing. Otherwise listener i comes from spec i+1, in order. There is no fatal error if and only if every spec is accepted, and then there is one listener per spec. A fatal `InvalidPort` names the first invalid spec; the listeners before it were spawned, then the process exits. `address` is the value of `--address` |
| `Cli.RunOnDefaultAddress` | cmd/tcp-proxy/main.go:14 | without `--address`, every listener binds `127.0.0.1:<local>`, and the outcome is otherwise that of `Cli.Run` |
| `Cli.DecimalValue` | cmd/tcp-proxy/main.go:57 | the `%d` rendering of the argument count reads back as that count |
| `Cli.FatalMessage` | cmd/tcp-proxy/main.go:56-68 | the usage messages are `accept 2 arg(s), received N` and `invalid port <spec>` |
| `Base64.Encode` | pkg/proxy/http.go:93 | every character of the encoding is `=` or a character of the standard alphabet |
| `Base64.EncodeTestVectors` | pkg/proxy/http.go:93 | the encoder gives the test vectors of section 10 of RFC 4648, from `""` to `"foobar"` → `"Zm9vYmFy"`, which pins it to the standard alphabet and padding |
| `Base64.EncodeLength` | pkg/proxy/http.go:93 | the encoding of n bytes has 4 * ceil(n / 3) characters |
| `Base64.ValueOfChar` | pkg/proxy/http.go:93 | every 6-bit value is recovered from its alphabet character |
| `Base64.DecodeEncode` | pkg/proxy/http.go:93 | decoding the encoding of any byte string gives back that byte string |
| `Proxy.ErrorText` | pkg/proxy/http.go:53-106 | a network error reads `http proxy: <network> unsupported` (line 54); a refused tunnel's error is the reply's status text (line 106) |
| `Proxy.Password` | pkg/proxy/http.go:91 | a password that is not set reads as empty |
| `Proxy.URLOptions` | pkg/proxy/dialer.go:12-14 | a dialer built for an `http` proxy URL takes the URL's credentials, with no User-Agent and no timeout |
| `Proxy.URLOptionsDefaults` | pkg/proxy/dialer.go:13 | such a dialer arms the package's `ConnectTimeout` (5 s unless an importer reassigns it) and sends the default User-Agent |
| `Proxy.EffectiveTimeout` | pkg/proxy/http.go:67-70 | the deadline is the configured timeout when it is positive, and the current value of the package variable `ConnectTimeout` otherwise; it is positive exactly when one of the two is, so a reassigned non-positive `ConnectTimeout` arms a deadline that has already passed |
| `Proxy.UserAgent` | pkg/proxy/http.go:81-85 | the User-Agent is the configured one when it is non-empty, and `tcp-proxy/` + the build's version-with-date otherwise |
| `Proxy.BasicAuthorization` | pkg/proxy/http.go:88-94 | the Proxy-Authorization value starts with `Basic ` |
| `Proxy.BasicAuthorizationRoundTrip` | pkg/proxy/http.go:88-94 | a proxy parsing the header recovers the user name and the password (empty when unset), provided the user name has no colon |
| `Proxy.ColonInUserIsMisread` | pkg/proxy/http.go:90-93 | for every user name containing a colon, a proxy parsing the header does not recover that user name and password |
| `Proxy.ConnectRequest` | pkg/proxy/http.go:73-80 | the request is a CONNECT over HTTP/1.1, and both its URL host and its Host are the target address |
| `Proxy.ConnectRequestHeaders` | pkg/proxy/http.go:79-94 | User-Agent follows the default/override rule. `Proxy-Connection` is always `keep-alive`. `Proxy-Authorization` is present if and only if credentials are configured, and holds their Basic value. No other header is set |
| `Proxy.ConnectRequestCarriesCredentials` | pkg/proxy/http.go:88-94 | the configured credentials can be read back from the request's Proxy-Authorization header |
| `Proxy.HandshakeAcceptsOnly200` | pkg/proxy/http.go:96-109 | the tunnel is accepted if and only if the write and the read both succeed and the status is exactly 200. A write or read error is returned unchanged. Any other status, 2xx included, fails with its status text |
| `Proxy.DeadlineDiscipline` | pkg/proxy/http.go:67-72 | the deadline is armed before the request is written and is cleared as the handshake's last step, on every path |
| `Proxy.Conn.SetDeadline` | pkg/proxy/http.go:71-72 | the deadline is set and the operation is recorded |
| `Proxy.Conn.Write` | pkg/proxy/http.go:96 | writing the request is recorded, and the socket's write outcome is returned |
| `Proxy.Conn.ReadResponse` | pkg/proxy/http.go:100 | reading the reply is recorded, and the socket's read outcome is returned |
| `Proxy.Conn.Close` | pkg/proxy/http.go:63 | the connection is closed and the operation is recorded |
| `Proxy.CloseInterface` | pkg/proxy/http.go:61-65 | `Close` through a nil `net.Conn` is a panic and closes nothing; otherwise it closes the connection |
| `Proxy.ForwardDialer.DialContext` | pkg/proxy/http.go:37-42 | the forward dialer records the address it is asked for, and returns its connection or its error |
| `Proxy.HTTPDialer.constructor` | pkg/proxy/http.go:35-46 | `NewHTTPDialer` keeps the proxy address, the forward dialer and the options |
| `Proxy.HTTPDialer.BuildRequest` | pkg/proxy/http.go:73-94 | the request built by successive header `Set` calls is exactly `ConnectRequest` for the dialer's options and the target |
| `Proxy.HTTPDialer.Handshake` | pkg/proxy/http.go:67-107 | the handshake's error is `HandshakeError` of the socket's outcomes; the deadline ends cleared; the socket sees exactly `HandshakeEvents` with the `ConnectRequest` |
| `Proxy.HTTPDialer.DialContextAsWritten` | pkg/proxy/http.go:52-110 | the source's behaviour. A non-tcp network is refused before any dial. The forward dialer is asked for the proxy address, and its error is returned unchanged. After a failed handshake, the deferred close runs on the nil named result: it panics, and the proxy connection stays open |
| `Proxy.HTTPDialer.DialContext` | pkg/proxy/http.go:52-110 | the same, but the close on error reaches the dialed connection. Every failure after the dial leaves the connection closed with its deadline cleared. Success returns the very connection that was dialed, still open, with its deadline cleared |
| `Proxy.HTTPDialer.DialAsWritten` | pkg/proxy/http.go:48-50 | the source's `Dial`, over `DialContextAsWritten`. A non-tcp network is refused and nothing is dialed. The forward dialer is asked for the proxy address, and its error is returned unchanged without a panic. After the dial, the error is `HandshakeError` of the socket's outcomes (success exactly on status 200, write and read errors unchanged, any other status its text); a failure panics and leaves the proxy connection open; the socket sees exactly `HandshakeEvents` with the `ConnectRequest`, and the deadline ends cleared |
| `Proxy.HTTPDialer.Dial` | pkg/proxy/http.go:48-50 | `Dial` over the corrected `DialContext`: the same refusals and dialed address, the error is `HandshakeError` of the socket's outcomes (success exactly on status 200), the socket sees exactly `HandshakeEvents` with the `ConnectRequest`, then `Close` on failure, which leaves the proxy connection closed |
| `Proxy.ForbiddenTunnelAsWritten` | pkg/proxy/http.go:100-107 | as written, a proxy answering `403 Forbidden` makes the dial panic and leaves the proxy connection open |
| `Proxy.ForbiddenTunnelClosed` | pkg/proxy/http.go:100-107 | once corrected, that proxy makes the dial fail with `403 Forbidden` and the proxy connection ends closed |

## Findings

| source | as written | input that shows it | evidently intended | confidence | as-written member | corrected member |
|---|---|---|---|---|---|---|
| pkg/proxy/http.go:61-65 | the failing returns at lines 97, 102 and 106 are `return nil, err`, which sets the named result `conn` to nil before the deferred `if err != nil { conn.Close() }` runs, so `Close` is called on a nil `net.Conn` | a proxy that accepts the TCP connection and answers the CONNECT with `403 Forbidden` (or fails the write or the read) | close the dialed proxy connection and return the error | high, not executed | `Proxy.HTTPDialer.DialContextAsWritten`, `Proxy.HTTPDialer.DialAsWritten`, `Proxy.ForbiddenTunnelAsWritten` | `Proxy.HTTPDialer.DialContext`, `Proxy.HTTPDialer.Dial`, `Proxy.ForbiddenTunnelClosed` |

The deadline reset at pkg/proxy/http.go:72 is not affected. A deferred call
evaluates its receiver when the `defer` statement executes (http.go:72), so the deadline is cleared on
the dialed connection on every exit. Both methods state this.

## Left out

- The accept loop, the per-connection goroutines, `copyWithCloser`, the `closer` channel and the `sync.WaitGroup` (cmd/tcp-proxy/main.go:17-50, 63, 72-84) are sockets and concurrency. `Cli.Run` only records which listeners are started, in order. Two behaviours there are not modelled. `conn.RemoteAddr()` is called before the accept error is checked (cmd/tcp-proxy/main.go:25-26). A bind failure panics the whole process (cmd/tcp-proxy/main.go:21).
- `log.Fatalf` ends the process. In `Cli.Run` it is the `fatal` result, and the loop stops there.
- Request serialisation (`req.Write`) and reply parsing (`http.ReadResponse`) belong to Go's `net/http`. A request is a record of the fields the dialer sets. A reply is either an error or a status code with its status text. The header is one value per name, which is what `Header.Set` leaves. Bytes that the discarded `bufio.Reader` may have read ahead are not modelled.
- The context argument of `DialContext` is not modelled. `Dial` passes a background context, which never cancels.
- The exported package variable `ConnectTimeout` (pkg/proxy/http.go:20) is read at each dial, so the dial methods take its current value as the parameter `connectTimeout`; `Proxy.DefaultConnectTimeout` is its initial value. `KeepAliveTime` and `DialTimeout` (pkg/proxy/http.go:17-19) are not read by the dialer and are not modelled.
- Wall-clock time is not modelled. A deadline is "expires after the timeout" or "none", so `time.Now()` does not appear. `build.VersionWithDate()` depends on the build date, so the dial methods take it as a string parameter.
- Credentials are byte strings, as Go strings are bytes. Header values and addresses are Dafny strings. No Unicode or UTF-8 handling is modelled.
- `Cli.PortOf` is the text after the last colon. `net.Listen` and `net.Dial` split `host:port` with `net.SplitHostPort`, which rejects an unbracketed host holding a colon (such as `--address ::1`); that listen fails and panics at cmd/tcp-proxy/main.go:21. Address validation is not modelled.
- `Base64` also defines a decoder. The source only encodes. The decoder is there to state the round trip and to state how a proxy reads the header (`Proxy.ParseBasic`).
- pkg/proxy/dialer.go delegates proxy selection to `golang.org/x/net/proxy` (`FromEnvironment`, `FromURL`, the SOCKS5 client), which is not part of this model. Only its registration of the `http` scheme is modelled, as `Proxy.URLOptions`. No dialer is registered for `https`.
- The `DialerContextFunc` adapters (pkg/proxy/dialer.go:30-38) and the `forward.(DialerContext)` type test in `NewHTTPDialer` (pkg/proxy/http.go:37-42) are collapsed into one `ForwardDialer.DialContext`. Both of its branches dial the same address.
- The Go logging API has twelve functions: `Error`, `Errorln` and `Errorf`, and likewise for the other three levels. The model has four methods that take a `Message`. The constructors of `Message` (`Print`, `Println`, `Printf`) record which form was called. How `fmt` renders the arguments is not modelled, and neither are the loggers' timestamp flags or the real stdout/stderr files.
- Cli.FatalMessage: its contract states the message's fixed text only. The digits of the argument count are stated separately by `Cli.DecimalValue`.
- `humanSize`, exercised by cmd/tcp-proxy/main_test.go, is not part of this model. No source file here defines it.
- `build.PrintVersion` is plain printing and is not modelled.
