/**
 * Command-line handling of the relay: the remote host, then one port
 * specification `[local:]remote` per listener, bound on `--address`.
 */
module Cli {
  import opened Results

  /** Default of the `--address` flag. */
  const DefaultAddress: string := "127.0.0.1"

  /** Number of occurrences of `sep` in `s`. */
  function Count(s: string, sep: char): (n: nat)
  {
    if s == [] then 0 else (if s[0] == sep then 1 else 0) + Count(s[1..], sep)
  }

  /** `parts` glued back together with `sep` between neighbours. */
  function Join(parts: seq<string>, sep: char): (joined: string)
  {
    if parts == [] then ""
    else if |parts| == 1 then parts[0]
    else parts[0] + [sep] + Join(parts[1..], sep)
  }

  /**
   * Go's `strings.Split(s, sep)` for a one-character separator: the
   * pieces between consecutive separators, empty pieces included, so an
   * empty string gives one empty piece.
   */
  function Split(s: string, sep: char): (parts: seq<string>)
    ensures |parts| == Count(s, sep) + 1
    ensures forall i :: 0 <= i < |parts| ==> sep !in parts[i]
    ensures Join(parts, sep) == s
  {
    if s == [] then [""]
    else
      var rest := Split(s[1..], sep);
      if s[0] == sep then
        [""] + rest
      else
        assert s == [s[0]] + s[1..];
        [[s[0]] + rest[0]] + rest[1..]
  }

  /** The two halves of a usable port specification. */
  datatype PortSpec = PortSpec(local: string, remote: string)

  /** The fatal usage errors of the command line. */
  datatype Fatal = TooFewArgs(received: nat) | InvalidPort(port: string)

  /** One listener: where it binds and where it forwards each connection. */
  datatype Mapping = Mapping(listen: string, forward: string)

  /**
   * The split-and-duplicate rule for one port specification: more than two
   * pieces is fatal, a single piece serves as both ports. Ports are not
   * otherwise checked.
   */
  function ParsePort(port: string): (r: Result<PortSpec, Fatal>)
    ensures r.Err? ==> r.error == InvalidPort(port)
  {
    var ps := Split(port, ':');
    if |ps| > 2 then Err(InvalidPort(port))
    else if |ps| == 1 then Ok(PortSpec(ps[0], ps[0]))
    else Ok(PortSpec(ps[0], ps[1]))
  }

  /** A part without the separator splits into itself alone. */
  lemma {:induction false} SplitNoSep(s: string, sep: char)
    requires sep !in s
    ensures Split(s, sep) == [s]
  {
    if s != [] {
      SplitNoSep(s[1..], sep);
    }
  }

  /** Splitting `a + [sep] + b` where neither side holds `sep` gives `[a, b]`. */
  lemma {:induction false} SplitOneSep(a: string, b: string, sep: char)
    requires sep !in a && sep !in b
    ensures Split(a + [sep] + b, sep) == [a, b]
  {
    if a == [] {
      assert (a + [sep] + b)[1..] == b;
      SplitNoSep(b, sep);
    } else {
      assert (a + [sep] + b)[1..] == a[1..] + [sep] + b;
      SplitOneSep(a[1..], b, sep);
      assert [a[0]] + a[1..] == a;
    }
  }

  /** A specification is accepted iff it holds at most one colon. */
  lemma ParsePortAccepts(port: string)
    ensures ParsePort(port).Ok? <==> Count(port, ':') <= 1
  {
  }

  /** Without a colon, the specification is both the local and the remote port. */
  lemma ParsePortNoColon(port: string)
    requires ':' !in port
    ensures ParsePort(port) == Ok(PortSpec(port, port))
  {
    SplitNoSep(port, ':');
  }

  /** With exactly one colon, at `i`, the text before it is the local port and the text after it the remote one. */
  lemma ParsePortOneColon(port: string, i: nat)
    requires i < |port| && port[i] == ':' && Count(port, ':') == 1
    ensures ParsePort(port) == Ok(PortSpec(port[..i], port[i+1..]))
  {
    var a, b := port[..i], port[i+1..];
    assert port == a + ([':'] + b);
    CountAppend(a, [':'] + b, ':');
    CountAppend([':'], b, ':');
    CountZero(a, ':');
    CountZero(b, ':');
    assert port == a + [':'] + b;
    SplitOneSep(a, b, ':');
  }

  lemma {:induction false} CountAppend(a: string, b: string, sep: char)
    ensures Count(a + b, sep) == Count(a, sep) + Count(b, sep)
  {
    if a != [] {
      assert (a + b)[0] == a[0];
      assert (a + b)[1..] == a[1..] + b;
      CountAppend(a[1..], b, sep);
    } else {
      assert a + b == b;
    }
  }

  lemma {:induction false} CountZero(s: string, sep: char)
    ensures Count(s, sep) == 0 <==> sep !in s
  {
    if s != [] {
      CountZero(s[1..], sep);
      assert s == [s[0]] + s[1..];
    }
  }

  /**
   * The listener a valid specification starts: it listens on `address` at
   * the local port and forwards to `remote` at the remote port.
   */
  function MappingOf(address: string, remote: string, spec: PortSpec): (m: Mapping)
    ensures address + ":" <= m.listen && remote + ":" <= m.forward
    ensures ':' !in spec.local ==> PortOf(m.listen) == spec.local
    ensures ':' !in spec.remote ==> PortOf(m.forward) == spec.remote
  {
    PortOfJoin(address, spec.local);
    PortOfJoin(remote, spec.remote);
    Mapping(address + ":" + spec.local, remote + ":" + spec.remote)
  }

  /**
   * The text after the last colon of a string, as a string fact: for a
   * colon-free or bracketed host it is the port, but `net.Listen` and
   * `net.Dial` reject an unbracketed host that holds a colon.
   */
  function PortOf(hostport: string): (port: string)
    ensures ':' !in port
  {
    if hostport == [] || hostport[|hostport| - 1] == ':' then []
    else PortOf(hostport[..|hostport| - 1]) + [hostport[|hostport| - 1]]
  }

  lemma {:induction false} PortOfJoin(host: string, port: string)
    ensures ':' !in port ==> PortOf(host + ":" + port) == port
    decreases |port|
  {
    var s := host + ":" + port;
    if ':' in port {
    } else if port == [] {
      assert s[|s| - 1] == ':';
    } else {
      var init := port[..|port| - 1];
      assert s[..|s| - 1] == host + ":" + init;
      PortOfJoin(host, init);
      assert port == init + [port[|port| - 1]];
    }
  }

  /**
   * The ports of an accepted specification survive the composition: the
   * text after the last colon of the listen string is the local port, and
   * that of the forward string the remote port, whatever colons the address
   * or the remote host hold.
   */
  lemma MappingPorts(address: string, remote: string, port: string)
    requires ParsePort(port).Ok?
    ensures var spec := ParsePort(port).value;
            var m := MappingOf(address, remote, spec);
            PortOf(m.listen) == spec.local && PortOf(m.forward) == spec.remote
  {
    var spec := ParsePort(port).value;
    var ps := Split(port, ':');
    assert ':' !in ps[0];
    assert |ps| == 2 ==> ':' !in ps[1];
  }

  /**
   * The start-up sequence of the command: `args` are the positional
   * arguments, `address` the value of `--address`. Listeners are started
   * one per specification, in order; the first invalid specification is
   * fatal only when the loop reaches it, after the listeners before it
   * have been started.
   */
  method Run(address: string, args: seq<string>) returns (started: seq<Mapping>, fatal: Option<Fatal>)
    ensures |args| < 2 ==> started == [] && fatal == Some(TooFewArgs(|args|))
    ensures |args| >= 2 ==> |started| <= |args| - 1
    ensures |args| >= 2 ==> forall i :: 0 <= i < |started| ==>
              ParsePort(args[i + 1]).Ok? && started[i] == MappingOf(address, args[0], ParsePort(args[i + 1]).value)
    ensures |args| >= 2 && fatal.None? ==> |started| == |args| - 1
    ensures |args| >= 2 ==> (fatal.None? <==> forall i :: 1 <= i < |args| ==> ParsePort(args[i]).Ok?)
    ensures |args| >= 2 && fatal.Some? ==>
              |started| < |args| - 1 && ParsePort(args[|started| + 1]).Err? &&
              fatal == Some(InvalidPort(args[|started| + 1]))
  {
    if |args| < 2 {
      return [], Some(TooFewArgs(|args|));
    }
    var remote := args[0];
    var ports := args[1..];
    started := [];
    fatal := None;
    var k := 0;
    while k < |ports|
      invariant 0 <= k <= |ports|
      invariant |started| == k
      invariant forall i :: 0 <= i < k ==>
                  ParsePort(ports[i]).Ok? && started[i] == MappingOf(address, remote, ParsePort(ports[i]).value)
    {
      var port := ports[k];
      var ps := Split(port, ':');
      if |ps| > 2 {
        return started, Some(InvalidPort(port));
      }
      if |ps| == 1 {
        ps := ps + [ps[0]];
      }
      started := started + [Mapping(address + ":" + ps[0], remote + ":" + ps[1])];
      k := k + 1;
    }
  }

  /**
   * The command run without `--address`: every listener binds the
   * default address, and the outcome is otherwise that of `Run`.
   */
  method RunOnDefaultAddress(args: seq<string>) returns (started: seq<Mapping>, fatal: Option<Fatal>)
    ensures |args| < 2 ==> started == [] && fatal == Some(TooFewArgs(|args|))
    ensures |args| >= 2 ==> |started| <= |args| - 1
    ensures |args| >= 2 ==> forall i :: 0 <= i < |started| ==>
              ParsePort(args[i + 1]).Ok? && started[i] == MappingOf(DefaultAddress, args[0], ParsePort(args[i + 1]).value)
    ensures forall i :: 0 <= i < |started| ==> "127.0.0.1:" <= started[i].listen
    ensures |args| >= 2 ==> (fatal.None? <==> |started| == |args| - 1)
    ensures |args| >= 2 ==> (fatal.None? <==> forall i :: 1 <= i < |args| ==> ParsePort(args[i]).Ok?)
    ensures |args| >= 2 && fatal.Some? ==>
              |started| < |args| - 1 && fatal == Some(InvalidPort(args[|started| + 1]))
  {
    started, fatal := Run(DefaultAddress, args);
  }

  /** Decimal digits of `n`, as `%d` prints a non-negative integer. */
  function Decimal(n: nat): (s: string)
    ensures |s| >= 1
    ensures forall i :: 0 <= i < |s| ==> '0' <= s[i] <= '9'
  {
    if n < 10 then [(48 + n) as char] else Decimal(n / 10) + [(48 + n % 10) as char]
  }

  /** The value of a string of decimal digits. */
  function DigitsValue(s: string): (v: int)
  {
    if s == [] then 0 else DigitsValue(s[..|s| - 1]) * 10 + (s[|s| - 1] as int - 48)
  }

  /** Decimal is faithful: reading the digits back gives the number. */
  lemma {:induction false} DecimalValue(n: nat)
    ensures DigitsValue(Decimal(n)) == n
  {
    if n >= 10 {
      DecimalValue(n / 10);
      var s := Decimal(n);
      assert s[..|s| - 1] == Decimal(n / 10);
    }
  }

  /** The text `log.Fatalf` prints for each usage error. */
  function FatalMessage(f: Fatal): (msg: string)
    ensures f.InvalidPort? ==> msg == "invalid port " + f.port
    ensures f.TooFewArgs? ==> "accept 2 arg(s), received " <= msg
  {
    match f
    case TooFewArgs(n) => "accept 2 arg(s), received " + Decimal(n)
    case InvalidPort(p) => "invalid port " + p
  }
}
