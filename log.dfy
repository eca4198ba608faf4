/**
 * The level-gated logger. The package keeps one mutable level (INFO at
 * start) and two line-oriented loggers, one on standard error and one on
 * standard output; here the two outputs are append-only sequences of the
 * messages written to them.
 */
module Log {
  import opened Results
  import opened Levels

  /**
   * One logging call's arguments. The three constructors are the
   * `X(v...)`, `Xln(v...)` and `Xf(format, v...)` forms of every severity;
   * how `fmt` renders them into text is not modelled.
   */
  datatype Message =
    | Print(args: seq<string>)
    | Println(args: seq<string>)
    | Printf(format: string, args: seq<string>)

  datatype Severity = Error | Warning | Info | Debug

  datatype Stream = Stdout | Stderr

  /** The stream a call of severity `sev` writes to at `level`, if any. */
  function Route(level: Level, sev: Severity): (s: Option<Stream>)
    ensures s.Some? ==> (s.value == Stderr <==> sev == Error)
  {
    match sev
    case Error => Some(Stderr)
    case Warning => Some(Stdout)
    case Info => if level >= INFO then Some(Stdout) else None
    case Debug => if level >= DEBUG then Some(Stdout) else None
  }

  /** What one call of severity `sev` at `level` appends to `stream`. */
  function Emitted(level: Level, sev: Severity, stream: Stream, m: Message): (entries: seq<Message>)
    ensures |entries| <= 1
    ensures entries != [] <==> Route(level, sev) == Some(stream)
    ensures entries != [] ==> entries[0] == m
  {
    if Route(level, sev) == Some(stream) then [m] else []
  }

  /** Error messages reach standard error whatever the level. */
  lemma ErrorAlwaysEmitted(level: Level, m: Message)
    ensures Emitted(level, Error, Stderr, m) == [m]
    ensures Emitted(level, Error, Stdout, m) == []
  {
  }

  /** Warning messages reach standard output whatever the level, ERROR included. */
  lemma WarningAlwaysEmitted(level: Level, m: Message)
    ensures Emitted(level, Warning, Stdout, m) == [m]
    ensures Emitted(level, Warning, Stderr, m) == []
  {
  }

  /** Info messages reach standard output exactly when the level is at least INFO. */
  lemma InfoGate(level: Level, m: Message)
    ensures Emitted(level, Info, Stdout, m) == [m] <==> level >= INFO
    ensures Emitted(level, Info, Stdout, m) == [] <==> level < INFO
    ensures Emitted(level, Info, Stderr, m) == []
  {
  }

  /** Debug messages reach standard output exactly when the level is at least DEBUG. */
  lemma DebugGate(level: Level, m: Message)
    ensures Emitted(level, Debug, Stdout, m) == [m] <==> level >= DEBUG
    ensures Emitted(level, Debug, Stdout, m) == [] <==> level < DEBUG
    ensures Emitted(level, Debug, Stderr, m) == []
  {
  }

  /** Whenever a Debug message is emitted, an Info message would be too. */
  lemma DebugImpliesInfo(level: Level)
    ensures Route(level, Debug).Some? ==> Route(level, Info).Some?
  {
  }

  /** Every call appends at most one entry, and to exactly one stream. */
  lemma AtMostOneEntry(level: Level, sev: Severity, m: Message)
    ensures |Emitted(level, sev, Stdout, m)| + |Emitted(level, sev, Stderr, m)| <= 1
  {
  }

  /** The package state: the current level and what each logger has printed. */
  class Logger {
    var level: Level
    var stdout: seq<Message>
    var stderr: seq<Message>

    /** Package initialisation: level INFO, nothing printed yet. */
    constructor ()
      ensures level == INFO && stdout == [] && stderr == []
    {
      level := INFO;
      stdout := [];
      stderr := [];
    }

    /** Replaces the level; nothing is printed. */
    method SetLevel(l: Level)
      modifies this`level
      ensures level == l
      ensures stdout == old(stdout) && stderr == old(stderr)
    {
      level := l;
    }

    method Error(m: Message)
      modifies this`stderr
      ensures stderr == old(stderr) + Emitted(level, Severity.Error, Stderr, m)
      ensures stdout == old(stdout) + Emitted(level, Severity.Error, Stdout, m)
    {
      stderr := stderr + [m];
    }

    method Warning(m: Message)
      modifies this`stdout
      ensures stdout == old(stdout) + Emitted(level, Severity.Warning, Stdout, m)
      ensures stderr == old(stderr) + Emitted(level, Severity.Warning, Stderr, m)
    {
      stdout := stdout + [m];
    }

    method Info(m: Message)
      modifies this`stdout
      ensures stdout == old(stdout) + Emitted(level, Severity.Info, Stdout, m)
      ensures stderr == old(stderr) + Emitted(level, Severity.Info, Stderr, m)
    {
      if level >= INFO {
        stdout := stdout + [m];
      }
    }

    method Debug(m: Message)
      modifies this`stdout
      ensures stdout == old(stdout) + Emitted(level, Severity.Debug, Stdout, m)
      ensures stderr == old(stderr) + Emitted(level, Severity.Debug, Stderr, m)
    {
      if level >= DEBUG {
        stdout := stdout + [m];
      }
    }
  }
}
