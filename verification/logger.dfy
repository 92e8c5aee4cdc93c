/** The earlier, unleveled logger (logger/logger.go): an enabled flag and a
    sink. `Log` writes its message followed by a newline, `Logf` writes the
    formatted message as it is, and Begin/End write fixed framing lines; all
    of them write only while the logger is enabled. Messages are taken as
    already rendered text and clock readings as already rendered stamps. */
module Logger {
  import opened Sinks

  datatype Logger = Logger(enabled: bool, output: Sink)

  /** The functional options NewLogger accepts. */
  datatype Option = WithEnabled(enabled: bool) | WithOutput(output: Sink)

  /** The value the last WithEnabled option sets, or `default` when there is none. */
  function LastEnabled(opts: seq<Option>, default: bool): bool
  {
    if opts == [] then default
    else if opts[|opts| - 1].WithEnabled? then opts[|opts| - 1].enabled
    else LastEnabled(opts[..|opts| - 1], default)
  }

  /** The sink the last WithOutput option sets, or `default` when there is none. */
  function LastOutput(opts: seq<Option>, default: Sink): Sink
  {
    if opts == [] then default
    else if opts[|opts| - 1].WithOutput? then opts[|opts| - 1].output
    else LastOutput(opts[..|opts| - 1], default)
  }

  function ApplyOption(l: Logger, o: Option): Logger
  {
    match o
    case WithEnabled(e) => l.(enabled := e)
    case WithOutput(k) => l.(output := k)
  }

  /** Applies the options in argument order: for each field the last option naming it wins. */
  function ApplyOptions(l: Logger, opts: seq<Option>): (r: Logger)
    ensures r.enabled == LastEnabled(opts, l.enabled)
    ensures r.output == LastOutput(opts, l.output)
    decreases opts
  {
    if opts == [] then l
    else
      var o, rest := opts[0], opts[1..];
      var r := ApplyOptions(ApplyOption(l, o), rest);
      assert opts == [o] + rest;
      LastCons(o, rest, l);
      r
  }

  /** Looking for the last option of a kind in `[o] + rest` is looking in
      `rest`, with `o`'s setting as the fallback. */
  lemma {:induction false} LastCons(o: Option, rest: seq<Option>, l: Logger)
    ensures LastEnabled([o] + rest, l.enabled) == LastEnabled(rest, ApplyOption(l, o).enabled)
    ensures LastOutput([o] + rest, l.output) == LastOutput(rest, ApplyOption(l, o).output)
  {
    if rest != [] {
      assert ([o] + rest)[..|rest|] == [o] + rest[..|rest| - 1];
      LastCons(o, rest[..|rest| - 1], l);
    }
  }

  /** A fresh logger is enabled and writes to standard output, unless the options say otherwise. */
  function NewLogger(opts: seq<Option>): (r: Logger)
    ensures r.enabled == LastEnabled(opts, true)
    ensures r.output == LastOutput(opts, Stdout)
  {
    ApplyOptions(Logger(true, Stdout), opts)
  }

  /** Fprintln with one rendered operand: the message and a newline, only when enabled. */
  function Log(l: Logger, st: Streams, msg: string): (r: Streams)
    ensures l.enabled ==> Contents(r, l.output) == Contents(st, l.output) + [Text(msg + "\n")]
    ensures forall k :: k != l.output || !l.enabled ==> Contents(r, k) == Contents(st, k)
  {
    if l.enabled then Append(st, l.output, [Text(msg + "\n")]) else st
  }

  /** Fprintf with the formatted message: written as it is, no newline added, only when enabled. */
  function Logf(l: Logger, st: Streams, formatted: string): (r: Streams)
    ensures l.enabled ==> Contents(r, l.output) == Contents(st, l.output) + [Text(formatted)]
    ensures forall k :: k != l.output || !l.enabled ==> Contents(r, k) == Contents(st, k)
  {
    if l.enabled then Append(st, l.output, [Text(formatted)]) else st
  }

  /** Two Log lines: "BEGIN" and the start stamp. Fprintln puts a space
      between its two operands "Execution started at:" and the stamp. */
  function Begin(l: Logger, st: Streams, stamp: string): (r: Streams)
    ensures l.enabled ==>
              Contents(r, l.output) ==
              Contents(st, l.output) + [Text("BEGIN\n"), Text("Execution started at: " + stamp + "\n")]
    ensures forall k :: k != l.output || !l.enabled ==> Contents(r, k) == Contents(st, k)
  {
    var st1 := Log(l, st, "BEGIN");
    assert "BEGIN" + "\n" == "BEGIN\n";
    var r := Log(l, st1, "Execution started at:" + " " + stamp);
    assert "Execution started at:" + " " + stamp + "\n" == "Execution started at: " + stamp + "\n";
    assert l.enabled ==>
             Contents(r, l.output) == Contents(st, l.output) + [Text("BEGIN\n")] + [Text("Execution started at: " + stamp + "\n")];
    r
  }

  /** Two Log lines: "END" and the end stamp. */
  function End(l: Logger, st: Streams, stamp: string): (r: Streams)
    ensures l.enabled ==>
              Contents(r, l.output) ==
              Contents(st, l.output) + [Text("END\n"), Text("Execution ended at: " + stamp + "\n")]
    ensures forall k :: k != l.output || !l.enabled ==> Contents(r, k) == Contents(st, k)
  {
    var st1 := Log(l, st, "END");
    assert "END" + "\n" == "END\n";
    var r := Log(l, st1, "Execution ended at:" + " " + stamp);
    assert "Execution ended at:" + " " + stamp + "\n" == "Execution ended at: " + stamp + "\n";
    assert l.enabled ==>
             Contents(r, l.output) == Contents(st, l.output) + [Text("END\n")] + [Text("Execution ended at: " + stamp + "\n")];
    r
  }

  function Enable(l: Logger): (r: Logger)
    ensures r.enabled && r.output == l.output
  {
    l.(enabled := true)
  }

  function Disable(l: Logger): (r: Logger)
    ensures !r.enabled && r.output == l.output
  {
    l.(enabled := false)
  }

  function SetOutput(l: Logger, k: Sink): (r: Logger)
    ensures r.output == k && r.enabled == l.enabled
  {
    l.(output := k)
  }

  /** One call on the logger's interface. */
  datatype Call =
    | CallLog(msg: string)
    | CallLogf(formatted: string)
    | CallBegin(stamp: string)
    | CallEnd(stamp: string)
    | CallEnable
    | CallDisable
    | CallSetOutput(sink: Sink)

  /** Performs one call; no sink loses anything it received. */
  function Step(l: Logger, st: Streams, c: Call): (r: (Logger, Streams))
    ensures Grows(st, r.1)
  {
    match c
    case CallLog(msg) => (l, Log(l, st, msg))
    case CallLogf(f) => (l, Logf(l, st, f))
    case CallBegin(stamp) => (l, Begin(l, st, stamp))
    case CallEnd(stamp) => (l, End(l, st, stamp))
    case CallEnable => (Enable(l), st)
    case CallDisable => (Disable(l), st)
    case CallSetOutput(k) => (SetOutput(l, k), st)
  }

  /** Performs the calls in order, threading the logger and the sinks. */
  function Run(l: Logger, st: Streams, calls: seq<Call>): (r: (Logger, Streams))
    ensures Grows(st, r.1)
    decreases calls
  {
    if calls == [] then (l, st)
    else
      var (l1, st1) := Step(l, st, calls[0]);
      var r := Run(l1, st1, calls[1..]);
      assert forall k :: Contents(st, k) <= Contents(st1, k) <= Contents(r.1, k);
      r
  }

  /** A disabled logger that no call enables leaves every sink as it was. */
  lemma {:induction false} DisabledIsSilent(l: Logger, st: Streams, calls: seq<Call>)
    requires !l.enabled
    requires forall i :: 0 <= i < |calls| ==> !calls[i].CallEnable?
    ensures Run(l, st, calls).1 == st
    decreases calls
  {
    if calls != [] {
      assert !calls[0].CallEnable?;
      var (l1, st1) := Step(l, st, calls[0]);
      DisabledIsSilent(l1, st1, calls[1..]);
    }
  }

  /** Output routing: with sink a set, a Log lands on a; after SetOutput(b)
      the next Log lands on b; a keeps exactly the first line. */
  lemma SetOutputRoutes(l: Logger, st: Streams, a: Sink, b: Sink, first: string, second: string)
    requires l.enabled && a != b
    ensures var (_, r) := Run(l, st, [CallSetOutput(a), CallLog(first), CallSetOutput(b), CallLog(second)]);
            Contents(r, a) == Contents(st, a) + [Text(first + "\n")] &&
            Contents(r, b) == Contents(st, b) + [Text(second + "\n")]
  {
    var calls := [CallSetOutput(a), CallLog(first), CallSetOutput(b), CallLog(second)];
    var la := SetOutput(l, a);
    var st1 := Log(la, st, first);
    var lb := SetOutput(la, b);
    var st2 := Log(lb, st1, second);
    assert Run(l, st, calls) == Run(la, st, calls[1..]);
    assert Run(la, st, calls[1..]) == Run(la, st1, calls[2..]);
    assert Run(la, st1, calls[2..]) == Run(lb, st1, calls[3..]);
    assert Run(lb, st1, calls[3..]) == Run(lb, st2, calls[4..]);
  }
}
