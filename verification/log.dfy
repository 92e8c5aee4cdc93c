/** The leveled, prefix-scoped logger (log/log.go).

    A logger is an immutable record; every operation returns the new record
    and/or the new sink contents. Each ranked message (Alert and Error at
    level 1, Warn 2, Highlight 3, Inform 4, Log 5, Trace 6) is let through when
    the logger's level is at least the tier's rank and is then written, when
    the logger is enabled, as two writes on the current sink: the accumulated
    prefix, then the tier tag followed by the message. A call below its rank
    prints a notice on standard output instead. The plain and the `f` form of
    each tier differ only in how the message is rendered, so the message body
    is taken as already rendered text. */
module Log {
  import opened Loglevel
  import opened Sinks
  import Arg
  import CallerName

  /** The logger's fields. `startTime` is a clock reading in an abstract unit. */
  datatype Logger = Logger(
    enabled: bool,
    output: Sink,
    prefix: string,
    funcName: string,
    startTime: int,
    level: Level)

  /** A logger together with what every sink has received. */
  datatype State = State(logger: Logger, streams: Streams)

  /** The functional options NewLogger accepts. */
  datatype Option =
    | WithEnabled(enabled: bool)
    | WithOutput(output: Sink)
    | WithPrefix(segments: seq<string>)

  /** How clock readings are shown: an instant (RFC 3339 in the source) and a
      duration (the difference of two readings). */
  datatype TimeFormat = TimeFormat(instant: int -> string, duration: int -> string)

  /** The clock reading of Go's zero time, the start time of a fresh logger. */
  const ZeroTime: int := 0

  /** What follows every prefix segment. */
  const Separator: string := ": "

  // ---------------------------------------------------------------------------
  // Prefix segments

  /** The rendering of a list of prefix segments: each one followed by ": ". */
  function Segments(segs: seq<string>): string
  {
    if segs == [] then "" else segs[0] + Separator + Segments(segs[1..])
  }

  /** The source's loop writing each segment and then ": " into the prefix
      builder; it extends the builder by exactly the rendered segments. */
  function WriteSegments(b: string, segs: seq<string>): (r: string)
    ensures r == b + Segments(segs)
    decreases segs
  {
    if segs == [] then b
    else
      var r := WriteSegments(b + segs[0] + Separator, segs[1..]);
      assert b + segs[0] + Separator + Segments(segs[1..]) == b + Segments(segs);
      r
  }

  /** Rendering two lists of segments one after the other is rendering their concatenation. */
  lemma {:induction false} SegmentsAppend(a: seq<string>, b: seq<string>)
    ensures Segments(a + b) == Segments(a) + Segments(b)
  {
    if a == [] {
      assert a + b == b;
    } else {
      assert (a + b)[1..] == a[1..] + b;
      SegmentsAppend(a[1..], b);
    }
  }

  // ---------------------------------------------------------------------------
  // Construction

  /** The value the last WithEnabled option sets, or `default` when there is none. */
  function LastEnabled(opts: seq<Option>, default: bool): bool
  {
    if opts == [] then default
    else if opts[|opts| - 1].WithEnabled? then opts[|opts| - 1].enabled
    else LastEnabled(opts[..|opts| - 1], default)
  }

  /** The sink the last WithOutput option sets, or `default` when there is none. */
  function LastOutput(opts: seq<Option>, default: Sink): Sink
  {
    if opts == [] then default
    else if opts[|opts| - 1].WithOutput? then opts[|opts| - 1].output
    else LastOutput(opts[..|opts| - 1], default)
  }

  /** All segments of all WithPrefix options, in argument order. */
  function PrefixSegments(opts: seq<Option>): seq<string>
  {
    if opts == [] then []
    else (if opts[0].WithPrefix? then opts[0].segments else []) + PrefixSegments(opts[1..])
  }

  lemma {:induction false} LastEnabledCons(o: Option, rest: seq<Option>, d: bool)
    ensures LastEnabled([o] + rest, d) == LastEnabled(rest, if o.WithEnabled? then o.enabled else d)
  {
    if rest != [] {
      assert ([o] + rest)[..|rest|] == [o] + rest[..|rest| - 1];
      LastEnabledCons(o, rest[..|rest| - 1], d);
    }
  }

  lemma {:induction false} LastOutputCons(o: Option, rest: seq<Option>, d: Sink)
    ensures LastOutput([o] + rest, d) == LastOutput(rest, if o.WithOutput? then o.output else d)
  {
    if rest != [] {
      assert ([o] + rest)[..|rest|] == [o] + rest[..|rest| - 1];
      LastOutputCons(o, rest[..|rest| - 1], d);
    }
  }

  function ApplyOption(l: Logger, o: Option): Logger
  {
    match o
    case WithEnabled(e) => l.(enabled := e)
    case WithOutput(k) => l.(output := k)
    case WithPrefix(segs) => l.(prefix := WriteSegments(l.prefix, segs))
  }

  /** Applies the options in argument order. For the enabled flag and the
      sink the last option naming them wins; prefix options accumulate; the
      level, caller name and start time are never touched. */
  function ApplyOptions(l: Logger, opts: seq<Option>): (r: Logger)
    ensures r.enabled == LastEnabled(opts, l.enabled)
    ensures r.output == LastOutput(opts, l.output)
    ensures r.prefix == l.prefix + Segments(PrefixSegments(opts))
    ensures r.funcName == l.funcName && r.startTime == l.startTime && r.level == l.level
    decreases opts
  {
    if opts == [] then l
    else
      var r := ApplyOptions(ApplyOption(l, opts[0]), opts[1..]);
      assert opts == [opts[0]] + opts[1..];
      ApplyOptionsStep(l, opts[0], opts[1..], r);
      r
  }

  /** One option applied before the rest: what holds of the rest, with the
      option's effect as the starting point, holds of the whole list. */
  lemma ApplyOptionsStep(l: Logger, o: Option, rest: seq<Option>, r: Logger)
    requires r.enabled == LastEnabled(rest, ApplyOption(l, o).enabled)
    requires r.output == LastOutput(rest, ApplyOption(l, o).output)
    requires r.prefix == ApplyOption(l, o).prefix + Segments(PrefixSegments(rest))
    ensures r.enabled == LastEnabled([o] + rest, l.enabled)
    ensures r.output == LastOutput([o] + rest, l.output)
    ensures r.prefix == l.prefix + Segments(PrefixSegments([o] + rest))
  {
    LastEnabledCons(o, rest, l.enabled);
    LastOutputCons(o, rest, l.output);
    PrefixSegmentsStep(l, o, rest);
  }

  lemma PrefixSegmentsStep(l: Logger, o: Option, rest: seq<Option>)
    ensures ApplyOption(l, o).prefix + Segments(PrefixSegments(rest)) == l.prefix + Segments(PrefixSegments([o] + rest))
  {
    var own := if o.WithPrefix? then o.segments else [];
    assert ([o] + rest)[1..] == rest;
    assert PrefixSegments([o] + rest) == own + PrefixSegments(rest);
    SegmentsAppend(own, PrefixSegments(rest));
  }

  /** Applying two option lists one after the other is applying their concatenation. */
  lemma {:induction false} ApplyOptionsAppend(l: Logger, a: seq<Option>, b: seq<Option>)
    ensures ApplyOptions(l, a + b) == ApplyOptions(ApplyOptions(l, a), b)
    decreases a
  {
    if a == [] {
      assert a + b == b;
    } else {
      assert (a + b)[0] == a[0];
      assert (a + b)[1..] == a[1..] + b;
      ApplyOptionsAppend(ApplyOption(l, a[0]), a[1..], b);
    }
  }

  /** A fresh logger: enabled, writing to standard output, at the level the
      argument parser stored, with an empty prefix and no caller name; then
      the options in argument order. */
  function NewLogger(args: Arg.Args, opts: seq<Option>): (r: Logger)
    ensures r.enabled == LastEnabled(opts, true)
    ensures r.output == LastOutput(opts, Stdout)
    ensures r.prefix == Segments(PrefixSegments(opts))
    ensures r.level == args.initLevel
    ensures r.funcName == "" && r.startTime == ZeroTime
  {
    ApplyOptions(Logger(true, Stdout, "", "", ZeroTime, Arg.GetInitLevel(args)), opts)
  }

  /** The level of a logger built after the flags were resolved is the
      highest level whose flag is set, or 0 when none is. */
  lemma LevelSeededByFlags(args: Arg.Args, opts: seq<Option>)
    ensures var l := NewLogger(Arg.SetInitLevel(args), opts);
            (l.level == 0 || Arg.IsSet(args.flags, l.level)) &&
            (forall k :: Arg.IsSet(args.flags, k) ==> k <= l.level)
  {
  }

  /** Prefix segments from an option and from later Prefix calls accumulate
      in call order, as if given all at once. */
  lemma {:induction false} PrefixAccumulates(args: Arg.Args, first: seq<string>, second: seq<string>, third: seq<string>)
    ensures var l := NewLogger(args, [WithPrefix(first)]);
            GetPrefix(Prefix(Prefix(l, second), third)) == Segments(first + second + third)
  {
    var l := NewLogger(args, [WithPrefix(first)]);
    assert PrefixSegments([WithPrefix(first)]) == first by {
      assert [WithPrefix(first)][1..] == [];
    }
    var l1 := Prefix(l, second);
    SegmentsAppend(first, second);
    assert GetPrefix(l1) == Segments(first + second);
    SegmentsAppend(first + second, third);
  }

  // ---------------------------------------------------------------------------
  // Accessors

  function Enable(l: Logger): (r: Logger)
    ensures r.enabled
    ensures r.output == l.output && r.prefix == l.prefix && r.funcName == l.funcName
    ensures r.startTime == l.startTime && r.level == l.level
  {
    l.(enabled := true)
  }

  function Disable(l: Logger): (r: Logger)
    ensures !r.enabled
    ensures r.output == l.output && r.prefix == l.prefix && r.funcName == l.funcName
    ensures r.startTime == l.startTime && r.level == l.level
  {
    l.(enabled := false)
  }

  function IsEnabled(l: Logger): bool
  {
    l.enabled
  }

  function SetOutput(l: Logger, k: Sink): (r: Logger)
    ensures r.output == k
    ensures r.enabled == l.enabled && r.prefix == l.prefix && r.funcName == l.funcName
    ensures r.startTime == l.startTime && r.level == l.level
  {
    l.(output := k)
  }

  function GetOutput(l: Logger): Sink
  {
    l.output
  }

  /** Sets the threshold; the returned logger is the receiver with only its level changed. */
  function SetLevel(l: Logger, level: Level): (r: Logger)
    ensures r.level == level
    ensures r.enabled == l.enabled && r.output == l.output && r.prefix == l.prefix
    ensures r.funcName == l.funcName && r.startTime == l.startTime
  {
    l.(level := level)
  }

  /** Appends the segments to the prefix, changing nothing else. */
  function Prefix(l: Logger, segs: seq<string>): (r: Logger)
    ensures GetPrefix(r) == GetPrefix(l) + Segments(segs)
    ensures r.enabled == l.enabled && r.output == l.output && r.funcName == l.funcName
    ensures r.startTime == l.startTime && r.level == l.level
  {
    l.(prefix := WriteSegments(l.prefix, segs))
  }

  function GetPrefix(l: Logger): string
  {
    l.prefix
  }

  /** Each getter returns what the matching setter last stored. */
  lemma GettersReturnLastSet(l: Logger, a: Sink, b: Sink, segs: seq<string>, more: seq<string>)
    ensures IsEnabled(Enable(Disable(l))) && !IsEnabled(Disable(Enable(l)))
    ensures GetOutput(SetOutput(SetOutput(l, a), b)) == b
    ensures GetPrefix(Prefix(Prefix(l, segs), more)) == GetPrefix(l) + Segments(segs + more)
  {
    SegmentsAppend(segs, more);
  }

  // ---------------------------------------------------------------------------
  // Dispatch

  /** logMessage and logfMessage: when enabled, write the prefix and then the
      rendered message to the current sink; when disabled, write nothing. */
  function LogMessage(l: Logger, st: Streams, msg: string): (r: Streams)
    ensures l.enabled ==> Contents(r, l.output) == Contents(st, l.output) + [Text(l.prefix), Text(msg)]
    ensures forall k :: k != l.output || !l.enabled ==> Contents(r, k) == Contents(st, k)
  {
    if l.enabled then Append(st, l.output, [Text(l.prefix), Text(msg)]) else st
  }

  /** The ranked tiers; each one has a plain and an `f` method in the source. */
  datatype Tier = Alert | Error | Warn | Highlight | Inform | Log | Trace

  function Rank(t: Tier): Level
  {
    match t
    case Alert => LEVEL_1
    case Error => LEVEL_1
    case Warn => LEVEL_2
    case Highlight => LEVEL_3
    case Inform => LEVEL_4
    case Log => LEVEL_5
    case Trace => LEVEL_6
  }

  function Tag(t: Tier): string
  {
    match t
    case Alert => "ALERT: "
    case Error => "ERROR: "
    case Warn => "WARN: "
    case Highlight => "HIGHLIGHT: "
    case Inform => "INFORM: "
    case Log => "LOG: "
    case Trace => "TRACE: "
  }

  /** A ranked message. At or above the tier's rank it goes through the
      enabled gate to the current sink as prefix, then tag and body. Below the
      rank no text is written anywhere; standard output receives one notice
      carrying the logger's level and the rank, whether or not the logger is
      enabled. */
  function Message(l: Logger, st: Streams, t: Tier, body: string): (r: Streams)
    ensures l.level >= Rank(t) && l.enabled ==>
              Contents(r, l.output) == Contents(st, l.output) + [Text(l.prefix), Text(Tag(t) + body)]
    ensures l.level >= Rank(t) && l.enabled ==> forall k :: k != l.output ==> Contents(r, k) == Contents(st, k)
    ensures l.level >= Rank(t) && !l.enabled ==> r == st
    ensures l.level < Rank(t) ==>
              Contents(r, Stdout) == Contents(st, Stdout) + [LevelNotice(l.level, Rank(t))]
    ensures l.level < Rank(t) ==> forall k :: k != Stdout ==> Contents(r, k) == Contents(st, k)
  {
    if l.level >= Rank(t) then LogMessage(l, st, Tag(t) + body)
    else Append(st, Stdout, [LevelNotice(l.level, Rank(t))])
  }

  /** The text a message adds to a sink: on the logger's sink, prefix and
      tagged body exactly when the logger is enabled and its level reaches the
      tier's rank; on every other sink, and otherwise, nothing. */
  lemma MessageText(l: Logger, st: Streams, t: Tier, body: string, k: Sink)
    ensures Texts(Contents(Message(l, st, t, body), k)) ==
              Texts(Contents(st, k)) +
              (if k == l.output && l.enabled && l.level >= Rank(t) then [l.prefix, Tag(t) + body] else [])
  {
    var r := Message(l, st, t, body);
    if l.level >= Rank(t) && l.enabled && k == l.output {
      var ws := [Text(l.prefix), Text(Tag(t) + body)];
      assert Contents(r, k) == Contents(st, k) + ws;
      TextsAppend(Contents(st, k), ws);
      assert Texts(ws) == [l.prefix] + Texts(ws[1..]);
      assert Texts(ws[1..]) == [Tag(t) + body] + Texts([]);
    } else if l.level < Rank(t) && k == Stdout {
      TextsOfNotice(Contents(st, k), l.level, Rank(t));
    } else {
      assert Contents(r, k) == Contents(st, k);
    }
  }

  /** A sequence of ranked messages, sent in order. */
  function Messages(l: Logger, st: Streams, msgs: seq<(Tier, string)>): Streams
    decreases msgs
  {
    if msgs == [] then st else Messages(l, Message(l, st, msgs[0].0, msgs[0].1), msgs[1..])
  }

  /** The text an enabled logger is expected to produce for `msgs`: prefix and
      tagged body of exactly those messages whose tier's rank is at most its level. */
  function Passed(l: Logger, msgs: seq<(Tier, string)>): seq<string>
  {
    if msgs == [] then []
    else
      (if Rank(msgs[0].0) <= l.level then [l.prefix, Tag(msgs[0].0) + msgs[0].1] else [])
      + Passed(l, msgs[1..])
  }

  /** At any threshold, an enabled logger's sink receives the text of exactly
      the messages whose rank is at most the threshold, in order. */
  lemma {:induction false} ThresholdFilters(l: Logger, st: Streams, msgs: seq<(Tier, string)>)
    requires l.enabled
    ensures Texts(Contents(Messages(l, st, msgs), l.output)) == Texts(Contents(st, l.output)) + Passed(l, msgs)
    decreases msgs
  {
    if msgs != [] {
      var st1 := Message(l, st, msgs[0].0, msgs[0].1);
      MessageText(l, st, msgs[0].0, msgs[0].1, l.output);
      ThresholdFilters(l, st1, msgs[1..]);
    }
  }

  /** At level 0 no ranked message adds text to any sink, whether or not the
      logger is enabled; only level notices reach standard output. */
  lemma {:induction false} NothingAtLevelZero(l: Logger, st: Streams, msgs: seq<(Tier, string)>, k: Sink)
    requires l.level == LEVEL_0
    ensures Texts(Contents(Messages(l, st, msgs), k)) == Texts(Contents(st, k))
    decreases msgs
  {
    if msgs != [] {
      var st1 := Message(l, st, msgs[0].0, msgs[0].1);
      MessageText(l, st, msgs[0].0, msgs[0].1, k);
      NothingAtLevelZero(l, st1, msgs[1..], k);
    }
  }

  /** At level 6 an enabled logger's sink gains, for every message in turn,
      the prefix and then the message's tag and body. */
  lemma EverythingAtLevelSix(l: Logger, st: Streams, msgs: seq<(Tier, string)>)
    requires l.enabled && l.level >= LEVEL_6
    ensures var before := Texts(Contents(st, l.output));
            var after := Texts(Contents(Messages(l, st, msgs), l.output));
            |after| == |before| + 2 * |msgs| &&
            after[..|before|] == before &&
            forall i :: 0 <= i < |msgs| ==>
              after[|before| + 2 * i] == l.prefix && after[|before| + 2 * i + 1] == Tag(msgs[i].0) + msgs[i].1
  {
    ThresholdFilters(l, st, msgs);
    PassedAtLevelSix(l, msgs);
  }

  /** At level 6 the expected text holds prefix and tagged body of every message. */
  lemma {:induction false} PassedAtLevelSix(l: Logger, msgs: seq<(Tier, string)>)
    requires l.level >= LEVEL_6
    ensures |Passed(l, msgs)| == 2 * |msgs|
    ensures forall i :: 0 <= i < |msgs| ==>
              Passed(l, msgs)[2 * i] == l.prefix && Passed(l, msgs)[2 * i + 1] == Tag(msgs[i].0) + msgs[i].1
  {
    if msgs != [] {
      PassedAtLevelSix(l, msgs[1..]);
      var rest := Passed(l, msgs[1..]);
      assert Passed(l, msgs) == [l.prefix, Tag(msgs[0].0) + msgs[0].1] + rest;
      forall i | 1 <= i < |msgs|
        ensures Passed(l, msgs)[2 * i] == l.prefix && Passed(l, msgs)[2 * i + 1] == Tag(msgs[i].0) + msgs[i].1
      {
        assert Passed(l, msgs)[2 * i] == rest[2 * (i - 1)];
        assert Passed(l, msgs)[2 * i + 1] == rest[2 * (i - 1) + 1];
        assert msgs[1..][i - 1] == msgs[i];
      }
    }
  }

  // ---------------------------------------------------------------------------
  // Begin / End

  /** The writes logMessage makes for each line in turn: the prefix, then the line. */
  function Framed(p: string, lines: seq<string>): seq<Write>
  {
    if lines == [] then [] else [Text(p), Text(lines[0])] + Framed(p, lines[1..])
  }

  lemma {:induction false} FramedAppend(p: string, a: seq<string>, b: seq<string>)
    ensures Framed(p, a + b) == Framed(p, a) + Framed(p, b)
  {
    if a == [] {
      assert a + b == b;
    } else {
      assert (a + b)[1..] == a[1..] + b;
      FramedAppend(p, a[1..], b);
    }
  }

  /** logMessage for each line in turn: when enabled, the sink gains every
      line after the prefix, in order; otherwise no sink changes. */
  function LogLines(l: Logger, st: Streams, lines: seq<string>): (r: Streams)
    ensures l.enabled ==> Contents(r, l.output) == Contents(st, l.output) + Framed(l.prefix, lines)
    ensures forall k :: k != l.output || !l.enabled ==> Contents(r, k) == Contents(st, k)
    decreases lines
  {
    if lines == [] then st
    else
      var st1 := LogMessage(l, st, lines[0]);
      var r := LogLines(l, st1, lines[1..]);
      assert l.enabled ==>
               Contents(r, l.output) == Contents(st, l.output) + [Text(l.prefix), Text(lines[0])] + Framed(l.prefix, lines[1..]);
      r
  }

  /** The lines Begin writes. */
  function BeginLines(now: int, fmt: TimeFormat): seq<string>
  {
    ["BEGIN\n", "Execution started at: " + fmt.instant(now) + "\n"]
  }

  /** The lines End writes. */
  function EndLines(start: int, now: int, fmt: TimeFormat): seq<string>
  {
    ["END\n", "Execution ended at: " + fmt.instant(now) + "\n",
     "Execution duration: " + fmt.duration(now - start) + "\n"]
  }

  /** The logger state Begin leaves: the caller's name appended as a segment
      exactly when it differs from the stored one, and stored; then the extra
      segments; then the start time. */
  function Enter(l: Logger, name: string, extra: seq<string>, now: int): (r: Logger)
    ensures r.funcName == name
    ensures r.prefix == l.prefix + (if l.funcName != name then Segments([name]) else "") + Segments(extra)
    ensures r.startTime == now
    ensures r.enabled == l.enabled && r.output == l.output && r.level == l.level
  {
    var named := if l.funcName != name then l.(funcName := name, prefix := WriteSegments(l.prefix, [name])) else l;
    named.(prefix := WriteSegments(named.prefix, extra), startTime := now)
  }

  /** Opens an operation: the logger is extended as Enter says, with the
      caller's name from the frame (see CallerName.FuncName); then, gated by
      `enabled` only and never by the level, the sink gains "BEGIN" and the
      start time, each after the extended prefix. */
  function Begin(l: Logger, st: Streams, frame: CallerName.Frame, extra: seq<string>, now: int, fmt: TimeFormat)
    : (r: State)
    ensures r.logger == Enter(l, CallerName.FuncName(frame), extra, now)
    ensures l.enabled ==>
              Contents(r.streams, l.output) == Contents(st, l.output) + Framed(r.logger.prefix, BeginLines(now, fmt))
    ensures forall k :: k != l.output || !l.enabled ==> Contents(r.streams, k) == Contents(st, k)
  {
    var l' := Enter(l, CallerName.FuncName(frame), extra, now);
    State(l', LogLines(l', st, BeginLines(now, fmt)))
  }

  /** Closes an operation: gated by `enabled` only, the sink gains "END", the
      end time and the time elapsed since the recorded start, each after the
      prefix. The logger itself is left as it was. */
  function End(l: Logger, st: Streams, now: int, fmt: TimeFormat): (r: Streams)
    ensures l.enabled ==>
              Contents(r, l.output) == Contents(st, l.output) + Framed(l.prefix, EndLines(l.startTime, now, fmt))
    ensures forall k :: k != l.output || !l.enabled ==> Contents(r, k) == Contents(st, k)
  {
    LogLines(l, st, EndLines(l.startTime, now, fmt))
  }

  /** A second Begin from the same caller adds its extra segments but not the name again. */
  lemma RepeatedBeginAddsNameOnce(l: Logger, st: Streams, frame: CallerName.Frame, t0: int, t1: int, fmt: TimeFormat)
    ensures var first := Begin(l, st, frame, [], t0, fmt);
            var second := Begin(first.logger, first.streams, frame, [], t1, fmt);
            second.logger.prefix == first.logger.prefix &&
            first.logger.prefix ==
              l.prefix + (if l.funcName != CallerName.FuncName(frame) then CallerName.FuncName(frame) + ": " else "")
  {
  }

  /** On a logger that has recorded no caller, a failed caller lookup adds no
      name: only the extra segments are appended. */
  lemma FailedLookupOnFreshLogger(l: Logger, st: Streams, extra: seq<string>, now: int, fmt: TimeFormat)
    requires l.funcName == ""
    ensures Begin(l, st, CallerName.Unavailable, extra, now, fmt).logger.prefix == l.prefix + Segments(extra)
  {
  }

  /** After a caller has been recorded, a failed lookup yields the empty name,
      which differs from the recorded one, so an empty segment (just ": ") is
      appended and the recorded name is cleared. */
  lemma FailedLookupAfterNamedBegin(l: Logger, st: Streams, extra: seq<string>, now: int, fmt: TimeFormat)
    requires l.funcName != ""
    ensures var r := Begin(l, st, CallerName.Unavailable, extra, now, fmt);
            r.logger.prefix == l.prefix + Separator + Segments(extra) && r.logger.funcName == ""
  {
  }

  /** Begin followed by End on an enabled logger, at any level (0 included):
      the sink receives the five framing lines in order, each after the
      extended prefix, and the duration is measured from Begin's clock reading. */
  lemma BeginEndTranscript(l: Logger, st: Streams, frame: CallerName.Frame, extra: seq<string>, t0: int, t1: int, fmt: TimeFormat)
    requires l.enabled
    ensures var b := Begin(l, st, frame, extra, t0, fmt);
            Contents(End(b.logger, b.streams, t1, fmt), l.output) ==
            Contents(st, l.output) +
            Framed(b.logger.prefix, BeginLines(t0, fmt) + EndLines(t0, t1, fmt))
  {
    var b := Begin(l, st, frame, extra, t0, fmt);
    EndAfterBegun(b.logger, st, b.streams, t0, t1, fmt);
  }

  /** End on a logger whose sink already holds Begin's lines for the same prefix. */
  lemma EndAfterBegun(l: Logger, st: Streams, begun: Streams, t0: int, t1: int, fmt: TimeFormat)
    requires l.enabled && l.startTime == t0
    requires Contents(begun, l.output) == Contents(st, l.output) + Framed(l.prefix, BeginLines(t0, fmt))
    ensures Contents(End(l, begun, t1, fmt), l.output) ==
            Contents(st, l.output) + Framed(l.prefix, BeginLines(t0, fmt) + EndLines(t0, t1, fmt))
  {
    var c0 := Contents(st, l.output);
    var fb, fe := Framed(l.prefix, BeginLines(t0, fmt)), Framed(l.prefix, EndLines(t0, t1, fmt));
    assert Contents(End(l, begun, t1, fmt), l.output) == (c0 + fb) + fe;
    FramedAppend(l.prefix, BeginLines(t0, fmt), EndLines(t0, t1, fmt));
    assert (c0 + fb) + fe == c0 + (fb + fe);
  }

  // ---------------------------------------------------------------------------
  // Whole runs

  /** One call on the logger's interface. */
  datatype Call =
    | CallEnable
    | CallDisable
    | CallSetOutput(sink: Sink)
    | CallSetLevel(level: Level)
    | CallMessage(tier: Tier, body: string)
    | CallPrefix(segments: seq<string>)
    | CallBegin(frame: CallerName.Frame, extra: seq<string>, now: int)
    | CallEnd(now: int)

  /** Performs one call. No call shortens the prefix or takes back anything a sink received. */
  function Step(s: State, c: Call, fmt: TimeFormat): (r: State)
    ensures s.logger.prefix <= r.logger.prefix
    ensures Grows(s.streams, r.streams)
  {
    var l := s.logger;
    match c
    case CallEnable => State(Enable(l), s.streams)
    case CallDisable => State(Disable(l), s.streams)
    case CallSetOutput(k) => State(SetOutput(l, k), s.streams)
    case CallSetLevel(v) => State(SetLevel(l, v), s.streams)
    case CallMessage(t, body) => State(l, Message(l, s.streams, t, body))
    case CallPrefix(segs) => State(Prefix(l, segs), s.streams)
    case CallBegin(frame, extra, now) => Begin(l, s.streams, frame, extra, now, fmt)
    case CallEnd(now) => State(l, End(l, s.streams, now, fmt))
  }

  /** Performs the calls in order. */
  function Run(s: State, calls: seq<Call>, fmt: TimeFormat): (r: State)
    ensures s.logger.prefix <= r.logger.prefix
    ensures Grows(s.streams, r.streams)
    decreases calls
  {
    if calls == [] then s
    else
      var s1 := Step(s, calls[0], fmt);
      var r := Run(s1, calls[1..], fmt);
      assert forall k :: Contents(s.streams, k) <= Contents(s1.streams, k) <= Contents(r.streams, k);
      r
  }

  /** A disabled logger, as long as no call enables it, writes no text to any
      sink; the only writes it makes are level notices on standard output. */
  lemma {:induction false} DisabledWritesNoText(s: State, calls: seq<Call>, fmt: TimeFormat, k: Sink)
    requires !s.logger.enabled
    requires forall i :: 0 <= i < |calls| ==> !calls[i].CallEnable?
    ensures Texts(Contents(Run(s, calls, fmt).streams, k)) == Texts(Contents(s.streams, k))
    decreases calls
  {
    if calls != [] {
      var s1 := Step(s, calls[0], fmt);
      if calls[0].CallMessage? {
        MessageText(s.logger, s.streams, calls[0].tier, calls[0].body, k);
      }
      assert !calls[0].CallEnable?;
      assert !s1.logger.enabled;
      assert Texts(Contents(s1.streams, k)) == Texts(Contents(s.streams, k));
      DisabledWritesNoText(s1, calls[1..], fmt, k);
    }
  }

  /** Output routing: a message sent after SetOutput(a) lands on a, one sent
      after SetOutput(b) lands on b, and neither reaches the other sink. */
  lemma SetOutputRoutes(l: Logger, st: Streams, a: Sink, b: Sink, t: Tier, first: string, second: string)
    requires l.enabled && l.level >= Rank(t)
    requires a != b
    ensures var la := SetOutput(l, a);
            var st1 := Message(la, st, t, first);
            var lb := SetOutput(la, b);
            var st2 := Message(lb, st1, t, second);
            Contents(st2, a) == Contents(st, a) + [Text(l.prefix), Text(Tag(t) + first)] &&
            Contents(st2, b) == Contents(st, b) + [Text(l.prefix), Text(Tag(t) + second)]
  {
  }
}
