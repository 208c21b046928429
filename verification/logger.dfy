/** The logger front end (`IrikaLogger`): a level gate, the construction of the
    record, and the fan-out of each record, and of `flush` and `close`, to the
    transports in list order: the console first, then the segment writer.
    Child loggers share their parent's transports and options.

    The console transport prints `formatConsoleLine(record, timezone)`; its
    output is kept as the list of printed lines. Every transport call is also
    recorded, in order, in `calls`, a call that throws included. The clock
    readings an emit needs are one `Moment` input. */
module Logger {
  import opened Wrappers
  import opened Types
  import Config
  import ConsoleFormat
  import Transport

  /** The kinds of transport the logger creates. */
  datatype TransportKind = ConsoleSink | FileSink

  /** One call the logger makes on a transport. */
  datatype Call = LogCall(sink: TransportKind, record: LogRecord) | FlushCall(sink: TransportKind) | CloseCall(sink: TransportKind)

  /** The clock readings around one record: its `ts` (formatTimestamp in the
      logger's zone), the console's `MM-DD hh:mm:ss` rendering and the segment
      writer's date key of that `ts`, and the readings a rotation would take.
      Unlike formatTimestamp, formatConsoleTimestamp has no UTC fallback: for a
      zone `Intl.DateTimeFormat` rejects its formatter throws a `RangeError`,
      and the console rendering is `None`. */
  datatype Moment = Moment(ts: string, consoleTs: Option<string>, dateKey: string, clock: Transport.RotationClock)

  /** What the transports hold: the printed console lines, the recorded calls
      and the segment writer's state. */
  datatype HubState = HubState(console: seq<string>, calls: seq<Call>, file: Transport.WriterState)

  /** The transports' state after a log fan-out, and whether a transport
      threw; the exception ends `emit`'s loop and escapes to its caller. */
  datatype Fanout = Fanout(state: HubState, threw: bool)

  /** The writer options a logger hands to its segment writer. */
  function WriterOptionsOf(opts: Config.ResolvedOptions, pid: int): Transport.WriterOptions {
    Transport.WriterOptions(opts.app, opts.version, opts.maxFileSizeBytes, opts.batchSizeBytes, pid)
  }

  // ---------------------------------------------------------------------------
  // The gate and the record
  // ---------------------------------------------------------------------------

  /** `emit`'s gate: SYSTEM always passes; another level is dropped when its
      priority is below the minimum (an absent minimum compares false). */
  predicate Admits(minLevelScore: Option<nat>, level: Level) {
    level == SYSTEM || minLevelScore.None? || Priority(level).value >= minLevelScore.value
  }

  /** The record `emit` builds. */
  function RecordOf(opts: Config.ResolvedOptions, moduleName: Option<string>, pid: int, level: Level,
                    msg: string, ctx: Option<Context>, traceId: Option<string>, ts: string): LogRecord {
    LogRecord(ts, level, opts.app, moduleName, msg, pid, traceId, ctx)
  }

  /** A level's position on the ladder. */
  function LadderPosition(l: Level): (i: nat)
    requires l != SYSTEM
    ensures i < |Ladder| && Ladder[i] == l
  {
    match l
    case VERBOSE => 0
    case DEBUG => 1
    case INFO => 2
    case WARN => 3
    case ERROR => 4
    case ASSERT => 5
    case SECURITY => 6
    case PERFORMANCE => 7
  }

  /** With a ladder level as the minimum, the gate lets through SYSTEM and
      exactly the levels at or above the minimum on the ladder. */
  lemma GateMatchesLadder(minLevel: Level, level: Level)
    requires minLevel != SYSTEM
    ensures Admits(Priority(minLevel), level) <==>
              level == SYSTEM || LadderPosition(level) >= LadderPosition(minLevel)
  {
    if level != SYSTEM {
      PriorityIsPosition(level);
      PriorityIsPosition(minLevel);
    }
  }

  lemma PriorityIsPosition(l: Level)
    requires l != SYSTEM
    ensures Priority(l) == Some(10 * (LadderPosition(l) + 1))
  {
  }

  /** A root logger's minimum is always present, so its gate drops every
      ladder level below the resolved level and keeps the resolved level. */
  lemma RootGate(user: Config.UserOptions, fileConfig: Config.BaseOptions, level: Level)
    ensures var opts := Config.ResolveOptions(user, fileConfig);
      Priority(opts.level).Some? && Admits(Priority(opts.level), opts.level) &&
      (level != SYSTEM && LadderPosition(level) < LadderPosition(opts.level) ==> !Admits(Priority(opts.level), level))
  {
    var opts := Config.ResolveOptions(user, fileConfig);
    GateMatchesLadder(opts.level, level);
  }

  // ---------------------------------------------------------------------------
  // Fan-out
  // ---------------------------------------------------------------------------

  /** One transport's `log(record)`. The console transport throws, printing
      nothing, when its stamp cannot be formatted. */
  function SinkLog(wopts: Transport.WriterOptions, env: Transport.Env, hs: HubState, sink: TransportKind,
                   record: LogRecord, moment: Moment): Fanout {
    match sink
    case ConsoleSink =>
      if moment.consoleTs.None? then Fanout(hs.(calls := hs.calls + [LogCall(sink, record)]), true)
      else Fanout(hs.(console := hs.console + [ConsoleFormat.FormatConsoleLine(record, moment.consoleTs.value, true)],
                      calls := hs.calls + [LogCall(sink, record)]), false)
    case FileSink =>
      Fanout(hs.(file := Transport.LogStep(wopts, env, hs.file, record, moment.dateKey, moment.clock),
                 calls := hs.calls + [LogCall(sink, record)]), false)
  }

  /** `for (const t of transports) t.log(record)`: a throw ends the loop. */
  function LogFanout(wopts: Transport.WriterOptions, env: Transport.Env, hs: HubState, sinks: seq<TransportKind>,
                     record: LogRecord, moment: Moment): Fanout {
    if sinks == [] then Fanout(hs, false)
    else
      var prev := LogFanout(wopts, env, hs, sinks[..|sinks| - 1], record, moment);
      if prev.threw then prev else SinkLog(wopts, env, prev.state, sinks[|sinks| - 1], record, moment)
  }

  /** The index of the first console transport in the list, `|sinks|` when there is none. */
  function FirstConsole(sinks: seq<TransportKind>): (i: nat)
    ensures i <= |sinks| && (i < |sinks| ==> sinks[i] == ConsoleSink)
    ensures forall j :: 0 <= j < i ==> sinks[j] != ConsoleSink
  {
    if sinks == [] || sinks[0] == ConsoleSink then 0 else 1 + FirstConsole(sinks[1..])
  }

  /** A log fan-out throws exactly when the console stamp fails and a console
      transport is in the list. */
  predicate Throws(sinks: seq<TransportKind>, moment: Moment) {
    moment.consoleTs.None? && FirstConsole(sinks) < |sinks|
  }

  /** The transports a log fan-out calls: all of them, or, when it throws,
      those up to and including the first console transport. */
  function Reached(sinks: seq<TransportKind>, moment: Moment): (r: seq<TransportKind>)
    ensures |r| <= |sinks| && r == sinks[..|r|]
    ensures !Throws(sinks, moment) ==> r == sinks
  {
    if Throws(sinks, moment) then sinks[..FirstConsole(sinks) + 1] else sinks
  }

  /** One transport's `flush()` (the console's does nothing). */
  function SinkFlush(hs: HubState, sink: TransportKind): HubState {
    match sink
    case ConsoleSink => hs.(calls := hs.calls + [FlushCall(sink)])
    case FileSink => hs.(file := Transport.FlushStep(hs.file), calls := hs.calls + [FlushCall(sink)])
  }

  function FlushFanout(hs: HubState, sinks: seq<TransportKind>): HubState {
    if sinks == [] then hs else SinkFlush(FlushFanout(hs, sinks[..|sinks| - 1]), sinks[|sinks| - 1])
  }

  /** One transport's `close()` (the console's does nothing). */
  function SinkClose(hs: HubState, sink: TransportKind): HubState {
    match sink
    case ConsoleSink => hs.(calls := hs.calls + [CloseCall(sink)])
    case FileSink => hs.(file := Transport.CloseStep(hs.file), calls := hs.calls + [CloseCall(sink)])
  }

  function CloseFanout(hs: HubState, sinks: seq<TransportKind>): HubState {
    if sinks == [] then hs else SinkClose(CloseFanout(hs, sinks[..|sinks| - 1]), sinks[|sinks| - 1])
  }

  /** `emit`: a record that passes the gate is fanned out to the transports. */
  function EmitStep(wopts: Transport.WriterOptions, env: Transport.Env, hs: HubState, sinks: seq<TransportKind>,
                    minLevelScore: Option<nat>, record: LogRecord, moment: Moment): Fanout {
    if Admits(minLevelScore, record.lvl) then LogFanout(wopts, env, hs, sinks, record, moment) else Fanout(hs, false)
  }

  /** Each transport the fan-out reaches receives the record exactly once, in
      list order; without a throw that is every transport. */
  lemma {:induction false} LogFanoutOrder(wopts: Transport.WriterOptions, env: Transport.Env, hs: HubState,
                                          sinks: seq<TransportKind>, record: LogRecord, moment: Moment)
    ensures var r := LogFanout(wopts, env, hs, sinks, record, moment).state;
      var n := |Reached(sinks, moment)|;
      |r.calls| == |hs.calls| + n && r.calls[..|hs.calls|] == hs.calls &&
      (forall k :: 0 <= k < n ==> r.calls[|hs.calls| + k] == LogCall(sinks[k], record)) &&
      (!Throws(sinks, moment) ==> n == |sinks|)
    decreases |sinks|
  {
    LogFanoutCalls(wopts, env, hs, sinks, record, moment);
  }

  /** The calls a fan-out of `log` records: one per transport, in list order. */
  function LogCalls(sinks: seq<TransportKind>, record: LogRecord): (r: seq<Call>)
    ensures |r| == |sinks| && forall k :: 0 <= k < |sinks| ==> r[k] == LogCall(sinks[k], record)
  {
    seq(|sinks|, k requires 0 <= k < |sinks| => LogCall(sinks[k], record))
  }

  /** The calls a fan-out makes are those of `Reached`, and it throws exactly
      when `Throws` says. */
  lemma {:induction false} LogFanoutCalls(wopts: Transport.WriterOptions, env: Transport.Env, hs: HubState,
                                          sinks: seq<TransportKind>, record: LogRecord, moment: Moment)
    ensures LogFanout(wopts, env, hs, sinks, record, moment).state.calls == hs.calls + LogCalls(Reached(sinks, moment), record)
    ensures LogFanout(wopts, env, hs, sinks, record, moment).threw <==> Throws(sinks, moment)
    decreases |sinks|
  {
    if sinks == [] {
      assert hs.calls + LogCalls([], record) == hs.calls;
    } else {
      var init := sinks[..|sinks| - 1];
      var last := sinks[|sinks| - 1];
      LogFanoutCalls(wopts, env, hs, init, record, moment);
      ReachedSnoc(sinks, moment);
      var prev := LogFanout(wopts, env, hs, init, record, moment);
      if !prev.threw {
        var next := SinkLog(wopts, env, prev.state, last, record, moment);
        assert LogFanout(wopts, env, hs, sinks, record, moment) == next;
        SinkLogCalls(wopts, env, prev.state, last, record, moment);
        assert LogCalls(sinks, record) == LogCalls(init, record) + [LogCall(last, record)];
      }
    }
  }

  /** How `Throws` and `Reached` grow by one transport: a list that already
      throws is unchanged, otherwise the new transport is reached and throws
      when it is the console without a stamp. */
  lemma ReachedSnoc(sinks: seq<TransportKind>, moment: Moment)
    requires sinks != []
    ensures var init := sinks[..|sinks| - 1];
      (Throws(init, moment) ==> Throws(sinks, moment) && Reached(sinks, moment) == Reached(init, moment)) &&
      (!Throws(init, moment) ==> Reached(sinks, moment) == sinks) &&
      (!Throws(init, moment) ==> (Throws(sinks, moment) <==> sinks[|sinks| - 1] == ConsoleSink && moment.consoleTs.None?))
  {
    var init := sinks[..|sinks| - 1];
    var i := FirstConsole(init);
    if i < |init| {
      assert sinks[i] == init[i];
      assert FirstConsole(sinks) == i;
      assert sinks[..i + 1] == init[..i + 1];
    } else {
      assert forall k :: 0 <= k < |init| ==> sinks[k] == init[k];
    }
  }

  /** A transport's `log` adds exactly one call to the record of calls, and
      only the console's can throw. */
  lemma SinkLogCalls(wopts: Transport.WriterOptions, env: Transport.Env, hs: HubState, sink: TransportKind,
                     record: LogRecord, moment: Moment)
    ensures SinkLog(wopts, env, hs, sink, record, moment).state.calls == hs.calls + [LogCall(sink, record)]
    ensures SinkLog(wopts, env, hs, sink, record, moment).threw <==> sink == ConsoleSink && moment.consoleTs.None?
  {
  }

  /** Once a prefix of the fan-out has thrown, the rest of the list is never
      reached. */
  lemma {:induction false} ThrowEndsFanout(wopts: Transport.WriterOptions, env: Transport.Env, hs: HubState,
                                           sinks: seq<TransportKind>, i: nat, record: LogRecord, moment: Moment)
    requires i <= |sinks| && LogFanout(wopts, env, hs, sinks[..i], record, moment).threw
    ensures LogFanout(wopts, env, hs, sinks, record, moment) == LogFanout(wopts, env, hs, sinks[..i], record, moment)
    decreases |sinks|
  {
    if i < |sinks| {
      var init := sinks[..|sinks| - 1];
      assert init[..i] == sinks[..i];
      ThrowEndsFanout(wopts, env, hs, init, i, record, moment);
    } else {
      assert sinks[..i] == sinks;
    }
  }

  /** Each transport is flushed exactly once, in list order. */
  lemma {:induction false} FlushFanoutOrder(hs: HubState, sinks: seq<TransportKind>)
    ensures var r := FlushFanout(hs, sinks);
      |r.calls| == |hs.calls| + |sinks| && r.calls[..|hs.calls|] == hs.calls &&
      forall k :: 0 <= k < |sinks| ==> r.calls[|hs.calls| + k] == FlushCall(sinks[k])
    decreases |sinks|
  {
    if sinks != [] {
      var init := sinks[..|sinks| - 1];
      FlushFanoutOrder(hs, init);
      assert forall k :: 0 <= k < |init| ==> init[k] == sinks[k];
    }
  }

  /** Each transport is closed exactly once, in list order. */
  lemma {:induction false} CloseFanoutOrder(hs: HubState, sinks: seq<TransportKind>)
    ensures var r := CloseFanout(hs, sinks);
      |r.calls| == |hs.calls| + |sinks| && r.calls[..|hs.calls|] == hs.calls &&
      forall k :: 0 <= k < |sinks| ==> r.calls[|hs.calls| + k] == CloseCall(sinks[k])
    decreases |sinks|
  {
    if sinks != [] {
      var init := sinks[..|sinks| - 1];
      CloseFanoutOrder(hs, init);
      assert forall k :: 0 <= k < |init| ==> init[k] == sinks[k];
    }
  }

  /** The logger's own transport list. With a console stamp the record is
      printed once, then handed to the segment writer's `log` once. Without
      one the console transport throws: nothing is printed, the segment
      writer never sees the record, and the exception escapes. */
  lemma StandardFanout(wopts: Transport.WriterOptions, env: Transport.Env, hs: HubState, record: LogRecord, moment: Moment)
    ensures var r := LogFanout(wopts, env, hs, [ConsoleSink, FileSink], record, moment);
      moment.consoleTs.Some? ==>
        !r.threw &&
        r.state.console == hs.console + [ConsoleFormat.FormatConsoleLine(record, moment.consoleTs.value, true)] &&
        r.state.file == Transport.LogStep(wopts, env, hs.file, record, moment.dateKey, moment.clock) &&
        r.state.calls == hs.calls + [LogCall(ConsoleSink, record), LogCall(FileSink, record)]
    ensures var r := LogFanout(wopts, env, hs, [ConsoleSink, FileSink], record, moment);
      moment.consoleTs.None? ==>
        r.threw && r.state.console == hs.console && r.state.file == hs.file &&
        r.state.calls == hs.calls + [LogCall(ConsoleSink, record)]
  {
    assert [ConsoleSink, FileSink][..1] == [ConsoleSink];
    assert [ConsoleSink][..0] == [];
    var one: seq<TransportKind> := [ConsoleSink];
    assert one[..|one| - 1] == [] && one[|one| - 1] == ConsoleSink;
    assert LogFanout(wopts, env, hs, [], record, moment) == Fanout(hs, false);
    var h1 := LogFanout(wopts, env, hs, one, record, moment);
    assert h1 == SinkLog(wopts, env, hs, ConsoleSink, record, moment);
  }

  /** A dropped level reaches no transport and changes nothing; an admitted
      one makes one call per transport reached and throws when the fan-out
      does. */
  lemma GateDecidesDelivery(wopts: Transport.WriterOptions, env: Transport.Env, hs: HubState, sinks: seq<TransportKind>,
                            minLevelScore: Option<nat>, record: LogRecord, moment: Moment)
    ensures var r := EmitStep(wopts, env, hs, sinks, minLevelScore, record, moment);
      |r.state.calls| == |hs.calls| + (if Admits(minLevelScore, record.lvl) then |Reached(sinks, moment)| else 0) &&
      (r.threw <==> Admits(minLevelScore, record.lvl) && Throws(sinks, moment)) &&
      (!Admits(minLevelScore, record.lvl) ==> r == Fanout(hs, false))
  {
    LogFanoutOrder(wopts, env, hs, sinks, record, moment);
    LogFanoutCalls(wopts, env, hs, sinks, record, moment);
  }

  // ---------------------------------------------------------------------------
  // Objects
  // ---------------------------------------------------------------------------

  /** The transports array, shared by a logger and all its children. */
  class Hub {
    const sinks: seq<TransportKind>
    const file: Transport.FileTransport
    var console: seq<string>
    var calls: seq<Call>

    function Snapshot(): HubState
      reads this, file
    {
      HubState(console, calls, file.State())
    }

    /** `[new ConsoleTransport(timezone), new FileTransport(opts)]`. */
    constructor (file: Transport.FileTransport)
      ensures sinks == [ConsoleSink, FileSink] && this.file == file && console == [] && calls == []
    {
      sinks := [ConsoleSink, FileSink];
      this.file := file;
      console := [];
      calls := [];
    }

    /** The fan-out loop; `threw` reports the exception that ends it. */
    method LogAll(record: LogRecord, moment: Moment) returns (threw: bool)
      modifies this, file
      ensures Fanout(Snapshot(), threw) == LogFanout(file.opts, file.env, old(Snapshot()), sinks, record, moment)
    {
      ghost var start := Snapshot();
      for i := 0 to |sinks|
        invariant Fanout(Snapshot(), false) == LogFanout(file.opts, file.env, start, sinks[..i], record, moment)
      {
        assert sinks[..i + 1][..i] == sinks[..i];
        match sinks[i] {
          case ConsoleSink =>
            if moment.consoleTs.None? {
              calls := calls + [LogCall(sinks[i], record)];
              ThrowEndsFanout(file.opts, file.env, start, sinks, i + 1, record, moment);
              return true;
            }
            console := console + [ConsoleFormat.FormatConsoleLine(record, moment.consoleTs.value, true)];
          case FileSink =>
            file.Log(record, moment.dateKey, moment.clock);
        }
        calls := calls + [LogCall(sinks[i], record)];
      }
      assert sinks[..|sinks|] == sinks;
      threw := false;
    }

    method FlushAll()
      modifies this, file
      ensures Snapshot() == FlushFanout(old(Snapshot()), sinks)
    {
      for i := 0 to |sinks|
        invariant Snapshot() == FlushFanout(old(Snapshot()), sinks[..i])
      {
        assert sinks[..i + 1][..i] == sinks[..i];
        if sinks[i] == FileSink {
          file.Flush();
        }
        calls := calls + [FlushCall(sinks[i])];
      }
      assert sinks[..|sinks|] == sinks;
    }

    method CloseAll()
      modifies this, file
      ensures Snapshot() == CloseFanout(old(Snapshot()), sinks)
    {
      for i := 0 to |sinks|
        invariant Snapshot() == CloseFanout(old(Snapshot()), sinks[..i])
      {
        assert sinks[..i + 1][..i] == sinks[..i];
        if sinks[i] == FileSink {
          file.Close();
        }
        calls := calls + [CloseCall(sinks[i])];
      }
      assert sinks[..|sinks|] == sinks;
    }
  }

  class IrikaLogger {
    const opts: Config.ResolvedOptions
    const hub: Hub
    /** `levelPriority[opts.level]`. */
    const minLevelScore: Option<nat> := Priority(opts.level)
    const moduleName: Option<string>
    const pid: int

    /** A root logger: the options are resolved (with the config file's parsed
        content as input) and fresh transports are created; the segment
        writer opens its first segment. */
    constructor (user: Config.UserOptions, fileConfig: Config.BaseOptions, env: Transport.Env,
                 disk: map<string, seq<string>>, pid: int, now: int, dateKey: string)
      ensures opts == Config.ResolveOptions(user, fileConfig) && moduleName.None? && this.pid == pid
      ensures minLevelScore == Priority(opts.level) && minLevelScore.Some?
      ensures fresh(hub) && fresh(hub.file) && hub.sinks == [ConsoleSink, FileSink]
      ensures hub.console == [] && hub.calls == []
      ensures hub.file.opts == WriterOptionsOf(opts, pid) && hub.file.env == env
      ensures hub.file.State() == Transport.InitState(WriterOptionsOf(opts, pid), disk, now, dateKey)
    {
      var resolved := Config.ResolveOptions(user, fileConfig);
      opts := resolved;
      var file := new Transport.FileTransport(WriterOptionsOf(resolved, pid), env, disk, now, dateKey);
      hub := new Hub(file);
      moduleName := None;
      this.pid := pid;
    }

    /** A logger over shared transports and options (the `shared` argument). */
    constructor Shared(hub: Hub, opts: Config.ResolvedOptions, moduleName: Option<string>, pid: int)
      ensures this.hub == hub && this.opts == opts && this.moduleName == moduleName && this.pid == pid
      ensures minLevelScore == Priority(opts.level)
    {
      this.hub := hub;
      this.opts := opts;
      this.moduleName := moduleName;
      this.pid := pid;
    }

    /** `child(moduleName)`: same transports, options and minimum level; only
        the module name differs. */
    method Child(name: string) returns (c: IrikaLogger)
      ensures fresh(c) && c.hub == hub && c.opts == opts && c.pid == pid
      ensures c.moduleName == Some(name) && c.minLevelScore == minLevelScore
    {
      c := new IrikaLogger.Shared(hub, opts, Some(name), pid);
    }

    /** `emit`; `threw` reports an exception escaping to the caller. */
    method Emit(level: Level, msg: string, ctx: Option<Context>, traceId: Option<string>, moment: Moment) returns (threw: bool)
      modifies hub, hub.file
      ensures Fanout(hub.Snapshot(), threw) ==
              EmitStep(hub.file.opts, hub.file.env, old(hub.Snapshot()), hub.sinks, minLevelScore,
                       RecordOf(opts, moduleName, pid, level, msg, ctx, traceId, moment.ts), moment)
    {
      if level != SYSTEM && minLevelScore.Some? && Priority(level).value < minLevelScore.value {
        return false;
      }
      var record := RecordOf(opts, moduleName, pid, level, msg, ctx, traceId, moment.ts);
      threw := hub.LogAll(record, moment);
    }

    method Verbose(msg: string, ctx: Option<Context>, traceId: Option<string>, moment: Moment) returns (threw: bool)
      modifies hub, hub.file
      ensures Fanout(hub.Snapshot(), threw) ==
              EmitStep(hub.file.opts, hub.file.env, old(hub.Snapshot()), hub.sinks, minLevelScore,
                       RecordOf(opts, moduleName, pid, VERBOSE, msg, ctx, traceId, moment.ts), moment)
    {
      threw := Emit(VERBOSE, msg, ctx, traceId, moment);
    }

    method Debug(msg: string, ctx: Option<Context>, traceId: Option<string>, moment: Moment) returns (threw: bool)
      modifies hub, hub.file
      ensures Fanout(hub.Snapshot(), threw) ==
              EmitStep(hub.file.opts, hub.file.env, old(hub.Snapshot()), hub.sinks, minLevelScore,
                       RecordOf(opts, moduleName, pid, DEBUG, msg, ctx, traceId, moment.ts), moment)
    {
      threw := Emit(DEBUG, msg, ctx, traceId, moment);
    }

    method Info(msg: string, ctx: Option<Context>, traceId: Option<string>, moment: Moment) returns (threw: bool)
      modifies hub, hub.file
      ensures Fanout(hub.Snapshot(), threw) ==
              EmitStep(hub.file.opts, hub.file.env, old(hub.Snapshot()), hub.sinks, minLevelScore,
                       RecordOf(opts, moduleName, pid, INFO, msg, ctx, traceId, moment.ts), moment)
    {
      threw := Emit(INFO, msg, ctx, traceId, moment);
    }

    method Warn(msg: string, ctx: Option<Context>, traceId: Option<string>, moment: Moment) returns (threw: bool)
      modifies hub, hub.file
      ensures Fanout(hub.Snapshot(), threw) ==
              EmitStep(hub.file.opts, hub.file.env, old(hub.Snapshot()), hub.sinks, minLevelScore,
                       RecordOf(opts, moduleName, pid, WARN, msg, ctx, traceId, moment.ts), moment)
    {
      threw := Emit(WARN, msg, ctx, traceId, moment);
    }

    method Error(msg: string, ctx: Option<Context>, traceId: Option<string>, moment: Moment) returns (threw: bool)
      modifies hub, hub.file
      ensures Fanout(hub.Snapshot(), threw) ==
              EmitStep(hub.file.opts, hub.file.env, old(hub.Snapshot()), hub.sinks, minLevelScore,
                       RecordOf(opts, moduleName, pid, ERROR, msg, ctx, traceId, moment.ts), moment)
    {
      threw := Emit(ERROR, msg, ctx, traceId, moment);
    }

    method Assert(msg: string, ctx: Option<Context>, traceId: Option<string>, moment: Moment) returns (threw: bool)
      modifies hub, hub.file
      ensures Fanout(hub.Snapshot(), threw) ==
              EmitStep(hub.file.opts, hub.file.env, old(hub.Snapshot()), hub.sinks, minLevelScore,
                       RecordOf(opts, moduleName, pid, ASSERT, msg, ctx, traceId, moment.ts), moment)
    {
      threw := Emit(ASSERT, msg, ctx, traceId, moment);
    }

    method Security(msg: string, ctx: Option<Context>, traceId: Option<string>, moment: Moment) returns (threw: bool)
      modifies hub, hub.file
      ensures Fanout(hub.Snapshot(), threw) ==
              EmitStep(hub.file.opts, hub.file.env, old(hub.Snapshot()), hub.sinks, minLevelScore,
                       RecordOf(opts, moduleName, pid, SECURITY, msg, ctx, traceId, moment.ts), moment)
    {
      threw := Emit(SECURITY, msg, ctx, traceId, moment);
    }

    method Performance(msg: string, ctx: Option<Context>, traceId: Option<string>, moment: Moment) returns (threw: bool)
      modifies hub, hub.file
      ensures Fanout(hub.Snapshot(), threw) ==
              EmitStep(hub.file.opts, hub.file.env, old(hub.Snapshot()), hub.sinks, minLevelScore,
                       RecordOf(opts, moduleName, pid, PERFORMANCE, msg, ctx, traceId, moment.ts), moment)
    {
      threw := Emit(PERFORMANCE, msg, ctx, traceId, moment);
    }

    method Flush()
      modifies hub, hub.file
      ensures hub.Snapshot() == FlushFanout(old(hub.Snapshot()), hub.sinks)
    {
      hub.FlushAll();
    }

    method Close()
      modifies hub, hub.file
      ensures hub.Snapshot() == CloseFanout(old(hub.Snapshot()), hub.sinks)
    {
      hub.CloseAll();
    }
  }
}
