/** `main()` of the wallbox daemon: read the options, resolve the config, gate
    on the host and the first connection check, load the exports, then run
    poll cycles with a sleep between them until `--runonce` or an uncaught
    exception ends the program. Every answer from the outside world (the
    YAML documents, the import table, the device's replies, the processing
    time of each cycle) is an input. */
module Daemon {
  import opened Values
  import opened Trace
  import opened CommandLine
  import opened WallboxConfig
  import opened Schedule
  import opened Exports
  import opened PollCycle

  /** How the program ends: `sys.exit(status)` (a message given to `sys.exit` means status 1),
      an uncaught exception, or still inside `while True` when the modelled cycles run out. */
  datatype Outcome = Exited(status: nat) | Crashed | Running

  /** What the outside world does during one cycle: the answer of `checkConnection` (unused),
      what `scrape` does, which exports' `publish` raises, and the rounded processing time. */
  datatype CycleInput = CycleInput(connected: bool, scrape: ScrapeOutcome, raising: set<nat>, processing: nat)

  /** Everything `main()` reads: the options `getopt` splits off (None when it rejects the command line),
      the config and registers documents (None when opening or parsing the file fails), the import table,
      the first connection check, and the cycles. */
  datatype World = World(
    opts: Option<seq<Opt>>,
    configDoc: Option<Value>,
    registersDoc: Option<Value>,
    plugins: PluginTable,
    reachable: bool,
    cycles: seq<CycleInput>)

  datatype RunResult = RunResult(outcome: Outcome, events: seq<Event>)

  /** Startup before the device client exists: either the program has ended, or it goes on with these settings. */
  datatype Launch =
    | Halt(outcome: Outcome)
    | Go(settings: Settings, wallbox: WallboxSettings, logging: LoggingSetup, exportsValue: Value)

  /** `main()` up to the creation of the device client: a rejected command line, `-h` or a bad `-v`, an
      unreadable config file, a falsy `wallbox` section, an unreadable registers file or a falsy `host`
      each end the program, in that order. */
  function Startup(opts: Option<seq<Opt>>, configDoc: Option<Value>, registersDoc: Option<Value>): (r: Launch)
    ensures r.Halt? ==> r.outcome != Running
    ensures r.Go? ==> opts.Some? && ResolveOptions(opts.value) == Proceed(r.settings) && Truthy(r.wallbox.host)
  {
    if opts.None? then Halt(Exited(1))
    else match ResolveOptions(opts.value)
    case Stop(status) => Halt(Exited(status))
    case Proceed(s) =>
      if configDoc.None? then Halt(Exited(1))
      else if !configDoc.value.VMap? then Halt(Crashed)
      else
        var section := Get(configDoc.value.entries, "wallbox", VNone);
        if !Truthy(section) then Halt(Exited(1))
        else if registersDoc.None? || !registersDoc.value.VMap? then Halt(Exited(1))
        else if !section.VMap? then Halt(Crashed)
        else
          var config := ResolveWallbox(section.entries);
          if !Truthy(config.host) then Halt(Exited(1))
          else Go(s, config, SetUpLogging(s.logLevel, config, s.logFolder), Get(configDoc.value.entries, "exports", VNone))
  }

  /** The connection stays open between cycles only when it is "http". */
  predicate Persistent(config: WallboxSettings) {
    config.connection == VStr("http")
  }

  /** One pass of the `while True` body: the calls it makes, and whether it ends the program and how. */
  datatype Step = Step(events: seq<Event>, stop: bool, outcome: Outcome)

  function CycleStep(exports: seq<ActiveExport>, persistent: bool, interval: Value, runOnce: bool, c: CycleInput): (r: Step)
    ensures r.stop <==> r.outcome != Running
    ensures r.outcome == Running || r.outcome == Crashed || r.outcome == Exited(0)
    ensures !r.stop ==> |r.events| >= 1 && r.events[|r.events| - 1].Sleep?
  {
    var p := Poll(exports, persistent, c.scrape, c.raising);
    if p.crashed then Step(p.events, true, Crashed)
    else if runOnce then Step(p.events, true, Exited(0))
    else match IntervalCentis(interval)
      case None => Step(p.events, true, Crashed)
      case Some(centis) =>
        var d := SleepRule(centis, c.processing);
        Step(p.events + [Sleep(d.centis, d.slow)], false, Running)
  }

  /** The poll loop over the given cycles. */
  function Cycles(exports: seq<ActiveExport>, persistent: bool, interval: Value, runOnce: bool, cycles: seq<CycleInput>): (r: RunResult)
    ensures r.outcome == Running || r.outcome == Crashed || r.outcome == Exited(0)
    decreases |cycles|
  {
    if cycles == [] then RunResult(Running, [])
    else
      var step := CycleStep(exports, persistent, interval, runOnce, cycles[0]);
      if step.stop then RunResult(step.outcome, step.events)
      else
        var rest := Cycles(exports, persistent, interval, runOnce, cycles[1..]);
        RunResult(rest.outcome, step.events + rest.events)
  }

  /** The cycles from number `i` on: cycle `i`, then, unless it stops, the cycles after it. */
  lemma {:induction false} CyclesUnfold(exports: seq<ActiveExport>, persistent: bool, interval: Value, runOnce: bool, cycles: seq<CycleInput>, i: nat)
    requires i < |cycles|
    ensures var step := CycleStep(exports, persistent, interval, runOnce, cycles[i]);
      var next := Cycles(exports, persistent, interval, runOnce, cycles[i + 1..]);
      Cycles(exports, persistent, interval, runOnce, cycles[i..])
        == if step.stop then RunResult(step.outcome, step.events) else RunResult(next.outcome, step.events + next.events)
  {
    assert cycles[i..][0] == cycles[i] && cycles[i..][1..] == cycles[i + 1..];
  }

  /** `current` is where the run stands with `rest` still to come, on the way to `all` from `initial`. */
  ghost predicate Resumes(all: RunResult, initial: seq<Event>, current: seq<Event>, rest: RunResult) {
    all.outcome == rest.outcome && initial + all.events == current + rest.events
  }

  /** Running cycle `i` moves the run on: to its end when the cycle stops, to cycle `i + 1` otherwise. */
  lemma {:induction false} CycleAdvances(exports: seq<ActiveExport>, persistent: bool, interval: Value, runOnce: bool, cycles: seq<CycleInput>,
                      i: nat, all: RunResult, initial: seq<Event>, before: seq<Event>, after: seq<Event>, stop: bool, outcome: Outcome)
    requires i < |cycles|
    requires Resumes(all, initial, before, Cycles(exports, persistent, interval, runOnce, cycles[i..]))
    requires var step := CycleStep(exports, persistent, interval, runOnce, cycles[i]);
      after == before + step.events && stop == step.stop && (stop ==> outcome == step.outcome)
    ensures stop ==> outcome == all.outcome && after == initial + all.events
    ensures !stop ==> Resumes(all, initial, after, Cycles(exports, persistent, interval, runOnce, cycles[i + 1..]))
  {
    var step := CycleStep(exports, persistent, interval, runOnce, cycles[i]);
    var next := Cycles(exports, persistent, interval, runOnce, cycles[i + 1..]);
    CyclesUnfold(exports, persistent, interval, runOnce, cycles, i);
    if !stop {
      assert initial + all.events == before + (step.events + next.events);
    }
  }

  /** The whole program, as a function of what it reads. */
  function Program(w: World): (r: RunResult)
    ensures r.events != [] <==> Startup(w.opts, w.configDoc, w.registersDoc).Go?
  {
    match Startup(w.opts, w.configDoc, w.registersDoc)
    case Halt(o) => RunResult(o, [])
    case Go(s, config, _, exportsValue) => Launched(w, s, config, exportsValue)
  }

  /** The program from the creation of the device client on. */
  function Launched(w: World, s: Settings, config: WallboxSettings, exportsValue: Value): (r: RunResult)
    ensures r.events != [] && r.events[0] == CheckConnection
    ensures r.outcome == Exited(1) <==> !w.reachable
  {
    var persistent := Persistent(config);
    if !w.reachable then RunResult(Exited(1), [CheckConnection])
    else
      var setup := [CheckConnection, ConfigureRegisters] + (if persistent then [] else [Close]);
      var loaded := LoadExports(exportsValue, w.plugins);
      var before := setup + ConfigureEvents(loaded.exports);
      if loaded.crashed then RunResult(Crashed, before)
      else
        var rest := Cycles(loaded.exports, persistent, config.scanInterval, s.runOnce, w.cycles);
        RunResult(rest.outcome, before + rest.events)
  }

  /** The state `main()` keeps once the device client exists: the calls made so far on the client
      and the plugins (with the sleeps), and the `exports` list. */
  class Session {
    var events: seq<Event>
    var exports: seq<ActiveExport>
    const persistent: bool

    constructor (persistent: bool)
      ensures events == [] && exports == [] && this.persistent == persistent
    {
      events := [];
      exports := [];
      this.persistent := persistent;
    }

    /** `wallbox.checkConnection()`, answered by the device. */
    method CheckConnection(answer: bool) returns (ok: bool)
      modifies this`events
      ensures events == old(events) + [Event.CheckConnection] && ok == answer
    {
      events := events + [Event.CheckConnection];
      ok := answer;
    }

    /** `wallbox.configure_registers(registersfile)`, then `close()` unless the connection is "http". */
    method PrepareDevice()
      modifies this`events
      ensures events == old(events) + [ConfigureRegisters] + (if persistent then [] else [Close])
    {
      events := events + [ConfigureRegisters];
      if !persistent {
        events := events + [Close];
      }
    }

    /** The export-loading loop: each plugin is appended, then configured; the result of `configure`
        and any exception it raises are ignored. */
    method LoadPlugins(exportsValue: Value, plugins: PluginTable) returns (crashed: bool)
      modifies this
      ensures var l := LoadExports(exportsValue, plugins);
        && exports == l.exports && crashed == l.crashed
        && events == old(events) + ConfigureEvents(l.exports)
    {
      exports := [];
      if !Truthy(exportsValue) {
        return false;
      }
      if !exportsValue.VList? {
        return true;
      }
      var entries := exportsValue.items;
      assert [] + LoadFrom(entries, 0, plugins).exports == LoadFrom(entries, 0, plugins).exports;
      for i := 0 to |entries|
        invariant LoadedUpTo(entries, i, plugins, exports)
        invariant events == old(events) + ConfigureEvents(exports)
      {
        var entry := entries[i];
        if !entry.VMap? {
          return true;
        }
        LoadAdvances(entries, i, plugins, exports);
        if Enabled(entry.entries) {
          var name := Lookup(entry.entries, plugins);
          if name.Some? {
            exports := exports + [ActiveExport(i, name.value)];
            // `configure` is called; its result and any exception it raises are discarded
            events := events + [Configure(i)];
          }
        }
      }
      assert exports + [] == exports;
      return false;
    }

    /** The `for export in exports` loop of a successful cycle: `publish` on each export in turn, with no
        `try`, so an export that raises ends the program there. */
    method PublishEach(raising: set<nat>) returns (crashed: bool)
      modifies this`events
      ensures var p := PublishAll(exports, raising);
        events == old(events) + p.events && crashed == p.crashed
    {
      var list := exports;
      ghost var start := events;
      for i := 0 to |list|
        invariant NoneRaise(list[..i], raising)
        invariant events == start + PublishCalls(list, i)
      {
        PublishStep(list, raising, i);
        events := events + [Publish(list[i].position)];
        if list[i].position in raising {
          return true;
        }
      }
      assert list[..|list|] == list;
      PublishAllInOrder(list, raising);
      return false;
    }

    /** One cycle up to the processing-time measurement. The answer of `checkConnection` is dropped,
        and a `scrape` that raises counts as a falsy one. */
    method PollOnce(connected: bool, scrape: ScrapeOutcome, raising: set<nat>) returns (crashed: bool)
      modifies this`events
      ensures var p := Poll(exports, persistent, scrape, raising);
        events == old(events) + p.events && crashed == p.crashed
    {
      var _ := CheckConnection(connected);
      events := events + [Scrape];
      var success := scrape == ScrapeTruthy;
      if success {
        crashed := PublishEach(raising);
        if crashed {
          return;
        }
        if !persistent {
          events := events + [Close];
        }
      } else {
        events := events + [Disconnect];
      }
      return false;
    }

    /** `time.sleep` for the duration the sleep rule chose. */
    method SleepFor(d: SleepDecision)
      modifies this`events
      ensures events == old(events) + [Sleep(d.centis, d.slow)]
    {
      events := events + [Sleep(d.centis, d.slow)];
    }

    /** One pass of the `while True` body: poll, stop under `--runonce`, otherwise sleep as the sleep rule says. */
    method CycleOnce(interval: Value, runOnce: bool, c: CycleInput) returns (stop: bool, outcome: Outcome)
      modifies this`events
      ensures var step := CycleStep(exports, persistent, interval, runOnce, c);
        events == old(events) + step.events && stop == step.stop && (stop ==> outcome == step.outcome)
    {
      var crashed := PollOnce(c.connected, c.scrape, c.raising);
      if crashed {
        return true, Crashed;
      }
      if runOnce {
        return true, Exited(0);
      }
      var centis := IntervalCentis(interval);
      if centis.None? {
        return true, Crashed;
      }
      SleepFor(SleepRule(centis.value, c.processing));
      return false, Running;
    }

    /** The `while True` loop over the given cycles. */
    method RunCycles(interval: Value, runOnce: bool, cycles: seq<CycleInput>) returns (outcome: Outcome)
      modifies this`events
      ensures var t := Cycles(exports, persistent, interval, runOnce, cycles);
        outcome == t.outcome && events == old(events) + t.events
    {
      ghost var initial := events;
      ghost var list := exports;
      ghost var all := Cycles(list, persistent, interval, runOnce, cycles);
      assert cycles[0..] == cycles;
      for i := 0 to |cycles|
        invariant exports == list
        invariant Resumes(all, initial, events, Cycles(list, persistent, interval, runOnce, cycles[i..]))
      {
        ghost var before := events;
        var stop;
        stop, outcome := CycleOnce(interval, runOnce, cycles[i]);
        CycleAdvances(list, persistent, interval, runOnce, cycles, i, all, initial, before, events, stop, outcome);
        if stop {
          return;
        }
      }
      assert cycles[|cycles|..] == [];
      outcome := Running;
    }
  }

  /** Startup as `main()` runs it, up to the creation of the device client. */
  method Start(opts: Option<seq<Opt>>, configDoc: Option<Value>, registersDoc: Option<Value>) returns (launch: Launch)
    ensures launch == Startup(opts, configDoc, registersDoc)
  {
    if opts.None? {
      return Halt(Exited(1));
    }
    var options := ProcessOptions(opts.value);
    if options.Stop? {
      return Halt(Exited(options.status));
    }
    var s := options.settings;
    if configDoc.None? {
      return Halt(Exited(1));
    }
    var configfile := configDoc.value;
    if !configfile.VMap? {
      return Halt(Crashed);
    }
    var section := Get(configfile.entries, "wallbox", VNone);
    if !Truthy(section) {
      return Halt(Exited(1));
    }
    if registersDoc.None? || !registersDoc.value.VMap? {
      return Halt(Exited(1));
    }
    if !section.VMap? {
      return Halt(Crashed);
    }
    var config := ResolveWallbox(section.entries);
    var logging := SetUpLogging(s.logLevel, config, s.logFolder);
    if !Truthy(config.host) {
      return Halt(Exited(1));
    }
    return Go(s, config, logging, Get(configfile.entries, "exports", VNone));
  }

  /** `main()`: the result and the calls it makes are those of `Program`. */
  method Run(w: World) returns (r: RunResult)
    ensures r == Program(w)
  {
    var launch := Start(w.opts, w.configDoc, w.registersDoc);
    if launch.Halt? {
      return RunResult(launch.outcome, []);
    }
    var config := launch.wallbox;
    var persistent := Persistent(config);
    assert Program(w) == Launched(w, launch.settings, config, launch.exportsValue);
    var session := new Session(persistent);
    var ok := session.CheckConnection(w.reachable);
    if !ok {
      return RunResult(Exited(1), session.events);
    }
    session.PrepareDevice();
    ghost var setup := session.events;
    assert setup == [CheckConnection, ConfigureRegisters] + (if persistent then [] else [Close]);
    var crashed := session.LoadPlugins(launch.exportsValue, w.plugins);
    ghost var loaded := LoadExports(launch.exportsValue, w.plugins);
    assert session.exports == loaded.exports;
    assert session.events == setup + ConfigureEvents(loaded.exports);
    if crashed {
      return RunResult(Crashed, session.events);
    }
    ghost var before := session.events;
    var outcome := session.RunCycles(config.scanInterval, launch.settings.runOnce, w.cycles);
    ghost var rest := Cycles(loaded.exports, persistent, config.scanInterval, launch.settings.runOnce, w.cycles);
    assert outcome == rest.outcome && session.events == before + rest.events;
    return RunResult(outcome, session.events);
  }
}
