/** What the whole program promises: the startup gates run no cycle,
    `--runonce` runs exactly one and never sleeps, and without it a failed
    scrape never ends the loop. */
module RunProperties {
  import opened Values
  import opened Trace
  import opened CommandLine
  import opened WallboxConfig
  import opened Schedule
  import opened Exports
  import opened PollCycle
  import opened Daemon

  /** Loading makes only `configure` calls. */
  lemma {:induction false} ConfigureOnly(exports: seq<ActiveExport>)
    ensures Count(ConfigureEvents(exports), Scrape) == 0
    ensures SleepCount(ConfigureEvents(exports)) == 0
  {
    var es := ConfigureEvents(exports);
    assert forall i :: 0 <= i < |es| ==> es[i].Configure?;
    assert Scrape !in es;
    CountAbsent(es, Scrape);
    NoSleep(es);
  }

  /** A startup gate that fails (options, config file, `wallbox` section, registers file, host, or the
      first connection check) ends the program before any poll cycle: nothing is scraped or published. */
  lemma {:induction false} GatesRunNoCycle(w: World)
    requires Startup(w.opts, w.configDoc, w.registersDoc).Halt? || !w.reachable
    ensures Program(w).outcome != Running
    ensures Count(Program(w).events, Scrape) == 0 && Published(Program(w).events) == []
    ensures Program(w).events == [] || Program(w).events == [CheckConnection]
  {
    if Startup(w.opts, w.configDoc, w.registersDoc).Go? {
      assert Program(w).events == [CheckConnection];
      assert Program(w).events[1..] == [];
    }
  }

  /** A `wallbox` section without a truthy `host` ends the program with status 1 before the device client is made. */
  lemma {:induction false} MissingHostExits(w: World, top: map<string, Value>, section: map<string, Value>)
    requires w.opts.Some? && ResolveOptions(w.opts.value).Proceed?
    requires w.configDoc == Some(VMap(top))
    requires "wallbox" in top && top["wallbox"] == VMap(section) && section != map[]
    requires w.registersDoc.Some? && w.registersDoc.value.VMap?
    requires "host" !in section || !Truthy(section["host"])
    ensures Program(w) == RunResult(Exited(1), [])
  {
    NoHostIsFalsy(section);
  }

  /** A missing or empty `wallbox` section ends the program with status 1, before the registers file is even read. */
  lemma MissingSectionExits(w: World, top: map<string, Value>)
    requires w.opts.Some? && ResolveOptions(w.opts.value).Proceed?
    requires w.configDoc == Some(VMap(top))
    requires "wallbox" !in top || !Truthy(top["wallbox"])
    ensures Program(w) == RunResult(Exited(1), [])
  {
  }

  /** The calls of one cycle hold no sleep. */
  lemma {:induction false} PollNeverSleeps(exports: seq<ActiveExport>, persistent: bool, scrape: ScrapeOutcome, raising: set<nat>)
    ensures SleepCount(Poll(exports, persistent, scrape, raising).events) == 0
  {
    var p := Poll(exports, persistent, scrape, raising);
    PublishOnly(exports, raising);
    var q := PublishAll(exports, raising).events;
    forall i | 0 <= i < |p.events| ensures !p.events[i].Sleep? {
      if scrape == ScrapeTruthy && 2 <= i < 2 + |q| {
        assert p.events[i] == q[i - 2];
      }
    }
    NoSleep(p.events);
  }

  /** With `--runonce`, the run past startup is the setup calls, the `configure` calls and one poll cycle. */
  lemma {:induction false} RunOnceShape(w: World)
    requires Startup(w.opts, w.configDoc, w.registersDoc).Go?
    requires Startup(w.opts, w.configDoc, w.registersDoc).settings.runOnce
    requires w.reachable && |w.cycles| >= 1
    requires !LoadExports(Startup(w.opts, w.configDoc, w.registersDoc).exportsValue, w.plugins).crashed
    ensures var launch := Startup(w.opts, w.configDoc, w.registersDoc);
      var persistent := Persistent(launch.wallbox);
      var loaded := LoadExports(launch.exportsValue, w.plugins);
      var p := Poll(loaded.exports, persistent, w.cycles[0].scrape, w.cycles[0].raising);
      Program(w) == RunResult(if p.crashed then Crashed else Exited(0),
        ([CheckConnection, ConfigureRegisters] + (if persistent then [] else [Close]))
        + ConfigureEvents(loaded.exports) + p.events)
  {
    var launch := Startup(w.opts, w.configDoc, w.registersDoc);
    var persistent := Persistent(launch.wallbox);
    var loaded := LoadExports(launch.exportsValue, w.plugins);
    assert Program(w) == Launched(w, launch.settings, launch.wallbox, launch.exportsValue);
    CyclesUnfold(loaded.exports, persistent, launch.wallbox.scanInterval, true, w.cycles, 0);
    assert w.cycles[0..] == w.cycles;
  }

  /** With `--runonce`, once startup passes: exactly one cycle runs and nothing sleeps. The program crashes
      exactly when the scrape was truthy and some loaded export's `publish` raises; otherwise it exits with status 0. */
  lemma {:induction false} RunOnceSingleCycle(w: World)
    requires Startup(w.opts, w.configDoc, w.registersDoc).Go?
    requires Startup(w.opts, w.configDoc, w.registersDoc).settings.runOnce
    requires w.reachable && |w.cycles| >= 1
    requires !LoadExports(Startup(w.opts, w.configDoc, w.registersDoc).exportsValue, w.plugins).crashed
    ensures Count(Program(w).events, Scrape) == 1
    ensures SleepCount(Program(w).events) == 0
    ensures Program(w).outcome == Exited(0) || (Program(w).outcome == Crashed && w.cycles[0].scrape == ScrapeTruthy)
    ensures w.cycles[0].scrape != ScrapeTruthy ==> Program(w).outcome == Exited(0)
    ensures Program(w).outcome == Crashed <==>
      w.cycles[0].scrape == ScrapeTruthy
      && !NoneRaise(LoadExports(Startup(w.opts, w.configDoc, w.registersDoc).exportsValue, w.plugins).exports, w.cycles[0].raising)
  {
    var launch := Startup(w.opts, w.configDoc, w.registersDoc);
    var loaded := LoadExports(launch.exportsValue, w.plugins);
    RunOnceShape(w);
    OneCycleCounts(loaded.exports, Persistent(launch.wallbox), w.cycles[0]);
    PublishAllCrashesIffRaise(loaded.exports, w.cycles[0].raising);
  }

  /** The setup calls, the `configure` calls and one poll cycle scrape once and never sleep. */
  lemma {:induction false} OneCycleCounts(exports: seq<ActiveExport>, persistent: bool, c: CycleInput)
    ensures var p := Poll(exports, persistent, c.scrape, c.raising);
      var events := ([CheckConnection, ConfigureRegisters] + (if persistent then [] else [Close]))
        + ConfigureEvents(exports) + p.events;
      Count(events, Scrape) == 1 && SleepCount(events) == 0 && (c.scrape != ScrapeTruthy ==> !p.crashed)
  {
    var setup := [CheckConnection, ConfigureRegisters] + (if persistent then [] else [Close]);
    var configure := ConfigureEvents(exports);
    var p := Poll(exports, persistent, c.scrape, c.raising);
    ConfigureOnly(exports);
    PollStartsWithCheck(exports, persistent, c.scrape, c.raising);
    PollNeverSleeps(exports, persistent, c.scrape, c.raising);
    NoSleep(setup);
    assert Scrape !in setup;
    CountAbsent(setup, Scrape);
    CountAppend(setup, configure, Scrape);
    CountAppend(setup + configure, p.events, Scrape);
    SleepCountAppend(setup, configure);
    SleepCountAppend(setup + configure, p.events);
  }

  lemma {:induction false} SleepCountAppend(a: seq<Event>, b: seq<Event>)
    ensures SleepCount(a + b) == SleepCount(a) + SleepCount(b)
  {
    if a == [] {
      assert a + b == b;
    } else {
      assert (a + b)[1..] == a[1..] + b;
      SleepCountAppend(a[1..], b);
    }
  }

  /** How many of the cycles scrape unsuccessfully. */
  function FailedScrapes(cycles: seq<CycleInput>): (r: nat)
    decreases |cycles|
  {
    if cycles == [] then 0
    else (if cycles[0].scrape == ScrapeTruthy then 0 else 1) + FailedScrapes(cycles[1..])
  }

  /** Without `--runonce`, with an integer scan interval and no `publish` raising, failed scrapes never end
      the loop: every cycle checks and scrapes exactly once, and each failed one disconnects exactly once. */
  lemma {:induction false} LoopSurvivesFailedScrapes(
    exports: seq<ActiveExport>, persistent: bool, interval: Value, cycles: seq<CycleInput>)
    requires IntervalCentis(interval).Some?
    requires forall i :: 0 <= i < |cycles| ==> NoneRaise(exports, cycles[i].raising)
    ensures var r := Cycles(exports, persistent, interval, false, cycles);
      && r.outcome == Running
      && Count(r.events, Scrape) == |cycles|
      && Count(r.events, Disconnect) == FailedScrapes(cycles)
    decreases |cycles|
  {
    if cycles != [] {
      var step := CycleStep(exports, persistent, interval, false, cycles[0]);
      var rest := Cycles(exports, persistent, interval, false, cycles[1..]);
      LoopSurvivesFailedScrapes(exports, persistent, interval, cycles[1..]);
      SurvivingCycle(exports, persistent, interval, cycles[0]);
      assert FailedScrapes(cycles) == (if cycles[0].scrape == ScrapeTruthy then 0 else 1) + FailedScrapes(cycles[1..]);
      CountAppend(step.events, rest.events, Scrape);
      CountAppend(step.events, rest.events, Disconnect);
    }
  }

  /** One cycle without `--runonce`, with an integer scan interval and no `publish` raising, goes on to the
      next: it scrapes once, and disconnects once exactly when the scrape failed. */
  lemma {:induction false} SurvivingCycle(exports: seq<ActiveExport>, persistent: bool, interval: Value, c: CycleInput)
    requires IntervalCentis(interval).Some?
    requires NoneRaise(exports, c.raising)
    ensures var step := CycleStep(exports, persistent, interval, false, c);
      && !step.stop
      && Count(step.events, Scrape) == 1
      && Count(step.events, Disconnect) == (if c.scrape == ScrapeTruthy then 0 else 1)
  {
    var p := Poll(exports, persistent, c.scrape, c.raising);
    var d := SleepRule(IntervalCentis(interval).value, c.processing);
    var sleep := [Sleep(d.centis, d.slow)];
    PollStartsWithCheck(exports, persistent, c.scrape, c.raising);
    if c.scrape == ScrapeTruthy {
      PollSuccessCloses(exports, persistent, c.raising);
      PublishAllInOrder(exports, c.raising);
    } else {
      PollFailure(exports, persistent, c.scrape, c.raising);
    }
    assert Scrape !in sleep && Disconnect !in sleep;
    CountAbsent(sleep, Scrape);
    CountAbsent(sleep, Disconnect);
    CountAppend(p.events, sleep, Scrape);
    CountAppend(p.events, sleep, Disconnect);
  }

  /** A 30-second interval, a 2-second cycle and two exports: both are published in order, the connection
      is closed, and the loop sleeps 28 seconds. */
  lemma ExampleTwoExports()
    ensures Cycles([ActiveExport(0, "mqtt"), ActiveExport(1, "webserver")], false, VInt(30), false,
                   [CycleInput(true, ScrapeTruthy, {}, 200)])
      == RunResult(Running, [CheckConnection, Scrape, Publish(0), Publish(1), Close, Sleep(2800, false)])
  {
  }

  /** A 30-second interval and a scrape that times out: the client is disconnected, nothing is published,
      and the next cycle starts after the rest of the interval. */
  lemma ExampleScrapeTimeout()
    ensures Cycles([ActiveExport(0, "mqtt")], false, VInt(30), false, [CycleInput(true, ScrapeRaises, {}, 150)])
      == RunResult(Running, [CheckConnection, Scrape, Disconnect, Sleep(2850, false)])
  {
  }

  /** Once startup passes, the console handler's level is the last `-v` on the command line when one was
      given, and the section's `log_console` otherwise. */
  lemma {:induction false} ConsoleLevelOfRun(opts: Option<seq<Opt>>, configDoc: Option<Value>, registersDoc: Option<Value>)
    ensures var launch := Startup(opts, configDoc, registersDoc);
      launch.Go? ==>
        && opts.Some?
        && (LastLevel(opts.value).Some? ==> launch.logging.handlers[0].level == VInt(LastLevel(opts.value).value))
        && (LastLevel(opts.value).None? ==> launch.logging.handlers[0].level == launch.wallbox.logConsole)
  {
    if opts.Some? {
      OptionsOutcomeOfMain(opts.value);
    }
  }
}
