# SunGather wallbox daemon: `main()` as a verified model

`SunGather/wallbox.py` is a small daemon that polls a Sungrow wallbox and hands
every successful reading to export plugins. Its `main()` runs these steps in
order:

- read the command-line options;
- load the YAML config and the registers file;
- build `config_wallbox` from the `wallbox` section, filling in defaults;
- choose the console level and the optional rotating log file;
- refuse to start without a host or a reachable device;
- load the enabled export plugins;
- loop forever: check the connection, scrape, publish or disconnect, then
  sleep for the rest of the scan interval. Under `--runonce` it exits after
  the first cycle instead of sleeping.

This project models that `main()` in Dafny. Everything the program reads from
outside is an input to the model:

- the parsed options, or a rejection by `getopt`;
- the two YAML documents;
- the table of plugins that `importlib` can build, with what each one's
  `configure` does;
- the device's answers;
- which `publish` calls raise;
- the rounded processing time of each cycle.

What the program does to the outside world is a trace of `Event`s:

- `checkConnection`, `configure_registers`, `scrape`, `close` and
  `disconnect` on the device client;
- `configure(i)` and `publish(i)` on the plugin built from entry `i` of the
  `exports` list;
- every `time.sleep`.

How the program ends is an `Outcome`: `Exited(status)`, `Crashed` for an
uncaught exception, or `Running` when the given cycles run out inside
`while True`.

Modules:

- `Values` (values.dfy): YAML values, Python truthiness and `dict.get`.
- `Trace` (trace.dfy): events, and counting them in a trace.
- `CommandLine` (options.dfy): the options loop and the `-v` check. The method
  `ProcessOptions` is proved equal to the function `ResolveOptions`.
- `WallboxConfig` (config.dfy): `config_wallbox` and its defaults, the console
  level, and the `log_file` choice.
- `Schedule` (schedule.dfy): the sleep rule in hundredths of a second.
- `Exports` (exports.dfy): which plugins loading keeps, and the `configure`
  calls it makes.
- `PollCycle` (cycle.dfy): one pass of the loop body up to the time
  measurement, as a trace.
- `Daemon` (daemon.dfy):
  - the startup gates;
  - the cycle step and the bounded loop;
  - the function `Program` for the whole run;
  - the class `Session`, which holds the trace and the `exports` list that
    `main()` builds up in place. Its methods are the export-loading loop, the
    publish loop, one cycle and the poll loop, each proved against the
    functions above. `Run` is proved equal to `Program`.
- `RunProperties` (properties.dfy): whole-program properties:
  - gating;
  - `--runonce`;
  - the loop surviving failed scrapes;
  - two concrete runs, traced call by call.

Two behaviours of the code are easy to miss, and the model states both:

- **Plugins whose `configure` fails stay loaded.** The code appends the plugin
  to `exports` before it calls `configure`, and ignores both the result and any
  exception (`wallbox.py` lines 140-144). See `Exports.ConfigureResultIgnored`.
- **A failing `publish` is not contained.** The publish loop has no `try`
  (lines 162-163): an exception ends the program, and later plugins are not
  called. See `PollCycle.PollPublishRaises`.

## Model

| member | source | states |
|---|---|---|
| `Values.Get` | SunGather/wallbox.py:83-95 | a key present in the section wins, even when its value is None; an absent key gives the default |
| `CommandLine.ParseVerbosity` | SunGather/wallbox.py:47-56 | `-v` is accepted exactly when its argument is all digits with a value of at most 50, and the level is that value; otherwise exit status 2 follows |
| `CommandLine.VerbosityRoundTrip` | SunGather/wallbox.py:47-53 | every level from 0 to 50 written in decimal is accepted with its own value, and every larger one is refused |
| `CommandLine.DigitsValueOfDecimal` | SunGather/wallbox.py:48-50 | `int()` of the decimal rendering of n is n |
| `CommandLine.ProcessOptions` | SunGather/wallbox.py:25-58 | the options loop, with its early `sys.exit` returns, ends exactly as `ResolveOptions` says |
| `CommandLine.StopsAtFirstTerminating` | SunGather/wallbox.py:25-58 | the loop stops exactly when some option is `-h` or a bad `-v`; the first such option decides the status (0 for `-h`, 2 for `-v`) |
| `CommandLine.ProceedKeepsLast` | SunGather/wallbox.py:41-58 | when the loop runs to the end, the last `-v`, the last `-c`/`-r`/`-l` and any `--runonce` decide the locals |
| `CommandLine.OptionsOutcomeOfMain` | SunGather/wallbox.py:15-58 | main proceeds iff no option stops it; it then has the last `-v` as its level (none without one), `--runonce` iff given, and the last `-c` as its config path (`config.yaml` without one) |
| `WallboxConfig.ResolveWallbox` | SunGather/wallbox.py:82-96 | a section without `host` leaves it None, one without `connection` gets "modbus", and one without `scan_interval` gets 30 seconds; every key is covered by `ResolveReadsSectionOrDefault` |
| `WallboxConfig.ResolveReadsSectionOrDefault` | SunGather/wallbox.py:82-96 | each of the thirteen keys takes the section's value when the key is present, and its fixed default otherwise |
| `WallboxConfig.EmptySectionDefaults` | SunGather/wallbox.py:82-96 | the defaults are: port 502, timeout 10, retries 3, slave 2, scan_interval 30, connection "modbus", smart_meter and use_local_time False, log_console "WARNING", log_file "OFF", level 1, host and model None |
| `WallboxConfig.ResolveIgnoresOtherKeys` | SunGather/wallbox.py:82-96 | two sections that agree on the thirteen keys resolve alike; no other key is read |
| `WallboxConfig.NoHostIsFalsy` | SunGather/wallbox.py:83-83 | a section without a truthy `host` leaves `config_wallbox['host']` falsy |
| `WallboxConfig.ConsoleLevel` | SunGather/wallbox.py:98-101 | the console level is the `-v` level when one was given, and `log_console` otherwise |
| `WallboxConfig.SetUpLogging` | SunGather/wallbox.py:98-109 | handler 0 (basicConfig's stream) gets the console level; handler 1 (`ch`) stays at WARNING; at most one more handler is added |
| `WallboxConfig.LogFileChoice` | SunGather/wallbox.py:103-111 | `log_file` "OFF" adds nothing; exactly DEBUG, INFO, WARNING or ERROR adds one rotating file `<logfolder>SunGather.log` of 10485760 bytes x 10 at that level; anything else adds nothing and warns |
| `Schedule.IntervalCentis` | SunGather/wallbox.py:177-177 | `scan_interval - process_time` is defined exactly for an int (or a bool) interval, which counts as 100 x its seconds |
| `Schedule.SleepRule` | SunGather/wallbox.py:177-182 | the too-slow warning is given exactly when the interval leaves at most one second after processing; the sleep is never negative |
| `Schedule.SleepFillsInterval` | SunGather/wallbox.py:177-182 | a fast cycle sleeps the rest of the interval, which is then more than one second; a slow one sleeps as long as it processed |
| `Schedule.SleepBounded` | SunGather/wallbox.py:177-182 | the sleep never exceeds the larger of the interval and the processing time |
| `Schedule.NoDrift` | SunGather/wallbox.py:149-182 | in model time (a cycle lasts its rounded processing time plus its sleep), while every cycle finishes more than a second early, cycle n starts exactly n intervals after the first |
| `Schedule.SlowCycleBackoff` | SunGather/wallbox.py:177-179 | in model time, n cycles never take less than n times (interval minus one second) |
| `Exports.LoadFrom` | SunGather/wallbox.py:133-144 | loading the entries from a position on appends at most one plugin per entry |
| `Exports.LoadExports` | SunGather/wallbox.py:133-144 | a list loads at most one plugin per entry; any other `exports` value loads nothing, and ends the program exactly when it is truthy |
| `Exports.ConfigureEvents` | SunGather/wallbox.py:140-141 | loading makes one `configure` call per plugin appended, in list order |
| `Exports.LoadAdvances` | SunGather/wallbox.py:135-141 | handling one dict entry appends its plugin exactly when it is enabled and resolves, and then calls `configure` on it once |
| `Exports.LoadedAreEnabled` | SunGather/wallbox.py:133-141 | every loaded plugin comes from an enabled dict entry whose plugin resolves, under that entry's name, and the list keeps config order |
| `Exports.LoadedAreAll` | SunGather/wallbox.py:134-144 | loading crashes exactly when some entry is not a dict; otherwise every enabled entry whose plugin resolves is loaded |
| `Exports.ConfigureResultIgnored` | SunGather/wallbox.py:140-144 | what `configure` returns or raises never changes which plugins are loaded |
| `PollCycle.PublishAll` | SunGather/wallbox.py:162-163 | the publish loop calls `publish` at most once per export, and fewer times only when a `publish` raised |
| `PollCycle.Poll` | SunGather/wallbox.py:152-166 | a cycle's calls start with `checkConnection` and then `scrape`; it can end the program only after a truthy scrape |
| `PollCycle.PublishAllInOrder` | SunGather/wallbox.py:162-163 | when no `publish` raises, every export is published once, in list order, and nothing else is called |
| `PollCycle.PublishAllStopsAtRaise` | SunGather/wallbox.py:162-163 | a `publish` that raises ends the program; only the exports before it, and it, were published |
| `PollCycle.PublishAllCrashesIffRaise` | SunGather/wallbox.py:162-163 | the publish loop ends the program exactly when some export's `publish` raises |
| `PollCycle.PublishStep` | SunGather/wallbox.py:162-163 | each turn of the publish loop adds one call; either the export does not raise, or the calls so far are all the loop makes |
| `PollCycle.PublishedCalls` | SunGather/wallbox.py:162-163 | the first n publish calls publish the first n positions |
| `PollCycle.PublishAllExactlyOnce` | SunGather/wallbox.py:162-163 | with positions in config order and no `publish` raising, each export is published exactly once |
| `PollCycle.PollStartsWithCheck` | SunGather/wallbox.py:152-156 | every cycle starts with `checkConnection` and then `scrape`, each exactly once |
| `PollCycle.PollFailure` | SunGather/wallbox.py:155-166 | a falsy or raising scrape publishes nothing, never closes, and disconnects exactly once |
| `PollCycle.PollSuccess` | SunGather/wallbox.py:161-163 | a truthy scrape with no `publish` raising publishes to every export exactly once, in list order |
| `PollCycle.PollSuccessCloses` | SunGather/wallbox.py:161-164 | after a truthy scrape with no `publish` raising, the connection is closed once, as the last call, iff it is not "http"; it is never disconnected |
| `PollCycle.PollPublishRaises` | SunGather/wallbox.py:161-164 | a `publish` that raises ends the program in this cycle: later exports are not published, and no `close` or `disconnect` follows |
| `Daemon.Session.constructor` | SunGather/wallbox.py:120-133 | the session starts with no calls made and an empty `exports` list |
| `Daemon.Session.CheckConnection` | SunGather/wallbox.py:125-125 | records one `checkConnection` call and returns the device's answer |
| `Daemon.Session.PrepareDevice` | SunGather/wallbox.py:129-130 | `configure_registers`, then `close` iff the connection is not "http" |
| `Daemon.Session.LoadPlugins` | SunGather/wallbox.py:133-144 | leaves `exports` and the `configure` calls exactly as `LoadExports` says, crashing in the same cases |
| `Daemon.Session.PublishEach` | SunGather/wallbox.py:162-163 | makes exactly the calls of `PublishAll` and crashes exactly when it does |
| `Daemon.Session.PollOnce` | SunGather/wallbox.py:152-167 | makes exactly the calls of `Poll` and crashes exactly when it does |
| `Daemon.Session.SleepFor` | SunGather/wallbox.py:177-182 | records one sleep of the decided length |
| `Daemon.Session.CycleOnce` | SunGather/wallbox.py:149-182 | one pass of the loop body makes the calls of `CycleStep`, and ends the program when and as it says |
| `Daemon.Session.RunCycles` | SunGather/wallbox.py:149-182 | the poll loop over the given cycles makes the calls of `Cycles` and ends as it says |
| `Daemon.Start` | SunGather/wallbox.py:19-123 | startup up to the device client ends, or goes on, exactly as `Startup` says |
| `Daemon.Startup` | SunGather/wallbox.py:19-123 | a startup that halts never leaves the program running; one that goes on had options that proceed, and a truthy host |
| `Daemon.CycleStep` | SunGather/wallbox.py:149-182 | one pass of the loop body stops the program exactly when its outcome is not `Running`, ends only by a crash or exit status 0, and when it goes on its last call is the sleep |
| `Daemon.Cycles` | SunGather/wallbox.py:149-182 | the poll loop ends only by a crash or exit status 0, or is still running when the given cycles run out |
| `Daemon.Launched` | SunGather/wallbox.py:120-182 | once the device client exists, the first call is `checkConnection`, and the program exits with status 1 exactly when that check fails |
| `Daemon.Program` | SunGather/wallbox.py:14-182 | the program calls the device or a plugin at all exactly when startup passes |
| `Daemon.Run` | SunGather/wallbox.py:14-182 | `main()` ends with the outcome and makes the calls that `Program` gives |
| `RunProperties.GatesRunNoCycle` | SunGather/wallbox.py:64-127 | a failing startup gate or a failed first connection check ends the program before any scrape or publish |
| `RunProperties.MissingHostExits` | SunGather/wallbox.py:119-123 | a section without a truthy host exits with status 1 before any call on the device |
| `RunProperties.MissingSectionExits` | SunGather/wallbox.py:70-72 | a missing or falsy `wallbox` section exits with status 1, before the registers file matters |
| `RunProperties.PollNeverSleeps` | SunGather/wallbox.py:152-167 | the calls of one cycle before the time measurement include no sleep |
| `RunProperties.RunOnceShape` | SunGather/wallbox.py:173-174 | under `--runonce`, the run past startup is the setup calls, the `configure` calls and one poll cycle |
| `RunProperties.RunOnceSingleCycle` | SunGather/wallbox.py:173-174 | under `--runonce`: one scrape, no sleep; the program crashes exactly when the scrape was truthy and some loaded export's `publish` raises, and exits with status 0 otherwise |
| `RunProperties.SurvivingCycle` | SunGather/wallbox.py:155-182 | without `--runonce`, with an int interval and no `publish` raising, a cycle goes on to the next; it scrapes once and disconnects once iff the scrape failed |
| `RunProperties.LoopSurvivesFailedScrapes` | SunGather/wallbox.py:149-182 | under those conditions, n cycles stay in the loop with n scrapes, and one disconnect per failed scrape |
| `RunProperties.ExampleTwoExports` | SunGather/wallbox.py:149-182 | a 30 s interval, a 2 s cycle and two exports: both are published in order, the connection is closed, and the loop sleeps 28 s |
| `RunProperties.ExampleScrapeTimeout` | SunGather/wallbox.py:155-182 | a 30 s interval and a scrape that raises after 1.5 s: a disconnect, no publish, and a 28.5 s sleep |
| `RunProperties.ConsoleLevelOfRun` | SunGather/wallbox.py:98-101 | once startup passes, the console level is the last valid `-v` on the command line when one was given, and the section's `log_console` otherwise |

## Left out

- How `getopt` splits argv is not modelled. The model starts from the options
  `getopt` returns, or from its rejection, which exits with status 1. One
  consequence: the help text offers `--help`, but `getopt` rejects it.
- The help text and every log message are left out. Two are kept as flags:
  the warning about an invalid `log_file`, and the too-slow warning of the
  sleep rule.
- Reading and parsing the YAML files is an input: each document is given, or
  None for a file that cannot be opened or parsed.
  - The `-c` and `-r` paths are resolved, but they are not tied to the
    documents.
  - YAML floats and dates are not modelled, so a float `scan_interval` is
    outside the model.
- `IsNumeric` models `str.isnumeric()` on ASCII digits only. Other Unicode
  numeric characters are left out.
- SetUpLogging records the level `setLevel` is given, and the file handler
  it adds. Two crashes on the way to the host check at line 119 are not
  modelled:
  - any `log_console` value that `setLevel` rejects ends the program at line
    101: an unknown level name raises ValueError, and None, a list or a map
    raises TypeError (YAML `log_console:` with no value is None);
  - with `log_file` DEBUG, INFO, WARNING or ERROR, a `-l` folder that is
    missing or not writable makes `RotatingFileHandler` raise at line 106.

  `MissingHostExits` and `GatesRunNoCycle` therefore take the console level
  to be one `setLevel` accepts and the log file to open. Formatters, the file
  mode and the encoding are left out too.
- `SungrowClient` is a library that is not part of this model.
  - Its calls are recorded, and its answers are inputs.
  - Exceptions from the `SungrowClient(config_wallbox)` constructor (line
    120) and from `checkConnection`, `configure_registers`, `close` and
    `disconnect` are not modelled.
  - `inverter_config['connection']` is taken to be the configured
    `connection`.
- How `importlib` resolves a name is an input: a table from names to what
  `configure` will do. A name that is absent stands for an import, a class
  lookup or a constructor that raises.
- What a scrape returns and what `publish` sends are not modelled. The model
  keeps only whether the scrape was truthy, falsy or raised.
- Time is a whole number of hundredths of a second. The processing time is an
  input already rounded to two decimals; `perf_counter` and float subtraction
  are left out.
- NoDrift and SlowCycleBackoff are about model time, where a cycle lasts its
  rounded processing time plus its sleep. The real loop also spends the time
  of lines 170-181 (the rounding, the logging, the `runonce` test and the
  comparison) outside the measured window, the sleep subtracts the rounded
  time rather than the measured one, and `time.sleep` may oversleep. So the
  real program drifts by that much on every cycle; the model does not
  capture it.
- The endless `while True` loop runs over a given finite list of cycles. When
  they run out, the outcome is `Running`.
