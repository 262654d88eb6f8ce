/** The `config_wallbox` dictionary `main()` builds from the `wallbox` section
    of the config file, and the logging handlers it then sets up. */
module WallboxConfig {
  import opened Values

  /** `config_wallbox`: the thirteen keys, with the values read for them. */
  datatype WallboxSettings = WallboxSettings(
    host: Value,
    port: Value,
    timeout: Value,
    retries: Value,
    slave: Value,
    scanInterval: Value,
    connection: Value,
    model: Value,
    smartMeter: Value,
    useLocalTime: Value,
    logConsole: Value,
    logFile: Value,
    level: Value)

  /** The keys of `config_wallbox`. */
  datatype Key =
    Host | Port | Timeout | Retries | Slave | ScanInterval | Connection
    | Model | SmartMeter | UseLocalTime | LogConsole | LogFile | Level

  /** The key as it is spelled in the config file. */
  function Name(k: Key): (r: string) {
    match k
    case Host => "host"
    case Port => "port"
    case Timeout => "timeout"
    case Retries => "retries"
    case Slave => "slave"
    case ScanInterval => "scan_interval"
    case Connection => "connection"
    case Model => "model"
    case SmartMeter => "smart_meter"
    case UseLocalTime => "use_local_time"
    case LogConsole => "log_console"
    case LogFile => "log_file"
    case Level => "level"
  }

  /** The fixed default of each key; `host` and `model` default to None. */
  function Default(k: Key): (r: Value) {
    match k
    case Host => VNone
    case Port => VInt(502)
    case Timeout => VInt(10)
    case Retries => VInt(3)
    case Slave => VInt(2)
    case ScanInterval => VInt(30)
    case Connection => VStr("modbus")
    case Model => VNone
    case SmartMeter => VBool(false)
    case UseLocalTime => VBool(false)
    case LogConsole => VStr("WARNING")
    case LogFile => VStr("OFF")
    case Level => VInt(1)
  }

  /** `config_wallbox[key]`. */
  function Field(c: WallboxSettings, k: Key): (r: Value) {
    match k
    case Host => c.host
    case Port => c.port
    case Timeout => c.timeout
    case Retries => c.retries
    case Slave => c.slave
    case ScanInterval => c.scanInterval
    case Connection => c.connection
    case Model => c.model
    case SmartMeter => c.smartMeter
    case UseLocalTime => c.useLocalTime
    case LogConsole => c.logConsole
    case LogFile => c.logFile
    case Level => c.level
  }

  /** `wallbox.get(key, default)` for one key of `config_wallbox`. */
  function Read(section: map<string, Value>, k: Key): (r: Value) {
    Get(section, Name(k), Default(k))
  }

  /** Building `config_wallbox` from the `wallbox` section. */
  function ResolveWallbox(section: map<string, Value>): (r: WallboxSettings)
    ensures "host" !in section ==> r.host == VNone
    ensures "connection" !in section ==> r.connection == VStr("modbus")
    ensures "scan_interval" !in section ==> r.scanInterval == VInt(30)
  {
    WallboxSettings(
      host := Read(section, Host),
      port := Read(section, Port),
      timeout := Read(section, Timeout),
      retries := Read(section, Retries),
      slave := Read(section, Slave),
      scanInterval := Read(section, ScanInterval),
      connection := Read(section, Connection),
      model := Read(section, Model),
      smartMeter := Read(section, SmartMeter),
      useLocalTime := Read(section, UseLocalTime),
      logConsole := Read(section, LogConsole),
      logFile := Read(section, LogFile),
      level := Read(section, Level))
  }

  /** Every key of `config_wallbox` takes the section's value when the section has it, its default otherwise. */
  lemma {:induction false} ResolveReadsSectionOrDefault(section: map<string, Value>)
    ensures forall k :: Field(ResolveWallbox(section), k) == if Name(k) in section then section[Name(k)] else Default(k)
  {
    var c := ResolveWallbox(section);
    forall k ensures Field(c, k) == if Name(k) in section then section[Name(k)] else Default(k) {
      assert Field(c, k) == Read(section, k) by {
        match k
        case Host => case Port => case Timeout => case Retries => case Slave => case ScanInterval =>
        case Connection => case Model => case SmartMeter => case UseLocalTime => case LogConsole =>
        case LogFile => case Level =>
      }
    }
  }

  /** Two settings that agree on every key are the same settings. */
  lemma {:induction false} FieldsDetermine(a: WallboxSettings, b: WallboxSettings)
    requires forall k :: Field(a, k) == Field(b, k)
    ensures a == b
  {
    assert Field(a, Host) == Field(b, Host);
    assert Field(a, Port) == Field(b, Port);
    assert Field(a, Timeout) == Field(b, Timeout);
    assert Field(a, Retries) == Field(b, Retries);
    assert Field(a, Slave) == Field(b, Slave);
    assert Field(a, ScanInterval) == Field(b, ScanInterval);
    assert Field(a, Connection) == Field(b, Connection);
    assert Field(a, Model) == Field(b, Model);
    assert Field(a, SmartMeter) == Field(b, SmartMeter);
    assert Field(a, UseLocalTime) == Field(b, UseLocalTime);
    assert Field(a, LogConsole) == Field(b, LogConsole);
    assert Field(a, LogFile) == Field(b, LogFile);
    assert Field(a, Level) == Field(b, Level);
  }

  /** Keys of the section other than the thirteen are never read. */
  lemma {:induction false} ResolveIgnoresOtherKeys(a: map<string, Value>, b: map<string, Value>)
    requires forall k :: (Name(k) in a <==> Name(k) in b) && (Name(k) in a ==> a[Name(k)] == b[Name(k)])
    ensures ResolveWallbox(a) == ResolveWallbox(b)
  {
    ResolveReadsSectionOrDefault(a);
    ResolveReadsSectionOrDefault(b);
    FieldsDetermine(ResolveWallbox(a), ResolveWallbox(b));
  }

  /** An empty section gets every default: port 502, timeout 10, three retries, slave 2, a 30-second
      interval over "modbus", no smart meter, device time, console at "WARNING", no log file, level 1,
      and no host or model. */
  lemma EmptySectionDefaults()
    ensures ResolveWallbox(map[]) == WallboxSettings(
      VNone, VInt(502), VInt(10), VInt(3), VInt(2), VInt(30), VStr("modbus"),
      VNone, VBool(false), VBool(false), VStr("WARNING"), VStr("OFF"), VInt(1))
  {
  }

  /** A section without `host` leaves `config_wallbox['host']` falsy, which stops the program at startup. */
  lemma NoHostIsFalsy(section: map<string, Value>)
    requires "host" !in section || !Truthy(section["host"])
    ensures !Truthy(ResolveWallbox(section).host)
  {
  }

  /** The level given to the first console handler: the `-v` level when one was given, `log_console` otherwise. */
  function ConsoleLevel(logLevel: Option<nat>, c: WallboxSettings): (v: Value)
    ensures logLevel.Some? ==> v == VInt(logLevel.value)
    ensures logLevel.None? ==> v == c.logConsole
  {
    if logLevel.Some? then VInt(logLevel.value) else c.logConsole
  }

  /** The `log_file` values that switch on the rotating file handler. */
  const FileLevels: seq<string> := ["DEBUG", "INFO", "WARNING", "ERROR"]

  datatype HandlerKind =
    | BasicConfigStream             // the stream handler `logging.basicConfig` installs
    | ConsoleStream                 // `ch`, added at import time
    | RotatingFile(path: string, maxBytes: nat, backupCount: nat)

  datatype Handler = Handler(kind: HandlerKind, level: Value)

  /** The root logger's handlers once `main()` has set them up, and whether it warned about `log_file`. */
  datatype LoggingSetup = LoggingSetup(handlers: seq<Handler>, warned: bool)

  function SetUpLogging(logLevel: Option<nat>, c: WallboxSettings, logFolder: string): (r: LoggingSetup)
    ensures |r.handlers| == 2 || |r.handlers| == 3
    ensures r.handlers[0] == Handler(BasicConfigStream, ConsoleLevel(logLevel, c))
    ensures r.handlers[1] == Handler(ConsoleStream, VInt(30))
  {
    var console := [Handler(BasicConfigStream, ConsoleLevel(logLevel, c)), Handler(ConsoleStream, VInt(30))];
    if c.logFile == VStr("OFF") then LoggingSetup(console, false)
    else if c.logFile == VStr("DEBUG") || c.logFile == VStr("INFO")
         || c.logFile == VStr("WARNING") || c.logFile == VStr("ERROR") then
      var file := RotatingFile(logFolder + "SunGather.log", 10485760, 10);
      LoggingSetup(console + [Handler(file, c.logFile)], false)
    else LoggingSetup(console, true)
  }

  /** `log_file`: "OFF" adds nothing and says nothing; one of the four level names adds exactly one
      10 MiB x 10 rotating file handler at that level, in the log folder; anything else adds nothing and warns. */
  lemma {:induction false} LogFileChoice(logLevel: Option<nat>, c: WallboxSettings, logFolder: string)
    ensures var r := SetUpLogging(logLevel, c, logFolder);
      && (|r.handlers| == 3 <==> c.logFile.VStr? && c.logFile.s in FileLevels)
      && (|r.handlers| == 3 ==>
            r.handlers[2] == Handler(RotatingFile(logFolder + "SunGather.log", 10485760, 10), c.logFile))
      && (r.warned <==> c.logFile != VStr("OFF") && !(c.logFile.VStr? && c.logFile.s in FileLevels))
  {
    var r := SetUpLogging(logLevel, c, logFolder);
    if c.logFile.VStr? && c.logFile.s in FileLevels {
      assert c.logFile.s == "DEBUG" || c.logFile.s == "INFO" || c.logFile.s == "WARNING" || c.logFile.s == "ERROR";
    }
  }
}
