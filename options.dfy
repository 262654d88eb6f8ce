/** The command-line options loop at the top of `main()`: each option already
    split off by `getopt` is applied in order to the locals it sets, and `-h`
    or a bad `-v` ends the program on the spot. */
module CommandLine {
  import opened Values

  /** Which file-path local a `-c`, `-r` or `-l` option sets. */
  datatype PathKind = ConfigFile | RegistersFile | LogFolder

  datatype Opt =
    | Help                                  // -h
    | SetPath(kind: PathKind, path: string) // -c, -r, -l
    | Verbose(arg: string)                  // -v
    | RunOnce                               // --runonce

  /** The locals the loop leaves behind; `logLevel` is None while no `-v` was seen. */
  datatype Settings = Settings(
    configPath: string,
    registersPath: string,
    logFolder: string,
    logLevel: Option<nat>,
    runOnce: bool)

  datatype OptionsOutcome = Stop(status: nat) | Proceed(settings: Settings)

  const Initial := Settings("config.yaml", "registers-wallbox.yaml", "", None, false)

  function PathOf(s: Settings, kind: PathKind): (r: string) {
    match kind
    case ConfigFile => s.configPath
    case RegistersFile => s.registersPath
    case LogFolder => s.logFolder
  }

  predicate IsDigit(c: char) { '0' <= c <= '9' }

  /** `str.isnumeric()` on ASCII text: non-empty and digits only. */
  predicate IsNumeric(s: string) {
    s != [] && forall i :: 0 <= i < |s| ==> IsDigit(s[i])
  }

  /** `int(s)` for a string of decimal digits (leading zeros allowed). */
  function DigitsValue(s: string): (r: nat)
    requires forall i :: 0 <= i < |s| ==> IsDigit(s[i])
  {
    if s == [] then 0
    else 10 * DigitsValue(s[..|s| - 1]) + DigitValue(s[|s| - 1])
  }

  function DigitValue(c: char): (d: nat)
    requires IsDigit(c)
    ensures d < 10
  {
    c as int - '0' as int
  }

  /** The usual decimal rendering of `n`, an independent reference for the inverse of `DigitsValue`. */
  function Decimal(n: nat): (s: string)
    ensures IsNumeric(s)
  {
    if n < 10 then ['0' + n as char]
    else Decimal(n / 10) + ['0' + (n % 10) as char]
  }

  lemma {:induction false} DigitsValueOfDecimal(n: nat)
    ensures DigitsValue(Decimal(n)) == n
  {
    var s := Decimal(n);
    if n >= 10 {
      DigitsValueOfDecimal(n / 10);
      assert s[..|s| - 1] == Decimal(n / 10);
    }
  }

  /** The `-v` check: the level when the argument is numeric and 0..50, None for exit status 2. */
  function ParseVerbosity(arg: string): (r: Option<nat>)
    ensures r.Some? <==> IsNumeric(arg) && DigitsValue(arg) <= 50
    ensures r.Some? ==> r.value <= 50 && r.value == DigitsValue(arg)
  {
    if IsNumeric(arg) then
      var n := DigitsValue(arg);
      if 0 <= n <= 50 then Some(n) else None
    else None
  }

  /** Every level from 0 to 50 written out in decimal is accepted with its own value; every larger one is refused. */
  lemma {:induction false} VerbosityRoundTrip(n: nat)
    ensures ParseVerbosity(Decimal(n)) == if n <= 50 then Some(n) else None
  {
    DigitsValueOfDecimal(n);
  }

  /** An option that ends the program while the options are read. */
  predicate Terminating(o: Opt) {
    o.Help? || (o.Verbose? && ParseVerbosity(o.arg).None?)
  }

  /** What applying one option does to the locals. */
  function Step(s: Settings, o: Opt): (r: OptionsOutcome)
  {
    match o
    case Help => Stop(0)
    case SetPath(ConfigFile, p) => Proceed(s.(configPath := p))
    case SetPath(RegistersFile, p) => Proceed(s.(registersPath := p))
    case SetPath(LogFolder, p) => Proceed(s.(logFolder := p))
    case Verbose(arg) =>
      (match ParseVerbosity(arg)
       case None => Stop(2)
       case Some(n) => Proceed(s.(logLevel := Some(n))))
    case RunOnce => Proceed(s.(runOnce := true))
  }

  function ResolveFrom(s: Settings, opts: seq<Opt>): (r: OptionsOutcome)
    decreases |opts|
  {
    if opts == [] then Proceed(s)
    else match Step(s, opts[0])
      case Stop(status) => Stop(status)
      case Proceed(s') => ResolveFrom(s', opts[1..])
  }

  /** The outcome of the options loop, as a function of the options given. */
  function ResolveOptions(opts: seq<Opt>): (r: OptionsOutcome) {
    ResolveFrom(Initial, opts)
  }

  /** The options loop as `main()` runs it. */
  method ProcessOptions(opts: seq<Opt>) returns (r: OptionsOutcome)
    ensures r == ResolveOptions(opts)
  {
    var configPath, registersPath, logFolder := "config.yaml", "registers-wallbox.yaml", "";
    var logLevel: Option<nat> := None;
    var runOnce := false;
    for i := 0 to |opts|
      invariant ResolveFrom(Settings(configPath, registersPath, logFolder, logLevel, runOnce), opts[i..])
                == ResolveOptions(opts)
    {
      assert opts[i..][1..] == opts[i + 1..];
      match opts[i]
      case Help =>
        return Stop(0);
      case SetPath(kind, p) =>
        if kind == ConfigFile {
          configPath := p;
        } else if kind == RegistersFile {
          registersPath := p;
        } else {
          logFolder := p;
        }
      case Verbose(arg) =>
        if IsNumeric(arg) {
          var n := DigitsValue(arg);
          if 0 <= n <= 50 {
            logLevel := Some(n);
          } else {
            return Stop(2);
          }
        } else {
          return Stop(2);
        }
      case RunOnce =>
        runOnce := true;
    }
    r := Proceed(Settings(configPath, registersPath, logFolder, logLevel, runOnce));
  }

  /** The level of the last `-v` among `opts`, None when there is none. */
  function LastLevel(opts: seq<Opt>): (r: Option<nat>)
    decreases |opts|
  {
    if opts == [] then None
    else
      var later := LastLevel(opts[1..]);
      if later.Some? then later
      else if opts[0].Verbose? then ParseVerbosity(opts[0].arg)
      else None
  }

  /** The path of the last option of this kind among `opts`, None when there is none. */
  function LastPath(opts: seq<Opt>, kind: PathKind): (r: Option<string>)
    decreases |opts|
  {
    if opts == [] then None
    else
      var later := LastPath(opts[1..], kind);
      if later.Some? then later
      else if opts[0].SetPath? && opts[0].kind == kind then Some(opts[0].path)
      else None
  }

  /** The options loop stops exactly when some option is `-h` or a bad `-v`; the first such option decides the status. */
  lemma {:induction false} StopsAtFirstTerminating(s: Settings, opts: seq<Opt>)
    ensures ResolveFrom(s, opts).Stop? <==> exists k :: 0 <= k < |opts| && Terminating(opts[k])
    ensures ResolveFrom(s, opts).Stop? ==>
      exists k :: 0 <= k < |opts| && Terminating(opts[k])
        && (forall j :: 0 <= j < k ==> !Terminating(opts[j]))
        && ResolveFrom(s, opts).status == (if opts[k].Help? then 0 else 2)
    decreases |opts|
  {
    if opts != [] {
      var rest := opts[1..];
      match Step(s, opts[0])
      case Stop(_) =>
        assert Terminating(opts[0]);
      case Proceed(s') =>
        assert !Terminating(opts[0]);
        StopsAtFirstTerminating(s', rest);
        if exists k :: 0 <= k < |rest| && Terminating(rest[k]) {
          var k :| 0 <= k < |rest| && Terminating(rest[k]);
          assert Terminating(opts[k + 1]);
        }
        if exists k :: 0 <= k < |opts| && Terminating(opts[k]) {
          var k :| 0 <= k < |opts| && Terminating(opts[k]);
          assert k > 0 && Terminating(rest[k - 1]);
        }
        if ResolveFrom(s', rest).Stop? {
          var k :| 0 <= k < |rest| && Terminating(rest[k])
            && (forall j :: 0 <= j < k ==> !Terminating(rest[j]))
            && ResolveFrom(s', rest).status == (if rest[k].Help? then 0 else 2);
          assert forall j :: 0 <= j < k + 1 ==> !Terminating(opts[j]) by {
            forall j | 0 <= j < k + 1 ensures !Terminating(opts[j]) {
              if j > 0 { assert opts[j] == rest[j - 1]; }
            }
          }
          assert opts[k + 1] == rest[k];
        }
    }
  }

  /** When the loop runs to the end, the last `-v`, the last path of each kind and `--runonce` decide the locals. */
  lemma {:induction false} ProceedKeepsLast(s: Settings, opts: seq<Opt>)
    requires ResolveFrom(s, opts).Proceed?
    ensures var r := ResolveFrom(s, opts).settings;
      && r.logLevel == (if LastLevel(opts).Some? then LastLevel(opts) else s.logLevel)
      && r.runOnce == (s.runOnce || RunOnce in opts)
      && forall kind :: PathOf(r, kind) ==
           (if LastPath(opts, kind).Some? then LastPath(opts, kind).value else PathOf(s, kind))
    decreases |opts|
  {
    if opts != [] {
      var s' := Step(s, opts[0]).settings;
      ProceedKeepsLast(s', opts[1..]);
      assert opts == [opts[0]] + opts[1..];
    }
  }

  /** The console level `main()` ends up with on the command line: the last `-v`, if any. */
  lemma {:induction false} OptionsOutcomeOfMain(opts: seq<Opt>)
    ensures ResolveOptions(opts).Proceed? <==> forall k :: 0 <= k < |opts| ==> !Terminating(opts[k])
    ensures ResolveOptions(opts).Proceed? ==>
      && ResolveOptions(opts).settings.logLevel == LastLevel(opts)
      && ResolveOptions(opts).settings.runOnce == (RunOnce in opts)
      && ResolveOptions(opts).settings.configPath ==
           (if LastPath(opts, ConfigFile).Some? then LastPath(opts, ConfigFile).value else "config.yaml")
  {
    StopsAtFirstTerminating(Initial, opts);
    if ResolveOptions(opts).Proceed? {
      ProceedKeepsLast(Initial, opts);
      assert PathOf(ResolveOptions(opts).settings, ConfigFile) == ResolveOptions(opts).settings.configPath;
    }
  }
}
