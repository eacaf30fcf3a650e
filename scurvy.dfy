/**
 * The package's two constructors: `NewConfig` and `NewPortHole`, with the
 * process environment, the terminal test and the level parser passed in.
 */
module Scurvy {
  import opened Wrappers
  import opened Colors
  import opened ConfigStore
  import opened PortHole

  /**
   * What `NewPortHole` learns from outside the program: TERM and COLORTERM
   * (empty when unset), the terminal test on a descriptor, and the logging
   * library's level parser (`None` where it reports an error).
   */
  datatype Environment = Environment(
    term: string,
    colorTerm: string,
    isatty: nat -> bool,
    parseLevel: string -> Option<Level>)

  /** `NewConfig`: a fresh, empty store. */
  method NewConfig() returns (c: DefaultConfig)
    ensures fresh(c) && c.values == map[]
    ensures forall ns, key :: !c.IsSet(ns, key)
  {
    c := new DefaultConfig();
  }

  /**
   * The store scenario of the package's tests: a fresh store, one value of
   * each type written and read back with the matching getter.
   */
  method ConfigScenario()
  {
    var c := NewConfig();
    assert !c.IsSet("global", "verbose");
    var err := c.SetValue("global", "verbose", BoolVal(true));
    assert err == Ok && c.IsSet("global", "verbose");
    assert c.GetBool("global", "verbose") == Exact(true);
    err := c.SetValue("global", "intval", IntVal(55));
    assert c.GetInt("global", "intval") == Exact(55);
    err := c.SetValue("global", "strval", StrVal("test"));
    assert c.GetString("global", "strval") == Exact("test");
    err := c.SetValue("global", "strslice", StrListVal(["a", "b"]));
    assert c.GetStringSlice("global", "strslice") == Exact(["a", "b"]);
    err := c.SetValue("global", "strmap", StrMapVal(map["a" := "t", "b" := "t"]));
    assert c.GetStringMap("global", "strmap") == Exact(map["a" := "t", "b" := "t"]);
    assert c.GetBool("global", "verbose") == Exact(true);
  }

  /** The level the logger is configured with: the parsed level, or warn when parsing fails. */
  function EffectiveLevel(logLevel: string, env: Environment): (lvl: Level)
    ensures env.parseLevel(logLevel).Some? ==> lvl == env.parseLevel(logLevel).value
    ensures env.parseLevel(logLevel).None? ==> lvl == WarnLevel
  {
    match env.parseLevel(logLevel)
    case Some(lvl) => lvl
    case None => WarnLevel
  }

  /**
   * `NewPortHole`: colors start as requested and are switched off when the
   * environment lacks extended color and again when the console is not a
   * terminal; the scheme is built from the final flag; the writers and the
   * config are stored as given.
   */
  function NewPortHole(consoleOut: Writer, errorOut: Writer, config: DefaultConfig?,
                       logLevel: string, enableColors: bool, env: Environment): (p: DefaultPortHole)
    ensures p.IsConsoleColored()
         == (enableColors && Is256ColorSupported(env.term, env.colorTerm) && IsTerminal(consoleOut, env.isatty))
    ensures p.IsConsoleTTY() == IsTerminal(consoleOut, env.isatty)
    ensures p.Valid()
    ensures p.output == consoleOut && p.Config() == config
    ensures p.logger.out == errorOut
    ensures env.parseLevel(logLevel).Some? ==> p.GetLogLevel() == env.parseLevel(logLevel).value
    ensures env.parseLevel(logLevel).None? ==> p.GetLogLevel() == WarnLevel
  {
    var lvl := EffectiveLevel(logLevel, env);
    var requested := enableColors;
    var afterEnv := if !Is256ColorSupported(env.term, env.colorTerm) then false else requested;
    var isTTY := IsTerminal(consoleOut, env.isatty);
    var colorsEnabled := if !isTTY then false else afterEnv;
    DefaultPortHole(NewColorScheme(colorsEnabled), colorsEnabled, isTTY, consoleOut,
                    Logger(errorOut, lvl), config)
  }

  /** A level string the parser rejects (such as "bad") leaves the logger at warn. */
  lemma BadLevelFallsBackToWarn(consoleOut: Writer, errorOut: Writer, config: DefaultConfig?,
                                logLevel: string, enableColors: bool, env: Environment)
    requires env.parseLevel(logLevel) == None
    ensures NewPortHole(consoleOut, errorOut, config, logLevel, enableColors, env).GetLogLevel() == WarnLevel
  {
  }

  /** The colored flag never outlives the terminal flag. */
  lemma ColoredImpliesTTY(consoleOut: Writer, errorOut: Writer, config: DefaultConfig?,
                          logLevel: string, enableColors: bool, env: Environment)
    ensures var p := NewPortHole(consoleOut, errorOut, config, logLevel, enableColors, env);
      p.IsConsoleColored() ==> p.IsConsoleTTY()
  {
  }

  /**
   * Each color method of a constructed port hole decorates exactly when
   * colors were requested, the environment signals extended color and
   * the console is a terminal; otherwise it returns its input unchanged.
   */
  lemma ConstructedColorMethod(consoleOut: Writer, errorOut: Writer, config: DefaultConfig?,
                               logLevel: string, enableColors: bool, env: Environment,
                               slot: Slot, value: string)
    ensures NewPortHole(consoleOut, errorOut, config, logLevel, enableColors, env).ColorMethod(slot, value)
         == if enableColors && Is256ColorSupported(env.term, env.colorTerm) && IsTerminal(consoleOut, env.isatty)
            then AnsiStart(StyleName(slot)) + value + Reset
            else value
  {
    ColorMethodOfValid(NewPortHole(consoleOut, errorOut, config, logLevel, enableColors, env), slot, value);
  }

  /**
   * A console that is not an `*os.File` (a discarding writer, a string
   * builder) gives a port hole that is neither a TTY nor colored, whose
   * color methods all return their input, whatever colors were requested.
   */
  lemma NonFileConsoleIsPlain(consoleOut: Writer, errorOut: Writer, config: DefaultConfig?,
                              logLevel: string, enableColors: bool, env: Environment,
                              slot: Slot, value: string)
    requires !consoleOut.OsFile?
    ensures var p := NewPortHole(consoleOut, errorOut, config, logLevel, enableColors, env);
      !p.IsConsoleTTY() && !p.IsConsoleColored() && p.ColorMethod(slot, value) == value
  {
    ConstructedColorMethod(consoleOut, errorOut, config, logLevel, enableColors, env, slot, value);
  }
}
