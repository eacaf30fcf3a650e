/**
 * The execution context ("port hole"): a color scheme, the two capability
 * flags fixed at construction, the console writer, the logger's
 * configuration and the caller's config store, with read-only accessors.
 */
module PortHole {
  import opened Colors
  import ConfigStore

  /** An `io.Writer`: an `*os.File` with its descriptor, or any other writer. */
  datatype Writer = OsFile(fd: nat) | OtherWriter(id: nat)

  /** The logging library's levels. */
  datatype Level =
    | TraceLevel | DebugLevel | InfoLevel | WarnLevel | ErrorLevel
    | FatalLevel | PanicLevel | NoLevel | Disabled

  /** What the constructor hands the logging library: the destination and the minimum level. */
  datatype Logger = Logger(out: Writer, level: Level)

  /** `defaultPortHole`. `config` is `null` for a nil config. */
  datatype DefaultPortHole = DefaultPortHole(
    colors: ColorScheme,
    colorsEnabled: bool,
    isTTY: bool,
    output: Writer,
    logger: Logger,
    config: ConfigStore.DefaultConfig?)
  {
    /**
     * What the constructor guarantees: the scheme is the one built from
     * the colored flag, and colors are only on for a terminal.
     */
    predicate Valid()
    {
      colors == NewColorScheme(colorsEnabled) && (colorsEnabled ==> isTTY)
    }

    /** `GetLogLevel`, as the level itself rather than its string form. */
    function GetLogLevel(): (lvl: Level)
      ensures lvl == logger.level
    {
      logger.level
    }

    /** The eight color methods, each delegating to its own slot of the scheme. */
    function Magenta(value: string): (r: string)
      ensures r == colors.At(Slot.Magenta).Apply(value)
    { colors.magenta.Apply(value) }

    function Cyan(value: string): (r: string)
      ensures r == colors.At(Slot.Cyan).Apply(value)
    { colors.cyan.Apply(value) }

    function Red(value: string): (r: string)
      ensures r == colors.At(Slot.Red).Apply(value)
    { colors.red.Apply(value) }

    function Yellow(value: string): (r: string)
      ensures r == colors.At(Slot.Yellow).Apply(value)
    { colors.yellow.Apply(value) }

    function Blue(value: string): (r: string)
      ensures r == colors.At(Slot.Blue).Apply(value)
    { colors.blue.Apply(value) }

    function Green(value: string): (r: string)
      ensures r == colors.At(Slot.Green).Apply(value)
    { colors.green.Apply(value) }

    function Gray(value: string): (r: string)
      ensures r == colors.At(Slot.Gray).Apply(value)
    { colors.gray.Apply(value) }

    function Bold(value: string): (r: string)
      ensures r == colors.At(Slot.Bold).Apply(value)
    { colors.bold.Apply(value) }

    /** The color method named by `slot` returns exactly what the scheme's slot returns. */
    function ColorMethod(slot: Slot, value: string): (r: string)
      ensures r == colors.At(slot).Apply(value)
    {
      match slot
      case Magenta => Magenta(value)
      case Cyan => Cyan(value)
      case Red => Red(value)
      case Yellow => Yellow(value)
      case Blue => Blue(value)
      case Green => Green(value)
      case Gray => Gray(value)
      case Bold => Bold(value)
    }

    /** The terminal flag fixed at construction. */
    function IsConsoleTTY(): (tty: bool)
      ensures tty == isTTY
    { isTTY }

    /** The colored flag fixed at construction; on a valid port hole it implies the terminal flag. */
    function IsConsoleColored(): (colored: bool)
      ensures colored == colorsEnabled
      ensures Valid() && colored ==> IsConsoleTTY()
    { colorsEnabled }

    /** The config as stored, `null` included. */
    function Config(): (c: ConfigStore.DefaultConfig?)
      ensures c == config
    { config }
  }

  /**
   * On a valid port hole each color method wraps its input in its slot's
   * start sequence and the reset when colored, and returns it unchanged
   * otherwise.
   */
  lemma ColorMethodOfValid(p: DefaultPortHole, slot: Slot, value: string)
    requires p.Valid()
    ensures p.ColorMethod(slot, value)
         == if p.IsConsoleColored() then AnsiStart(StyleName(slot)) + value + Reset else value
  {
    SchemeSlot(p.colorsEnabled, slot, value);
  }

  /** `isTerminal`: asks the terminal test only for an `*os.File`; any other writer is not a terminal. */
  function IsTerminal(w: Writer, isatty: nat -> bool): (r: bool)
    ensures !w.OsFile? ==> !r
    ensures w.OsFile? ==> r == isatty(w.fd)
  {
    match w
    case OsFile(fd) => isatty(fd)
    case OtherWriter(_) => false
  }
}
