/**
 * The color scheme: eight named slots, each a string decorator that is
 * either the identity (colors disabled) or wraps its input between an ANSI
 * start sequence and the shared reset sequence (colors enabled); and the
 * environment test for 256-color / truecolor terminals.
 *
 * Go's `colorFunc` closures are represented by the datatype `ColorFunc`,
 * whose `Apply` is the call of the closure.
 */
module Colors {
  import opened Strings

  /** The eight slots of `colorScheme`. */
  datatype Slot = Magenta | Cyan | Red | Yellow | Blue | Green | Gray | Bold

  /** The ANSI reset sequence that closes every decorated string. */
  const Reset: string := "\U{1b}[0m"

  /** The style names `newColorScheme` passes to the color library. */
  predicate IsStyleName(style: string)
  {
    style in {"magenta", "cyan", "red", "yellow", "blue", "green", "black+h", "default+b"}
  }

  /** The style each slot is built from: Gray is high-intensity black, Bold is bold default. */
  function StyleName(slot: Slot): (style: string)
    ensures IsStyleName(style)
  {
    match slot
    case Magenta => "magenta"
    case Cyan => "cyan"
    case Red => "red"
    case Yellow => "yellow"
    case Blue => "blue"
    case Green => "green"
    case Gray => "black+h"
    case Bold => "default+b"
  }

  /**
   * The start sequence the color library emits for a style name:
   * ESC "[0;" then "1;" for bold, then 30 + color (90 + color for
   * high intensity), then "m".
   */
  function AnsiStart(style: string): (start: string)
    requires IsStyleName(style)
    ensures 5 <= |start| && start[..4] == "\U{1b}[0;" && start[|start| - 1] == 'm'
    ensures start != Reset
  {
    match style
    case "magenta" => "\U{1b}[0;35m"
    case "cyan" => "\U{1b}[0;36m"
    case "red" => "\U{1b}[0;31m"
    case "yellow" => "\U{1b}[0;33m"
    case "blue" => "\U{1b}[0;34m"
    case "green" => "\U{1b}[0;32m"
    case "black+h" => "\U{1b}[0;90m"
    case _ => "\U{1b}[0;1;39m"
  }

  /** A string decorator: the identity, or wrapping between `start` and `Reset`. */
  datatype ColorFunc = Identity | Wrap(start: string)
  {
    function Apply(v: string): string
    {
      match this
      case Identity => v
      case Wrap(start) => start + v + Reset
    }
  }

  /** `makeColorFunc`: the library decorator for `color` when enabled, the identity otherwise. */
  function MakeColorFunc(color: string, colorEnabled: bool): (f: ColorFunc)
    requires colorEnabled ==> IsStyleName(color)
    ensures !colorEnabled ==> forall v :: f.Apply(v) == v
    ensures colorEnabled ==> forall v :: f.Apply(v) == AnsiStart(color) + v + Reset
  {
    if colorEnabled then Wrap(AnsiStart(color)) else Identity
  }

  /** `colorScheme`: one decorator per slot. */
  datatype ColorScheme = ColorScheme(
    magenta: ColorFunc, cyan: ColorFunc, red: ColorFunc, yellow: ColorFunc,
    blue: ColorFunc, green: ColorFunc, gray: ColorFunc, bold: ColorFunc)
  {
    /** The decorator held in `slot`. */
    function At(slot: Slot): ColorFunc
    {
      match slot
      case Magenta => magenta
      case Cyan => cyan
      case Red => red
      case Yellow => yellow
      case Blue => blue
      case Green => green
      case Gray => gray
      case Bold => bold
    }
  }

  /** `newColorScheme`: every slot is `makeColorFunc` of its own style name. */
  function NewColorScheme(colorEnabled: bool): (cs: ColorScheme)
    ensures forall slot :: cs.At(slot) == MakeColorFunc(StyleName(slot), colorEnabled)
  {
    ColorScheme(
      MakeColorFunc("magenta", colorEnabled),
      MakeColorFunc("cyan", colorEnabled),
      MakeColorFunc("red", colorEnabled),
      MakeColorFunc("yellow", colorEnabled),
      MakeColorFunc("blue", colorEnabled),
      MakeColorFunc("green", colorEnabled),
      MakeColorFunc("black+h", colorEnabled),
      MakeColorFunc("default+b", colorEnabled))
  }

  /** With colors disabled the style name is irrelevant: every disabled decorator is the same. */
  lemma DisabledIgnoresColor(c1: string, c2: string, v: string)
    ensures MakeColorFunc(c1, false).Apply(v) == MakeColorFunc(c2, false).Apply(v) == v
  {
  }

  /** A scheme built from `colorEnabled` decorates each slot by its own style, or not at all. */
  lemma SchemeSlot(colorEnabled: bool, slot: Slot, v: string)
    ensures NewColorScheme(colorEnabled).At(slot).Apply(v)
         == if colorEnabled then AnsiStart(StyleName(slot)) + v + Reset else v
  {
  }

  /** The escape sequences pinned for Blue, Gray and Bold, all closed by the same reset. */
  lemma PinnedEscapes(v: string)
    ensures NewColorScheme(true).blue.Apply(v) == "\U{1b}[0;34m" + v + "\U{1b}[0m"
    ensures NewColorScheme(true).gray.Apply(v) == "\U{1b}[0;90m" + v + "\U{1b}[0m"
    ensures NewColorScheme(true).bold.Apply(v) == "\U{1b}[0;1;39m" + v + "\U{1b}[0m"
    ensures NewColorScheme(false).blue.Apply(v) == v
    ensures NewColorScheme(false).gray.Apply(v) == v
    ensures NewColorScheme(false).bold.Apply(v) == v
  {
  }

  /** The markers whose presence in TERM or COLORTERM signals extended color. */
  const ExtendedColorMarkers: set<string> := {"256", "24bit", "truecolor"}

  /** `is256ColorSupported`, with the two environment variables as parameters. */
  function Is256ColorSupported(term: string, colorTerm: string): (r: bool)
    ensures r <==> exists m :: m in ExtendedColorMarkers && (Contains(term, m) || Contains(colorTerm, m))
  {
    Contains(term, "256") ||
    Contains(term, "24bit") ||
    Contains(term, "truecolor") ||
    Contains(colorTerm, "256") ||
    Contains(colorTerm, "24bit") ||
    Contains(colorTerm, "truecolor")
  }

  /**
   * The six short-circuit tests amount to: some marker occurs, at some
   * position, in TERM or in COLORTERM.
   */
  lemma Is256ColorSupportedIff(term: string, colorTerm: string)
    ensures Is256ColorSupported(term, colorTerm) <==>
      exists m, i: nat :: m in ExtendedColorMarkers && (OccursAt(term, m, i) || OccursAt(colorTerm, m, i))
  {
    ContainsIff(term, "256");
    ContainsIff(term, "24bit");
    ContainsIff(term, "truecolor");
    ContainsIff(colorTerm, "256");
    ContainsIff(colorTerm, "24bit");
    ContainsIff(colorTerm, "truecolor");
  }

  /** Both variables empty (or unset): no extended color. */
  lemma EmptyEnvironmentUnsupported()
    ensures !Is256ColorSupported("", "")
  {
  }

  /** A TERM that signals extended color decides the answer whatever COLORTERM holds. */
  lemma TermAloneSuffices(term: string, colorTerm: string)
    requires Is256ColorSupported(term, "")
    ensures Is256ColorSupported(term, colorTerm)
  {
  }
}
