# scurvy core, modelled in Dafny

scurvy is a small Go utility library giving a command-line tool one
execution context (the "port hole"): leveled logging, colored output
helpers, terminal detection and a namespaced configuration store. This
project models the part of it that is the library's own logic rather than
glue over its dependencies:

- **Config store** (`config.go`, `NewConfig` in `scurvy.go`): class
  `ConfigStore.DefaultConfig` holds the table `values: map<string, Value>`
  keyed by the composite key `ns + "." + key`. `SetValue` overwrites one
  entry in place. `IsSet` tests membership. The five typed getters read
  the table. `Value` is a tagged union (bool, 64-bit int, string, string
  list, string map) standing for Go's `interface{}`.
- **Color scheme and capability test** (`colors.go`): module `Colors`.
  A decorator is the identity when colors are off. When they are on, it
  wraps its input between the slot's ANSI start sequence and the shared
  reset `ESC[0m`. `Is256ColorSupported` takes TERM and COLORTERM as
  parameters. `strings.Contains` is module `Strings`, proved equal to
  "occurs at some position".
- **Construction** (`scurvy.go`): `Scurvy.NewPortHole` is a function of
  the two writers, the config, the level string, the color request and an
  `Environment`. The `Environment` carries TERM, COLORTERM, the terminal
  test and the logging library's level parser.
- **Port hole** (`porthole.go`): the immutable datatype
  `PortHole.DefaultPortHole` and its accessors, plus `IsTerminal`. Because
  the datatype is a value, no accessor can change any of its fields.

`Scurvy.ConfigScenario` replays the store scenario of `config_test.go`
against the class contracts alone.

A getter returns the stored value when it already has the requested
type. Anything else is decided by the coercion library: for an absent key,
collection getters included, the model returns `Delegated(None)`.

## Model

| member | source | states |
|---|---|---|
| Strings.ContainsIff | colors.go:68-73 | the substring test used by `is256ColorSupported` holds iff the marker occurs at some position of the variable |
| ConfigStore.FormatKey | config.go:29-31 | the composite key is the namespace, then one '.', then the key, and nothing else |
| ConfigStore.SeparatorIsFirstDot | config.go:29-31 | when the namespace has no '.', the first '.' of the composite key is the separator |
| ConfigStore.FormatKeyInjective | config.go:29-31 | with dot-free namespaces, two (ns, key) pairs address the same entry iff they are equal |
| ConfigStore.FormatKeyCollision | config.go:29-31 | moving a '.' between namespace and key gives a different pair with the same composite key, e.g. ("a.b","c") and ("a","b.c") |
| ConfigStore.CollidingWriteVisible | config.go:29-41 | a value written under one spelling of a colliding key is read back under the other |
| ConfigStore.Lookup | config.go:44 | the map lookup finds a value exactly when the composite key has an entry, and then it is that entry's value |
| ConfigStore.Assign | config.go:39 | the map update adds the composite key, maps it to the new value and keeps every other entry |
| ConfigStore.DefaultConfig.IsSet | config.go:33-36 | true iff the composite key has an entry |
| ConfigStore.DefaultConfig.constructor | scurvy.go:39-41 | a new store's table is empty |
| ConfigStore.DefaultConfig.SetValue | config.go:38-41 | the entry at the composite key becomes the value, the key is then set, every other entry keeps its presence and value, and the error is always nil |
| ConfigStore.DefaultConfig.GetBool | config.go:43-46 | yields the stored bool exactly when the entry exists and holds a bool, otherwise the raw lookup result for the coercion library |
| ConfigStore.DefaultConfig.GetInt | config.go:48-51 | yields the stored int exactly when the entry exists and holds an int, otherwise the raw lookup result |
| ConfigStore.DefaultConfig.GetString | config.go:53-56 | yields the stored string exactly when the entry exists and holds a string, otherwise the raw lookup result |
| ConfigStore.DefaultConfig.GetStringSlice | config.go:58-61 | yields the stored string list exactly when the entry exists and holds one, otherwise the raw lookup result |
| ConfigStore.DefaultConfig.GetStringMap | config.go:63-66 | yields the stored string map exactly when the entry exists and holds one, otherwise the raw lookup result |
| ConfigStore.AssignThenLookup | config.go:33-41 | after a write, the entry is present and holds the written value |
| ConfigStore.AssignFrame | config.go:38-41 | a write leaves every other composite key's presence and value unchanged |
| ConfigStore.AssignLastWriteWins | config.go:38-41 | two writes to the same key equal the second write alone |
| ConfigStore.TypedRoundTrip | config.go:43-66 | a bool, int, string, string list or string map written and read with the matching getter comes back unchanged, with no error |
| Colors.StyleName | colors.go:51-62 | every slot's style is one of the eight names the scheme uses: Gray is "black+h", Bold is "default+b", the others their own color name |
| Colors.AnsiStart | colors.go:40 | each style's start code is an SGR sequence that opens with ESC[0; and ends with m, and is never the reset |
| Colors.MakeColorFunc | colors.go:38-49 | disabled gives the identity on every input; enabled wraps every input between the style's start sequence and the reset |
| Colors.DisabledIgnoresColor | colors.go:38-49 | with colors disabled the style name makes no difference: any two disabled decorators return the input |
| Colors.NewColorScheme | colors.go:51-62 | each of the eight slots holds the decorator of its own style name under the same enabled flag |
| Colors.SchemeSlot | colors.go:51-62 | a scheme's slot wraps with its style's start and the reset when enabled, and is the identity when disabled |
| Colors.PinnedEscapes | colors_test.go:25-41 | enabled Blue, Gray and Bold wrap with ESC[0;34m, ESC[0;90m and ESC[0;1;39m and the same reset ESC[0m; disabled they return the input |
| Colors.Is256ColorSupported | colors.go:64-74 | true iff one of the markers "256", "24bit", "truecolor" is contained in TERM or in COLORTERM |
| Colors.Is256ColorSupportedIff | colors.go:64-74 | extended color iff one of "256", "24bit", "truecolor" occurs, case-sensitively, in TERM or COLORTERM |
| Colors.EmptyEnvironmentUnsupported | config_test.go:67-71 | with TERM and COLORTERM both empty there is no extended color |
| Colors.TermAloneSuffices | colors.go:68-73 | a TERM that signals extended color gives true whatever COLORTERM holds |
| PortHole.DefaultPortHole.GetLogLevel | porthole.go:64-66 | returns the level the logger was configured with at construction |
| PortHole.DefaultPortHole.Magenta | porthole.go:68-70 | returns what the scheme's Magenta slot returns |
| PortHole.DefaultPortHole.Cyan | porthole.go:72-74 | returns what the scheme's Cyan slot returns |
| PortHole.DefaultPortHole.Red | porthole.go:76-78 | returns what the scheme's Red slot returns |
| PortHole.DefaultPortHole.Yellow | porthole.go:80-82 | returns what the scheme's Yellow slot returns |
| PortHole.DefaultPortHole.Blue | porthole.go:84-86 | returns what the scheme's Blue slot returns |
| PortHole.DefaultPortHole.Green | porthole.go:88-90 | returns what the scheme's Green slot returns |
| PortHole.DefaultPortHole.Gray | porthole.go:92-94 | returns what the scheme's Gray slot returns |
| PortHole.DefaultPortHole.Bold | porthole.go:96-98 | returns what the scheme's Bold slot returns |
| PortHole.DefaultPortHole.IsConsoleTTY | porthole.go:100-102 | returns the terminal flag fixed at construction |
| PortHole.DefaultPortHole.IsConsoleColored | porthole.go:104-106 | returns the colored flag fixed at construction, which on a constructed port hole implies the terminal flag |
| PortHole.DefaultPortHole.Config | porthole.go:113-115 | returns the stored config unchanged, nil included |
| PortHole.DefaultPortHole.ColorMethod | porthole.go:68-98 | each of the eight color methods returns exactly what its scheme slot returns |
| PortHole.ColorMethodOfValid | porthole.go:68-98 | on a port hole whose scheme matches its colored flag, a color method wraps with its slot's style when colored and returns the input otherwise |
| PortHole.IsTerminal | porthole.go:117-122 | a writer that is not an `*os.File` is never a terminal; a file is one iff the terminal test says so for its descriptor |
| Scurvy.NewConfig | scurvy.go:39-41 | a fresh store for which `IsSet` is false for every (ns, key) |
| Scurvy.EffectiveLevel | scurvy.go:72-75 | the parsed level when the parser accepts the string, warn when it reports an error |
| Scurvy.NewPortHole | scurvy.go:71-95 | colored iff requested, extended color and a terminal console; TTY iff the console is a terminal; scheme built from the final colored flag; console, error writer and config (nil included) stored unchanged; level parsed or warn |
| Scurvy.BadLevelFallsBackToWarn | scurvy.go:72-75 | a level string the parser rejects leaves the logger at warn |
| Scurvy.ColoredImpliesTTY | scurvy.go:82-85 | a constructed port hole is colored only if its console is a TTY |
| Scurvy.ConstructedColorMethod | scurvy.go:77-88 | a constructed port hole's color methods decorate exactly when all three conditions hold and return the input otherwise |
| Scurvy.NonFileConsoleIsPlain | porthole_test.go:73-86 | with a console that is not an `*os.File`, the port hole is neither TTY nor colored and every color method returns its input, whatever colors were requested |

## Left out

- Logging (`Trace` to `Panic`, level gating, timestamps, JSON records) belongs to the logging library. The model keeps only what the constructor hands it: the error writer and the minimum level.
- `GetLogLevel` is modelled as the level itself. Its string form comes from the logging library.
- The logging library's level parser is a parameter of `NewPortHole`. Which strings it accepts, `""` included, is that library's business. Only the fall-back to warn is stated.
- `ConsoleWrite` is formatted I/O on the console writer and is not modelled.
- `os.Getenv` and the terminal test are system calls. Their results are fields of `Environment`.
- Coercion by the casting library beyond extracting the matching variant is not modelled. Parsing a string as an int is one example. What a getter returns for an absent key is another. Both come back as `Delegated` with the raw lookup result.
- Colors.MakeColorFunc: when enabled, it requires one of the eight style names the scheme uses. The color library's parsing of other style strings is not modelled.
- Only the Blue, Gray and Bold start sequences are fixed by `colors_test.go`. The other five use the color library's table: ESC[0;35m magenta, ESC[0;36m cyan, ESC[0;31m red, ESC[0;33m yellow, ESC[0;32m green.
- The color library may return the empty string unwrapped. That is not visible in this code, so the model wraps every input.
- ConfigStore.DefaultConfig.SetValue: Go stores a `[]string` or `map[string]string` by reference, and the getters hand back that same slice or map. A caller that changes either one after the write, or changes what a getter returned, also changes the stored entry. In the model list and map values are immutable, so `TypedRoundTrip` and `ConfigScenario` hold without that aliasing.
- ConfigStore.DefaultConfig.SetValue: Go accepts any `interface{}`, including nil, `float64`, `int32` and `[]interface{}`. `Value` covers only bool, int, string, string list and string map. Storing nil, which makes `IsSet` true in Go, and the other types are not modelled.
- The concurrent map's thread safety is not modelled. The store is a plain sequential map.
- The `Config` interface has one implementation, `defaultConfig`. The port hole's config is typed as that class, and `null` stands for a nil config.
