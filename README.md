# microlog in Dafny

A model of microlog, a small leveled and colourised console logger for C.
The library keeps one process-wide configuration record, `g_config`. It holds
whether the logger has been initialised, whether the terminal gets colour
escapes ("smart output") and the output level. There are four emitters:
`ulog_info`, `ulog_debug`, `ulog_trace` and `ulog_error`. Debug and trace
messages are gated on the output level. Info and error messages are always
written. Each emitted message becomes one line. Error messages go to standard
error and all others to standard output.

The project has four files:

- `wrappers.dfy` (module `Wrappers`): an `Option` type for an environment
  variable that may be unset.
- `microlog_h.dfy` (module `MicrologHeader`): the enumerations of `microlog.h`.
  These are the output levels with their C values 0 to 4, and the feature flags
  with their bits.
- `microlog_spec.dfy` (module `MicrologSpec`): `microlog.c` as pure functions
  over a `State` value. A `State` is the `Config` record plus the text written so
  far to each stream. `Step` gives the effect of one public call and `Run` the
  effect of a sequence of calls. The lemmas state what single calls and whole
  sessions do.
- `microlog_logger.dfy` (module `MicrologEngine`): the class `Logger`. Its fields
  are those of `struct Config` plus the two streams. It has one method for each
  function of `microlog.c`, and `Write` stands for a single `fprintf` or
  `vfprintf` call. Each method is proved against `MicrologSpec` through
  `View()`. `PlainTerminalClient` is not part of the library: it is a client
  showing what a caller can conclude from the method contracts alone.

The environment probes that `ulog_init` makes are inputs of the model. These
are `getenv("TERM")` and `isatty(1)`. Every emitter takes an `Environment`
value, and it is consulted only when the call initialises the logger. The
formatted message is an opaque string: printf-style formatting is assumed to
have happened already.

Default level: `microlog.c:64` initialises the level to
`MicrologOutputLevelNormal`, which `microlog.h` does not declare. The
library's example program asserts that the default is
`MicrologOutputLevelInfo` (`example.c:7`), so the model starts at `LevelInfo`.

Header comments versus code: `microlog.h:43-47` says that level None shows no
messages and level Error shows only errors. `microlog.c` never gates info or
error messages, so the model follows the code. `Enabled` is true for info and
error messages at every level, including `LevelNone`.

## Model

| member | source | states |
|---|---|---|
| `MicrologHeader.Ordinal` | microlog.h:42-57 | each output level has the C value 0 to 4 that the enumeration gives it |
| `MicrologHeader.FromOrdinal` | microlog.h:42-57 | exactly the values 0 to 4 name a declared level |
| `MicrologHeader.OrdinalRoundTrip` | microlog.h:42-57 | a level's value maps back to that level, so the values are distinct |
| `MicrologHeader.FromOrdinalRoundTrip` | microlog.h:42-57 | every declared value names a level that has exactly that value |
| `MicrologHeader.LevelsTotallyOrdered` | microlog.h:42-57 | two levels are equal iff their values are; distinct levels compare one way only; the order is irreflexive |
| `MicrologHeader.DeclarationOrder` | microlog.h:42-57 | None < Error < Info < Debug < Trace, and the order is transitive |
| `MicrologHeader.FeatureBit` | microlog.h:60-66 | each feature flag is a single non-zero bit of an unsigned char: Color is bit 0 (value 1) and Time is bit 1 (value 2) |
| `MicrologHeader.FeatureBitsDisjoint` | microlog.h:60-66 | two features share no bit iff they are different features |
| `MicrologSpec.SmartOutput` | microlog.c:72-81 | colour is used iff TERM is set, stdout is a tty and TERM is not "dumb"; an unset TERM gives no colour |
| `MicrologSpec.AfterInit` | microlog.c:67-82 | initialisation marks the logger initialised and keeps the level; a second initialisation changes nothing; a first one sets smart output from the probes |
| `MicrologSpec.StreamFor` | microlog.c:122 | a message goes to stderr iff it is an error message |
| `MicrologSpec.ColorPrefix` | microlog.c:89-107 | without smart output, and for normal messages, no prefix is written; on a smart terminal debug gets ESC[33m (yellow), trace ESC[34m (blue) and error ESC[31m (red) |
| `MicrologSpec.ColorPrefixesDistinct` | microlog.c:43-45 | debug, trace and error messages get pairwise different colours |
| `MicrologSpec.ResetSuffix` | microlog.c:109-115 | the reset ESC[0m is written iff output is smart, whatever the message kind |
| `MicrologSpec.Appended` | microlog.c:124-128 | one write appends its text to the chosen stream and leaves the configuration and the other stream unchanged |
| `MicrologSpec.Line` | microlog.c:124-128 | without smart output a line is exactly the message and a newline; every line ends in a newline and has the length of its parts |
| `MicrologSpec.LineRoundTrip` | microlog.c:124-128 | a line is prefix, message, reset and newline in this order; the message reads back from the line; on a smart terminal every line ends with the reset and a newline |
| `MicrologSpec.PlainLineHasNoEscape` | microlog.c:89-92 | without smart output a line has no escape character unless the message has one |
| `MicrologSpec.AfterLog` | microlog.c:117-129 | logging initialises the logger and appends exactly one line to the message's stream, leaving the other stream unchanged |
| `MicrologSpec.Enabled` | microlog.c:141-175 | debug messages are shown iff the level is Debug or Trace, trace messages iff it is Trace, info and error messages at every level |
| `MicrologSpec.EnabledMonotone` | microlog.h:52-56 | the trace level shows debug messages too; raising the level never hides a message a lower level shows |
| `MicrologSpec.Step` | microlog.c:84-175 | only the level setter changes the level; an initialised logger keeps its flags; an emitted call leaves the logger initialised; a level change or a suppressed call writes nothing and initialises nothing |
| `MicrologSpec.Run` | microlog.c:84-87 | after a sequence of calls the level is the last one set, or the starting level if none was set |
| `MicrologSpec.RunAppend` | microlog.c:84-175 | running two sequences of calls one after the other is running their concatenation |
| `MicrologSpec.SilentCallsChangeOnlyLevel` | microlog.c:141-165 | calls that emit nothing change only the level: no write and no initialisation, so no environment probe |
| `MicrologSpec.SetOutputLevelOnlyChangesLevel` | microlog.c:84-87 | setting the level changes the level and leaves the initialisation flags and both streams unchanged |
| `MicrologSpec.SuppressedCallIsNoOp` | microlog.c:141-165 | only debug and trace calls can be suppressed; a suppressed call writes nothing and does not initialise |
| `MicrologSpec.EmittedCallAppendsOneLine` | microlog.c:117-175 | an emitted call leaves the logger initialised with smart output probed only the first time, and appends one line to its stream only |
| `MicrologSpec.InitialisationIsFinal` | microlog.c:67-82 | once initialised, the logger stays initialised and its smart-output flag never changes over any sequence of calls |
| `MicrologSpec.FirstEmissionInitialises` | microlog.c:117-120 | from an uninitialised logger, the calls before the first emitting one leave no trace, and that call initialises the logger from its own environment and writes its one line |
| `MicrologSpec.FirstEmissionDecidesColour` | microlog.c:117-120 | from an uninitialised logger, whatever silent calls come first, the environment seen by the first emitted message decides colour for the whole session, and the streams carry exactly that session's error lines and enabled non-error lines |
| `MicrologSpec.RunKeepsConsistent` | microlog.c:61-82 | no sequence of calls turns on smart output before initialisation |
| `MicrologSpec.StreamsOnlyGrow` | microlog.c:117-129 | over any sequence of calls both streams are only appended to |
| `MicrologSpec.StderrCarriesEveryError` | microlog.c:167-175 | once initialised, stderr receives exactly one line per error message, in order, whatever the level |
| `MicrologSpec.StdoutCarriesEnabledMessages` | microlog.c:131-165 | once initialised, stdout receives exactly one line per info message and per debug or trace message enabled by the level in force at the time |
| `MicrologSpec.ErrorOutputAppend` | microlog.c:167-175 | the error lines of two sequences of calls are those of the first followed by those of the second |
| `MicrologSpec.StandardOutputAppend` | microlog.c:131-165 | the stdout lines of two sequences of calls are those of the first followed by those of the second, shown at the level the first leaves in force |
| `MicrologSpec.SilentCallsOutputNothing` | microlog.c:141-165 | calls that emit nothing contribute no line to either stream |
| `MicrologSpec.ExampleSession` | example.c:9-26 | the calls of the example program that microlog.c defines, on a colour terminal: four coloured lines on stdout (info, debug, trace, and the second trace, which stays blue), one red line on stderr, and the trace message after lowering the level to Debug is hidden |
| `MicrologEngine.Logger.constructor` | microlog.c:61-65 | the logger starts uninitialised, without smart output, at level Info, with empty streams |
| `MicrologEngine.Logger.Init` | microlog.c:67-82 | updates the two flags in place as `AfterInit` says; an initialised logger keeps its smart-output flag |
| `MicrologEngine.Logger.SetOutputLevel` | microlog.c:84-87 | only the level field changes |
| `MicrologEngine.Logger.Write` | microlog.c:125 | appends the text to the chosen stream and changes nothing else |
| `MicrologEngine.Logger.SetColor` | microlog.c:89-107 | appends the kind's colour prefix to the stream when output is smart |
| `MicrologEngine.Logger.ResetColor` | microlog.c:109-115 | appends the reset escape when output is smart |
| `MicrologEngine.Logger.LogInternal` | microlog.c:117-129 | the state after the successive writes equals `AfterLog` of the state before |
| `MicrologEngine.Logger.Info` | microlog.c:131-139 | always appends one line to stdout; stderr and the level are unchanged |
| `MicrologEngine.Logger.Debug` | microlog.c:141-152 | below level Debug nothing changes; otherwise one debug line is appended to stdout |
| `MicrologEngine.Logger.Trace` | microlog.c:154-165 | below level Trace nothing changes; otherwise one trace line is appended to stdout |
| `MicrologEngine.Logger.Error` | microlog.c:167-175 | always appends one line to stderr, even at level None; stdout and the level are unchanged |

## Left out

- printf-style formatting (`vfprintf`, `va_list`, `ULOG_FORMAT`): the message is an already formatted string. The conversions belong to the C library.
- `getenv("TERM")` and `isatty(1)` are not modelled. Their results are the fields of `Environment`, an input of every emitter.
- Real `FILE *` streams and write failures: the streams are append-only strings. The library never checks whether a write succeeded.
- `ulog_output_level`, `ulog_enable_feature`, `ulog_disable_feature`, `ulog_has_feature` and the elapsed-time prefix are declared in `microlog.h:68-81` but have no definition in `microlog.c`. Only the feature bits are modelled.
- Output levels outside the five declared values: C lets a caller pass any integer as `enum MicrologOutputLevel`, but the model's level type has only the declared values.
- The header comments for levels None and Error (`microlog.h:43-47`) are not modelled as properties. The code shows info and error messages at every level, and the model follows the code.
- `MicrologOutputLevelNormal` (`microlog.c:64`) is not a declared level. The model uses `LevelInfo` as the default, the value that `example.c:7` expects.
- `ExampleSession` skips the calls of `example.c` that `microlog.c` does not define: `ulog_output_level` (line 7), `ulog_enable_feature` (line 10) and `ulog_disable_feature` (line 18). As written, the example program does not link against `microlog.c`.
- Concurrency: unsynchronised access to `g_config` from several threads is outside the model.
