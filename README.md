# vlog handler core, modelled in Dafny

This project models the core of `vlog`, a small logging façade over Go's `log/slog`:

- the fan-out `MultiHandler`;
- the colourised console `PrettyHandler`;
- the package-level logging functions (`Debug`, `Info`, …, `Errorf`);
- the hertz `hlog` adapter: level mapping, option-driven configuration, the level-label `ReplaceAttr` hook, and the level each `HLog` method logs at;
- the exported `Config` record with its functional options.

Modules follow the source files:

| module | file | what it holds |
|---|---|---|
| `Wrappers` | wrappers.dfy | `Option` (Go's nil or a value) and `Result` (a value or a Go panic) |
| `Slog` | slog.dfy | the slog/io collaborators: levels, values, attributes, records, an opaque handler value, `LevelVar` as a plain cell, `Leveler`, `HandlerOptions`, writers |
| `Multi` | multi.dfy | `multi.go` |
| `Pretty` | pretty.dfy | `pretty.go` |
| `Warp` | warp.dfy | `warp.go` |
| `Hertz` | hertz.dfy | `hertz.go` |
| `Config` | config.dfy | `config.go` (it declares the same option names as `hertz.go`, so it is a separate module) |

How outside code is represented:

- **Handlers outside the core** are the value `Slog.Handler`. This covers slog's text and JSON handlers, user handlers, and the children of a multi-handler. A `Handler` is enabled from its `threshold` up. Its `Handle` returns its `failure`, where `None` stands for a nil error. `WithAttrs`/`WithGroup` append to its `scopes`.
- **`Multi.MultiHandler.Handle`** also returns `invoked`: the indices of the children whose `Handle` ran, in call order. This lets "earlier children ran, later ones did not" be stated.
- **Opaque renderers become parameters.** These are time formatting, `slog.Level.String`, call-site resolution to `file:line`, and `%v`/`fmt.Sprint`/`fmt.Sprintf` (`Pretty.Env`, and the `sprint`/`sprintf` parameters in `Warp`). The clock reading and the captured program counter are parameters too (`now`, `caller`).
- **The default logger** (the global `Log`) is passed in as the handler it wraps.
- **Each Go closure becomes a datatype constructor.** The option closures are constructors of `Hertz.Option` and `Config.OptionFunc`, whose `Apply` methods update the record in place. The `replaceAttr` closure is a Dafny lambda over `Hertz.ReplaceAttr`.
- **Go panics** are `Result.Panic`. Three are modelled: a nil `*HandlerOptions` or nil `*LevelVar` dereferenced by `NewHLog` or `SetLevel`, and the failed `slog.Level` type assertion inside `replaceAttr`.
- **`hlog.Level`** is an `int` with the constants `HTrace` … `HFatal` = 0 … 6. That is the declaration order (iota) of the hlog package, which is not part of this model.

Behaviour of the code that the model keeps as written, although it may look unintended:

- The call-site segment `[ file:line ] ` appears for Debug **and** Error records (`pretty.go:59`), and for no other level.
- `log` pairs argument `i` with argument `i + 1` for `i < len(args)/2` (`warp.go:20-21`). This is an overlapping window, not consecutive (key, value) pairs. `("a","1","b","2")` gives `a = 1` and `1 = b`; the odd-length case `("k1","v1","k2")` gives only `k1 = v1` either way.
- `NewPrettyHandler` ignores its `opts`. Every pretty handler admits Debug and above (`pretty.go:79-88`), so its threshold cannot be chosen at construction.
- `PrettyHandler.Handle` never reads what `WithAttrs`/`WithGroup` accumulated. That state goes into an inner text handler whose buffer is never read. A pretty line shows only the record's own attributes.
- `CtxTracef` logs at Debug, although its name says Trace (`hertz.go:183-185`).
- The logger `NewHLog` returns is the default logger grouped under `"hlog"` (`hertz.go:140`). It does not use the resolved level or handler options until `SetOutput` replaces it with a JSON logger over them.

## Model

| member | source | states |
|---|---|---|
| `Multi.EnabledBefore` | multi.go:40-43 | The children before `n` that are enabled for the level: exactly those, each once, in increasing index order. These are the children `Handle` calls. |
| `Multi.FirstFailing` | multi.go:44-47 | The first child at or after `from` that is enabled and whose `Handle` fails. No child between `from` and it fails; `None` means no child in the rest fails. |
| `Multi.MultiHandler.Enabled` | multi.go:14-21 | True iff every child is enabled for the level. With no children it is true for every level. |
| `Multi.MultiHandler.WithAttrs` | multi.go:23-29 | A fresh handler over a fresh slice of the same length. Child `i` is `children[i].WithAttrs(attrs)`. The receiver and its slice are unchanged. |
| `Multi.MultiHandler.WithGroup` | multi.go:31-37 | The same element-wise, order-preserving mapping with `WithGroup(name)`. The receiver is unchanged. |
| `Multi.MultiHandler.Handle` | multi.go:39-50 | Only children enabled for the record's level are invoked, in order. With no failing child it returns nil after invoking all of them. Otherwise it returns the first failing child's error: the enabled children before it were invoked, and no child after it was. The result is nil iff every enabled child's `Handle` returns nil. |
| `Multi.NewMultiHandler` | multi.go:52-54 | The new handler keeps the very slice it was given, so the children are in argument order. |
| `Pretty.LevelColor` | pretty.go:47-56 | Magenta, cyan, yellow or red for exactly Debug, Info, Warn or Error. No colour for any other level. |
| `Pretty.WriteLevelColor` | pretty.go:47-56 | The colour switch appends exactly `LevelColor(level)` to the buffer. |
| `Pretty.WriteSource` | pretty.go:59-64 | Appends the green `[ file:line ] ` segment for Debug and Error, and nothing otherwise. |
| `Pretty.WriteAttrs` | pretty.go:67-73 | Appends the attribute block: the blue escape, then ` key = value` for each attribute in record order. Nothing is appended when there are none. |
| `Pretty.AttrsBlock` | pretty.go:67-73 | The attribute block is empty iff the record has no attributes. |
| `Pretty.AttrsTextAppend` | pretty.go:69-72 | Rendering attributes `a + b` renders `a`'s pairs followed by `b`'s pairs, so record order is kept. |
| `Pretty.SourceShownIff` | pretty.go:59-64 | Two call sites give the same line iff they are equal or the level is neither Debug nor Error. So the call site is rendered for exactly those two levels. |
| `Pretty.PrettyHandler.Enabled` | pretty.go:32-34 | Enabled exactly for levels at or above Debug (-4). |
| `Pretty.PrettyHandler.WithAttrs` | pretty.go:35-37 | A new pretty handler whose inner handler carries the attributes. It shares the buffer and the mutex and still admits exactly Debug and above. |
| `Pretty.PrettyHandler.WithGroup` | pretty.go:38-40 | The same, for a group name. |
| `Pretty.PrettyHandler.Handle` | pretty.go:42-77 | The text written is `Line(...)` plus a newline. `Line` lays out the time colour, time, level colour, level text, a space, the call site when shown, the message colour, the message, the attribute block and the reset, in that order. The text is built from the record and the renderers alone, never from the handler's own state. The error is always nil. |
| `Pretty.NewPrettyHandler` | pretty.go:79-89 | Whatever `opts` is, the handler's inner text handler admits Debug and above and has no scoping. The buffer and mutex are fresh and the buffer is empty. |
| `Warp.PairsUpTo` | warp.go:19-22 | Exactly `n` attributes. Attribute `i` has key `Sprint(args[i])` and value `Sprint(args[i+1])`: an overlapping window that never reads past the arguments. |
| `Warp.OddLengthDropsLast` | warp.go:20-22 | `("k1","v1","k2")` yields the one attribute `k1 = v1`. |
| `Warp.WindowOverlaps` | warp.go:20-22 | `("a","1","b","2")` yields `a = 1` then `1 = b`. |
| `Warp.Log` | warp.go:11-25 | When the default logger is not enabled for the level, no record is built or dispatched. Otherwise the dispatched record carries the given time, level, message and call site and exactly the `len(args)/2` window attributes. The handler's error is dropped. |
| `Warp.Logf` | warp.go:27-37 | The same short-circuit. The message is `Sprintf(format, args...)` and no attribute is added. |
| `Warp.Debug` | warp.go:43 | Dispatches iff Debug is enabled. The record carries the given time, Debug, the message as passed, the given call site, and the window attributes. |
| `Warp.Info` | warp.go:44 | Dispatches iff Info is enabled. The record carries the given time, Info, the message as passed, the given call site, and the window attributes. |
| `Warp.Warn` | warp.go:45 | Dispatches iff Warn is enabled. The record carries the given time, Warn, the message as passed, the given call site, and the window attributes. |
| `Warp.Error` | warp.go:46 | Dispatches iff Error is enabled. The record carries the given time, Error, the message as passed, the given call site, and the window attributes. |
| `Warp.Debugf` | warp.go:39 | Dispatches iff Debug is enabled. The record carries the given time, Debug, the message formatted from `format` and the arguments, the given call site, and no attributes. |
| `Warp.Infof` | warp.go:40 | Dispatches iff Info is enabled. The record carries the given time, Info, the message formatted from `format` and the arguments, the given call site, and no attributes. |
| `Warp.Warnf` | warp.go:41 | Dispatches iff Warn is enabled. The record carries the given time, Warn, the message formatted from `format` and the arguments, the given call site, and no attributes. |
| `Warp.Errorf` | warp.go:42 | Dispatches iff Error is enabled. The record carries the given time, Error, the message formatted from `format` and the arguments, the given call site, and no attributes. |
| `Hertz.HLevelToSLevel` | hertz.go:29-49 | Trace, Debug, Info, Notice, Warn, Error and Fatal map to -8, -4, 0, 2, 4, 8 and 12. Every other value maps to Warn (4). |
| `Hertz.HLevelOrderPreserved` | hertz.go:84-88 | The images of the seven hlog levels are strictly increasing in hlog order. |
| `Hertz.LevelLabel` | hertz.go:114-131 | Each of the seven slog levels (Trace, Debug, Info, Notice, Warn, Error, Fatal) gets its own name. Every other slog level reads "Warn". |
| `Hertz.LabelOfMappedLevel` | hertz.go:111-131 | Mapping an hlog level and then labelling it gives that level's own name. Any unknown hlog level reads "Warn". |
| `Hertz.ReplaceAttr` | hertz.go:104-138 | Only a "level" attribute is rewritten, to its label; a "level" attribute that does not hold a Level panics. The result then goes through the user's hook if one was set, and is otherwise returned as is. |
| `Hertz.ReplaceAttrWithoutHook` | hertz.go:111-138 | With no user hook, other attributes come back unchanged and a level becomes its label. |
| `Hertz.ReplaceAttrTwicePanics` | hertz.go:110-139 | If the closure is chained onto itself, every level attribute panics. This happens when one `HandlerOptions` is given to `NewHLog` twice. |
| `Hertz.Option.Apply` | hertz.go:64-82 | Each option sets only its own fields: `WithLevel` the level and its flag, `WithHandlerOptions` the options and their flag, `WithOutput` the output. |
| `Hertz.ApplyAllAppend` | hertz.go:94-96 | Applying options `a + b` is applying `a`, then `b`. |
| `Hertz.UntouchedFields` | hertz.go:94-96 | A field that no option names keeps its value. |
| `Hertz.LastOptionWins` | hertz.go:94-96 | The last option naming a field decides that field, so a later option overrides an earlier one. |
| `Hertz.FlagsRecordOptions` | hertz.go:64-76 | `withLevel` is set iff some option is a `WithLevel`, and `withHandlerOptions` iff some option is a `WithHandlerOptions`. Starting from the defaults, the flags and the output are those of the fold from a blank record, and a field no option set keeps its default. The handler options in force are the default ones or ones passed in. |
| `Hertz.DefaultConfig` | hertz.go:51-62 | Level Info in a fresh cell, both flags false, output stdout. The handler options' `Level` is that same cell. |
| `Hertz.NewHLog` | hertz.go:92-141 | Options are applied in argument order. With no `WithLevel` but a `WithHandlerOptions` whose `Level` is set, the level becomes a fresh cell holding that level. Then the handler options' `Level` is the level cell and their `ReplaceAttr` is the label rewrite chained to the previous hook. The logger is the default one grouped under "hlog". It panics exactly on nil handler options or a nil level cell read. The only caller object it may change is the handler options in force after the options, and their `AddSource` keeps its value (false for the fresh default options). |
| `Hertz.HLog.SetLevel` | hertz.go:151-154 | The shared level cell now holds `HLevelToSLevel(level)`. A nil cell panics. |
| `Hertz.HLog.SetOutput` | hertz.go:155-158 | Only the output field changes. The logger becomes a JSON logger over the writer and the handler options. |
| `Hertz.MethodLevel` | hertz.go:159-203 | Each of the 21 logging methods logs at the mapped level of its own name, except `CtxTracef`, which logs at Debug. |
| `Config.OptionFunc.Apply` | config.go:12-42 | `WithLevel` sets `Level` and `WithLevel` only. `WithHandlerOptions` sets `HandlerOptions` and `WithHandlerOptions` only. `WithOutput` sets `Output` only. |

## Left out

- `vlog.go` (opening files, the lumberjack rotation writer, `BufferedWriteSyncer`, `Sync`, and `New`/`NewV2` replacing the global logger with a pretty + JSON multi-handler) is wiring to I/O libraries and is not part of this model. `NewV2` panics on a nil writer slice, which is not modelled.
- The tests `pretty_test.go` and `vlog_test.go` only print to the console and assert nothing.
- Time formatting with the layout `[15:04:05.000] `, call-site resolution through `runtime.CallersFrames`, rendering with `fmt.Sprint`/`%v`/`fmt.Sprintf`, and `slog.Level.String` are opaque functions passed in as parameters.
- Pretty.PrettyHandler.Handle: returns the text it writes to standard error rather than performing the write. A failed write is ignored in the source, so nothing else depends on it.
- slog's text and JSON handlers and `slog.Logger` are not modelled inside. A handler is the opaque `Slog.Handler` value, and `Hertz.Logger` records which slog logger an `HLog` writes through.
- Multi.MultiHandler.Handle: each child is an opaque handler value with a fixed threshold and a fixed failure. A child that is itself a multi-handler or a pretty handler is represented only by that behaviour.
- Handlers whose threshold is read from a shared `LevelVar` at each `Enabled` call are not modelled. Handler thresholds are fixed numbers, so "change the level at run time, later calls follow it" is not stated.
- `LevelVar` atomics, the mutex in `PrettyHandler` (kept only as a shared object), all concurrency, and `context` plumbing are left out.
- `slog.Value` is limited to strings and levels. The record's dropping of empty-group attributes in `AddAttrs` never arises for the string attributes `log` builds.
- `HLog.Logger()` only returns the logger field. The `hlog.FullLogger` interface conformance is a compile-time check.
- `Config.OptionFunc` models only the package's three options. A user can wrap any `func(*Config)` as an `OptionFunc`, and such user-built options are not represented, because their effect is arbitrary code.
- The functions `WithLevel`, `WithHandlerOptions` and `WithOutput` in both `Hertz` and `Config` only build the option value. What the option does is stated on the `Apply` rows.
