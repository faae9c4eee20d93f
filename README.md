# sloghandler in Dafny

A model of the Go package `github.com/fujiwara/sloghandler` and its two
metrics wrappers, with proofs about them.

- **Text handler** (`main.go`, `source.go`; Dafny module `TextHandler`).
  - A `slog.Handler` that writes one line per record: the timestamp, ` [LEVEL]`, the attributes bound with `WithAttrs`, the record's own attributes as ` [key:value]` (or ` [value]` for an empty key), then ` message` and a newline.
  - With colour on, the whole line goes through a print function chosen by level.
  - A source-location shortener keeps the file name plus up to `SourceDepth` parent directories, and memoises the result in a per-handler cache.
- **Prometheus wrapper** (`prommetrics/handler.go`; module `PromMetrics`).
  - Wraps another `slog.Handler`.
  - At construction it registers one zero series per predefined level at or above `MinLevel`.
  - For every record at or above `MinLevel` it adds 1 to the series named by the level and by the last value of each chosen label attribute.
  - It always forwards the record to the wrapped handler.
- **OpenTelemetry wrapper** (`otelmetrics/handler.go`; module `OtelMetrics`).
  - The same logic over an `Int64Counter`, with `attribute.KeyValue` lists.
  - Module `MetricsAgreement` proves that the two wrappers make the same decisions.

Supporting modules:

- `SourcePath`: Unix paths as segment lists, `Base`/`Dir`/`Join`, and the shortened path as a specification.
- `Slog`: levels and their names, values, attributes, records, the last-match lookup, and a recording stand-in for the wrapped handler.
- `Counters`: counters as maps from label keys to naturals.

How the model is built:

- **Stateful code is modelled as classes.**
  - `LogHandler` holds `sourceCache`, a map that only grows.
  - The writer is a `Writer` that records every write.
  - The metrics counters are classes whose `values` map the handlers update.
  - The wrapped handler is a `BaseHandler` that logs what it is given.
- **Each loop of the Go code is a loop here**, proved against a specification function:
  - the line builder and the `WithAttrs` prefix loop;
  - the parent-directory walk;
  - the zero-registration loops;
  - the label-filling loops, which write into an `array`.

### Where the code differs from its tests and doc comments (the model follows the code)

- `WithAttrs` (main.go:129-145) builds the new prefix from the given attributes alone. The receiver's prefix is not carried over. The slog.Handler documentation asks WithAttrs to return a handler with the receiver's attributes plus the new ones. See Findings.
- Debug records with colour on are coloured: `DebugColor` defaults to dark grey (main.go:21, 78-79). The tests at handler_test.go:361-371 and 517-525 expect no escape sequence for them.
- `Handle` (main.go:93-127) never calls `printSource`. Lines carry no source suffix. `PrintSource` is modelled as the standalone buffer step it is.
- With colour on, `Handle` returns nil whatever the writer answered (main.go:118-121). The writer's error is returned only when colour is off.
- The comment on `Options.MinLevel` at prommetrics/handler.go:19 (and otelmetrics/handler.go:20) says that the zero value records all levels. But zero is `LevelInfo`, so Debug records are not counted. `ZeroOptionsSkipDebug` states what the code does.

## Model

| member | source | states |
|---|---|---|
| SourcePath.ShortPartsShape | source.go:34-40 | the walk yields a tail of the path's segments ending in the file name, with at most depth directories, fewer only when the first segment was reached |
| SourcePath.RootNeverEmitted | source.go:37 | no emitted part contains the separator: the root is never a part |
| SourcePath.ShortPathDepthZero | source.go:21-30 | a negative depth gives the same result as depth 0, which is the file name alone |
| SourcePath.ShortPathIsSuffix | source.go:34-42 | the shortened path is a suffix of the full path |
| SourcePath.ShortPathExample | source.go:34-42 | "/a/b/c/file.go" gives "b/c/file.go" at depth 2 and "file.go" at depth 0 |
| Slog.PredefinedLevelNames | prommetrics/handler.go:13 | the four predefined levels are named DEBUG, INFO, WARN, ERROR |
| Slog.LevelStringBand | main.go:98 | a level's name starts with the name of the predefined level at or below it |
| Slog.LastValueSpec | prommetrics/handler.go:105-112 | the label value is "" when no attribute has the key, otherwise the value of the last attribute that has it |
| Slog.LastValueIgnoresOtherKeys | prommetrics/handler.go:105-112 | an attribute with another key, inserted anywhere, does not change the label value |
| TextHandler.EnabledAsWritten | main.go:71-73 | with a Level set, true exactly when the record's level is at least it; with no Level, a panic |
| TextHandler.NilLevelerPanics | main.go:71-73 | options without a Level make Enabled panic |
| TextHandler.Enabled | main.go:71-73 | agrees with the code whenever a Level is set; with none, true exactly from LevelInfo up |
| TextHandler.EnabledThreshold | main.go:71-73 | Enabled holds at the minimum level, fails just below it, and stays true at every higher level |
| TextHandler.FprintFunc | main.go:75-91 | the default printer for every level when colour is off; with colour on: Debug, Warn and Error get their colour, Info only when InfoColor is not 0, and other levels the default; each entry holds in both directions |
| TextHandler.RenderAttrShape | main.go:104-111 | for every value: the rendering starts with " [" and ends with "]"; with a key, " [key:" comes first and the value text fills the rest; without a key, the value text alone fills the space between the brackets |
| TextHandler.RenderAttrColon | main.go:104-111 | for a value whose text has no colon, the attribute renders with a colon exactly when its key is not empty |
| TextHandler.RenderAttrsAppend | main.go:104-111 | rendering keeps attribute order: rendering a concatenation is concatenating the renderings |
| TextHandler.LineFrame | main.go:96-113 | the line starts with the timestamp and level tag and ends with " message" and a single newline |
| TextHandler.BoundAttrsPrecedeRecordAttrs | main.go:98-111 | a prefix rendered from bound attributes makes the line of a record that carries those attributes before its own; an empty prefix adds nothing |
| TextHandler.NestedWithAttrsDropsParent | main.go:129-145 | a handler derived twice renders only the second binding |
| TextHandler.AccumulatedPrefixLine | main.go:129-145 | with the prefix carried over, a handler derived twice renders both bindings in order, then the record's attributes |
| TextHandler.Writer.Write | main.go:121-124 | a write appends one chunk holding a prefix of the bytes; a short write reports an error |
| TextHandler.LogHandler.constructor | main.go:63-69 | no prefix, a new lock, the given writer and options, an empty cache |
| TextHandler.LogHandler.Derived | main.go:139-144 | the given options, prefix, lock and writer, with an empty cache |
| TextHandler.LogHandler.FormatRecord | main.go:94-113 | the buffer holds exactly the line: header, prefix, the record attributes in order, message, newline |
| TextHandler.LogHandler.Handle | main.go:93-127 | exactly one write of a prefix of that line, through the level's printer when colour is on and raw otherwise; the result is the write's error with colour off and no error with colour on |
| TextHandler.LogHandler.WithAttrs | main.go:129-145 | a new handler sharing options, lock and writer, whose prefix is the given attributes rendered in order, without the receiver's prefix |
| TextHandler.LogHandler.WithAttrsAccumulating | main.go:129-145 | the corrected WithAttrs: the receiver's prefix followed by the given attributes |
| TextHandler.LogHandler.WithGroup | main.go:147-149 | returns the receiver itself |
| TextHandler.LogHandler.GetFilePath | source.go:15-45 | the result is the shortened path for the configured depth; on a cache hit it is the stored value; the cache gains exactly that entry and loses none |
| TextHandler.WalkParents | source.go:34-40 | the names collected by the walk are exactly the shortened path's parts for a positive depth |
| TextHandler.LogHandler.PrintSource | source.go:47-52 | appends " [file:line]" when the record has a source and nothing otherwise; the buffer's content is kept |
| TextHandler.RenderAttrsInOrder | main.go:130-138 | the prefix is the attributes rendered in order |
| PromMetrics.DefaultOptions | prommetrics/handler.go:27-32 | MinLevel is Info and there are no label attributes, so Debug is not counted and Info is |
| PromMetrics.ZeroOptionsSkipDebug | prommetrics/handler.go:16-21 | zero-valued options have the default MinLevel, and Debug records are not counted under them |
| PromMetrics.LabelTuple | prommetrics/handler.go:99-100 | the tuple holds the level name plus one value per label attribute |
| PromMetrics.ZeroTuple | prommetrics/handler.go:72-76 | the registered tuple holds the level name plus one value per label attribute |
| PromMetrics.LabelTupleMeaning | prommetrics/handler.go:99-112 | position 0 of the tuple is the level name; position i+1 is "" without a matching attribute, and the last match's value otherwise |
| PromMetrics.LabelTupleIgnoresUnlistedAttrs | prommetrics/handler.go:105-112 | an attribute whose key is not a label attribute never changes the tuple |
| PromMetrics.LevelOnlyTuple | prommetrics/handler.go:95-96 | without label attributes, the tuple is the level name alone, the same one the level was registered under |
| PromMetrics.InitialTuplesStep | prommetrics/handler.go:66-80 | each predefined level adds its zero tuple exactly when it is at or above MinLevel |
| PromMetrics.InitialTuplesMeaning | prommetrics/handler.go:66-80 | the registered tuples are exactly the zero tuples of the predefined levels at or above MinLevel |
| PromMetrics.DefaultInitialTuples | prommetrics/handler.go:59-80 | the default options register INFO, WARN and ERROR, and not DEBUG |
| PromMetrics.Count | prommetrics/handler.go:91-117 | a record below MinLevel leaves the counters unchanged; any other record adds exactly 1 to its own tuple and to nothing else |
| PromMetrics.CountAllHits | prommetrics/handler.go:91-117 | over a run of records, each series grows by the number of records counted under it |
| PromMetrics.CountNRecords | prommetrics/handler.go:95-96 | N counted records at one level, without label attributes, add N to that level's series |
| PromMetrics.UncountedRecordsChangeNothing | prommetrics/handler.go:92-94 | records below MinLevel never change the counters |
| PromMetrics.CountAllKeepsKeys | prommetrics/handler.go:66-80 | once every counted record's tuple is registered, no new series appears |
| PromMetrics.ScenarioHits | prommetrics/handler_test.go:40-46 | the documented run hits INFO twice, WARN once and ERROR twice |
| PromMetrics.DefaultScenario | prommetrics/handler_test.go:40-101 | after NewHandler and that run: INFO is 2, WARN is 1, ERROR is 2, and there is no DEBUG series |
| PromMetrics.CounterVec.Add | prommetrics/handler.go:69 | adds n to the series at the tuple and to nothing else |
| PromMetrics.SlogHandler.constructor | prommetrics/handler.go:82-86 | the wrapper holds the base handler, the counter and the options |
| PromMetrics.SlogHandler.Handle | prommetrics/handler.go:91-117 | the counters become Count of the old counters; the record is forwarded once, unchanged, and the downstream result is returned |
| PromMetrics.SlogHandler.Enabled | prommetrics/handler.go:35-39 | not overridden: the wrapped handler's Enabled decides, whatever MinLevel is, so records below MinLevel still reach Handle |
| PromMetrics.SlogHandler.WithAttrs | prommetrics/handler.go:35-39 | not overridden: the wrapped handler's derived handler, which no longer counts |
| PromMetrics.SlogHandler.WithGroup | prommetrics/handler.go:35-39 | not overridden: the wrapped handler's derived handler |
| PromMetrics.FillLabels | prommetrics/handler.go:99-112 | the labels slice ends up equal to the label tuple |
| PromMetrics.NewHandlerWithOptions | prommetrics/handler.go:64-87 | the counters gain exactly the zero tuples of the levels at or above MinLevel, at 0; existing series keep their counts |
| PromMetrics.NewHandler | prommetrics/handler.go:59-61 | NewHandlerWithOptions with the default options |
| OtelMetrics.DefaultOptions | otelmetrics/handler.go:28-33 | MinLevel is Info and there are no label attributes |
| OtelMetrics.AttrSet | otelmetrics/handler.go:107-108 | the list holds the level entry plus one entry per label attribute |
| OtelMetrics.ZeroSet | otelmetrics/handler.go:75-79 | the registered list holds the level entry plus one entry per label attribute |
| OtelMetrics.AttrSetMeaning | otelmetrics/handler.go:107-123 | "level" with the level name comes first; entry i+1 has key LabelAttributes[i], and its value is the last match's or "" |
| OtelMetrics.AttrSetIgnoresUnlistedAttrs | otelmetrics/handler.go:116-123 | an attribute whose key is not a label attribute never changes the list |
| OtelMetrics.LevelOnlySet | otelmetrics/handler.go:100-104 | without label attributes, the list is the level alone, the same one the level was registered under |
| OtelMetrics.InitialSetsStep | otelmetrics/handler.go:67-83 | each predefined level adds its zero list exactly when it is at or above MinLevel |
| OtelMetrics.InitialSetsMeaning | otelmetrics/handler.go:67-83 | the registered lists are exactly the zero lists of the predefined levels at or above MinLevel |
| OtelMetrics.Count | otelmetrics/handler.go:94-130 | below MinLevel there is no Add; otherwise there is exactly one Add of 1 under the record's list, and nothing else changes |
| OtelMetrics.CountAllHits | otelmetrics/handler.go:94-130 | over a run of records, each series grows by the number of records added under it |
| OtelMetrics.CountNRecords | otelmetrics/handler.go:100-104 | N counted records at one level, without label attributes, add N to that level's series |
| OtelMetrics.UncountedRecordsChangeNothing | otelmetrics/handler.go:96-98 | records below MinLevel never change the counter |
| OtelMetrics.Int64Counter.Add | otelmetrics/handler.go:72 | adds n under the attribute list and changes nothing else |
| OtelMetrics.SlogHandler.constructor | otelmetrics/handler.go:85-89 | the wrapper holds the base handler, the counter and the options |
| OtelMetrics.SlogHandler.Handle | otelmetrics/handler.go:94-130 | the counter becomes Count of the old counter; the record is forwarded once, unchanged, and the downstream result is returned |
| OtelMetrics.SlogHandler.Enabled | otelmetrics/handler.go:36-40 | not overridden: the wrapped handler's Enabled decides, whatever MinLevel is, so records below MinLevel still reach Handle |
| OtelMetrics.SlogHandler.WithAttrs | otelmetrics/handler.go:36-40 | not overridden: the wrapped handler's derived handler, which no longer counts |
| OtelMetrics.SlogHandler.WithGroup | otelmetrics/handler.go:36-40 | not overridden: the wrapped handler's derived handler |
| OtelMetrics.FillAttrs | otelmetrics/handler.go:107-123 | the attrs slice ends up equal to the attribute list |
| OtelMetrics.NewHandlerWithOptions | otelmetrics/handler.go:64-90 | the counter gains exactly the zero lists of the levels at or above MinLevel, at 0; existing series keep their counts |
| OtelMetrics.NewHandler | otelmetrics/handler.go:59-61 | NewHandlerWithOptions with the default options |
| MetricsAgreement.Zip | otelmetrics/handler.go:76-78 | entry i has name i and value i |
| MetricsAgreement.ZipInjective | otelmetrics/handler.go:107-123 | pairing values with fixed names is injective: different tuples give different attribute lists |
| MetricsAgreement.SameGate | otelmetrics/handler.go:96-98 | both wrappers count the same levels, and their default options agree |
| MetricsAgreement.AttrSetIsLabelTuple | otelmetrics/handler.go:107-123 | a record's OpenTelemetry list is its Prometheus tuple paired with "level" and the label attributes |
| MetricsAgreement.ZeroSetIsZeroTuple | otelmetrics/handler.go:74-80 | the registered lists are the registered tuples paired with the same names |
| MetricsAgreement.SameHits | otelmetrics/handler.go:94-130 | over any run of records, each OpenTelemetry series grows exactly as much as the matching Prometheus series |

## Left out

- **Timestamps.** Formatting with `TimeFormat` (main.go:17, 97) is Go's time library. A record's timestamp is already a string.
- **Value text.** `%v` and `Value.String()` are slog internals. `ValueString` covers strings, integers and booleans, plus an opaque text for the other kinds.
- **Level names.** `Level.String` is re-stated from the slog library: a base name plus a signed offset. It is not part of this repository.
- **Colours.**
  - The ANSI escapes of fatih/color (main.go:36-43) are not modelled. A print function is a `Printer` enumeration value.
  - A chunk records which printer was used and the uncoloured bytes.
  - `InfoColor` is a parameter of `FprintFunc` and `Handle`. The other colours are fixed at package initialisation.
- **Concurrency.**
  - The mutex (main.go:116-117) is a shared `Mutex` object with no behaviour.
  - `sync.Map` thread safety is not modelled. Everything is sequential.
- **The writer.** `Writer.Write` may stop short, and then it fails. Short writes through the colour printers are treated the same way.
- **Paths.**
  - `filepath.Clean` and its corner cases are left out: trailing or doubled separators, `..`, and Windows separators. A path is a cleaned list of segments.
  - The empty path is represented as ".", the same as `filepath.Base("")`.
  - The loop guard's `currentPath != ""` test is not modelled: `Dir` never yields "" for a cleaned path.
- **Where the fields come from.** `SourceDepth` and `sourceCache` are not declared in main.go:46-58. The model adds them as a `HandlerOptions` field and a `LogHandler` field.
- **Source files not modelled.** source_legacy.go (it calls into `runtime.CallersFrames`) is not part of this model. source_go125.go's `printSource` is the same as source.go:47-52.
- **Metrics backends.**
  - Prometheus and OpenTelemetry registries, exporters and the network are not modelled.
  - The label-count check of `CounterVec.WithLabelValues` is not modelled. That call panics on a mismatch with the counter's declared labels.
- TextHandler.HandlerOptions: in the code, `opts` is a shared `*HandlerOptions` pointer (main.go:54). Its `Level` is a `slog.Leveler` read on every `Enabled` call (main.go:72). So a `*slog.LevelVar` can move the threshold while the program runs, and a caller can change `Color` or `SourceDepth` after construction; that is why the source cache key carries the depth (source.go:16). The model makes options immutable values, held in `const` fields of `LogHandler` and of the metrics wrappers. A Leveler is a fixed level, or none.
- OtelMetrics.Count: `attribute.NewSet` sorts the keys and collapses duplicate keys. The model keys the counter by the ordered list as built. Two lists that differ only in order or in duplicates count as different series here.
- TextHandler.Enabled: a nil `opts` pointer also makes it panic, and that case is not modelled. Only a nil Leveler is.
- Slog.BaseHandler: the wrapped handler is a stand-in. It is enabled at and above a fixed threshold, and its `WithAttrs` and `WithGroup` derive a fresh handler with an empty log. A real `slog.Handler` may answer `Enabled` however it likes and may return itself from `WithAttrs` and `WithGroup`; the test double at otelmetrics/handler_test.go:129-145 does both. So the `fresh(d)` and `d.log == []` clauses of the wrappers' `WithAttrs` and `WithGroup` describe the stand-in, not every wrapped handler. What the wrappers themselves add, nothing on top of the wrapped handler's answer, holds whatever it is.
- **Bytes.** Go's `[]byte` and `string` (the line buffer, `w.Write`, label and attribute values) are modelled as `seq<char>`, one element per character. A short write that splits a multi-byte UTF-8 character cannot be expressed.
- **Contexts.** The `ctx` arguments carry nothing the logic uses.

## Findings

| source | as written | input that shows it | evidently intended | confidence | as-written member | corrected member |
|---|---|---|---|---|---|---|
| main.go:129-145 | the derived handler's prefix is only the attributes passed to this call | `h.WithAttrs([k1=v1]).WithAttrs([k2=42])` renders ` [k2:42]` but not ` [k1:v1]` | the receiver's prefix followed by the new attributes, as the slog.Handler contract for WithAttrs requires | not executed | TextHandler.NestedWithAttrsDropsParent | TextHandler.AccumulatedPrefixLine |
| main.go:71-73 | `h.opts.Level.Level()` is called on the Leveler even when it is nil | `HandlerOptions{}`, as several tests construct it, followed by any `Enabled` call | a nil Leveler means LevelInfo, as slog.HandlerOptions documents | not executed | TextHandler.NilLevelerPanics | TextHandler.Enabled |
