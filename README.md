# flex-error: a Dafny model of its error-composition core

flex-error lets each software component define a closed set of failure kinds and wrap a
failure from a lower component as the cause of one of its own. A failure is an
`ErrorReport`: a structured `detail` plus a `trace` of causal history. The model covers:

- the extraction contract `ErrorSource`. An extraction rule turns a raw cause into the
  detail a suberror stores and an optional trace. The rules covered are `NoSource`,
  `DetailOnly`, a report as cause, the self-referential `BoxDetail`, and the older
  `StdError` rule for the string tracer;
- the tracer contracts `ErrorMessageTracer` and `ErrorTracer<E>`, and the reference
  `StringTracer` backend. That backend keeps one string and puts each new message in front:
  `"<new>: <old>"`;
- the composition step `trace_from`, in both snapshots of the repository. It extracts from
  the source, applies the continuation to the extracted detail, and then extends the
  source's trace with the new detail's rendering, or starts a fresh trace if there is none;
- the test fixture's components `foo` and `bar`, written out as the error macro expands
  their declarations, plus a small hand-written self-referential component (`Nested`).

Everything in the core is a pure, total function over immutable values. The model is
therefore datatypes, functions and lemmas:

- Rust traits become records of function values: `Tracer.MessageTracer`,
  `Tracer.ErrorTracer`, and `Source.ErrorSource` for a function type.
- `Display` is a `render: T -> string` parameter.
- `Box` is the identity.
- Extraction has no error path, so no extraction rule has a `requires`.

Both snapshots declare the same `StringTracer(String)` and
`ErrorReport { detail, trace }` structs. The model declares each of them once
(`StringBackend.StringTracer`, `Report.ErrorReport`), and the older snapshot's modules
(`LegacyStringBackend`, `LegacyReport`) add only that snapshot's functions.

Modules and files:

| file | modules | source |
|---|---|---|
| common.dfy | `Options`, `Text` | helpers: `Option`, `Reversed`, `Join` with ": " |
| source.dfy | `Source` | flex-error/src/source.rs |
| tracer.dfy | `Tracer` | flex-error/src/tracer.rs |
| string_tracer.dfy | `StringBackend` | flex-error/src/tracer_impl/string.rs |
| report.dfy | `Report` | flex-error/src/report.rs |
| legacy_string_tracer.dfy | `LegacyStringBackend` | src/tracer_impl/string.rs |
| legacy_report.dfy | `LegacyReport` | src/report.rs |
| fixture.dfy | `Foo`, `Bar`, `Nested` | flex-error/src/tests/mod.rs, flex-error-demo-full/src/main.rs |

Notes on the code:

- The demo chain `bar::foo_error("Foo has failed", foo::system_error(Error1))` traces
  `"error caused by foo: Foo has failed: system error: error1"` under the string tracer
  (`Bar.SystemHasFailed`).
- The current snapshot's string backend has no `StdError` rule. The only string-tracer
  `StdError` rule is in src/tracer_impl/string.rs, so `Foo.SystemErrorOf` goes through the
  older snapshot's `trace_from`. The two snapshots produce the same report
  (`LegacyReport.SnapshotsAgree`).
- The test fixture declares `Unknown[NoSource]` and `Bar { bar } [NoSource]`, so the macro
  generates a `source: ()` field and a `source` parameter for both and builds them with
  `trace_from::<NoSource, _>`. The model follows those declarations (`Foo.UnknownErrorOf`,
  `Bar.BarErrorOf`). The test calls `foo::unknown_error()` with no argument
  (flex-error/src/tests/mod.rs:59) because its `[...] => | _ |` syntax is that of the
  older macro (src/macros.rs:14-16), whose `[NoSource]` arm (src/macros.rs:73-98) generates
  no `source` parameter, a `source: ()` field and a `new_trace` call. The demo declares both
  kinds without a cause.
  `Foo.UnknownIsNoSource` shows that the no-cause constructor form builds the same trace.

The members of `Tracer` are definitions without contracts of their own: `Tracer.NewMessage`
and `Tracer.AddMessage` are `Trace::new_message(&m)` and `trace.add_message(&m)`
(flex-error/src/tracer.rs:14,17), `Tracer.AddTraceIsAddMessage` is the documented behaviour
of `add_trace` (flex-error/src/tracer.rs:47-53), and `Tracer.KeepsHistory` is what "adds new
error detail to an existing trace" promises (flex-error/src/tracer.rs:16-17). The table lists
them through the lemmas that state them: `Tracer.AddTraceKeepsHistory`,
`Report.ReportSourceKeepsHistory`, `StringBackend.KeepsHistoryImpl` and
`StringBackend.ErrorTracerImplIsMessageTracer`. Likewise `StringBackend.MessageTracerImpl` and
`StringBackend.ErrorTracerImpl` are the two `impl` blocks of flex-error/src/tracer_impl/string.rs
(lines 7-18 and 20-31); the rows `StringBackend.MessageTracerImplAgrees` and
`StringBackend.ErrorTracerImplIsMessageTracer` state what they do.

The inductive proofs are `StringBackend.AddAllNewestFirst`, `Report.WrapAllLayers`,
`Nested.ApplyDepth` and `Nested.LayerMessagesWrapped`; `Text.Reversed` and
`Report.LayerMessages` are helpers that only state a length.

## Model

| member | source | states |
|---|---|---|
| Source.NoSourceDetails | flex-error/src/source.rs:28-35 | `NoSource` takes `()` and yields no trace |
| Source.DetailOnlyDetails | flex-error/src/source.rs:19-26 | `DetailOnly` returns the source unchanged as the detail, with no trace |
| StringBackend.Display | flex-error/src/tracer_impl/string.rs:40-45 | Display is the stored string, unchanged |
| StringBackend.Debug | flex-error/src/tracer_impl/string.rs:33-38 | Debug is the tag "StringTracer: " followed by exactly the Display text |
| StringBackend.NewMessage | flex-error/src/tracer_impl/string.rs:9-11 | a new trace displays as exactly the message's rendering |
| StringBackend.AddMessage | flex-error/src/tracer_impl/string.rs:13-17 | the new trace is the message's rendering, then ": ", then the old text verbatim |
| StringBackend.NewTrace | flex-error/src/tracer_impl/string.rs:22-24 | `new_trace` builds the same trace as `new_message` |
| StringBackend.AddTrace | flex-error/src/tracer_impl/string.rs:26-30 | `add_trace` builds the same trace as `add_message` |
| StringBackend.MessageTracerImplAgrees | flex-error/src/tracer_impl/string.rs:7-18 | used through the contract record, the generic new/add operations are the backend's own |
| StringBackend.KeepsHistoryImpl | flex-error/src/tracer.rs:16-17 | the string backend meets the history contract: the new message comes first and the old trace text is a suffix |
| StringBackend.ErrorTracerImplIsMessageTracer | flex-error/src/tracer.rs:40-53 | as an `ErrorTracer<E>` the backend is also the message tracer; `new_trace` is `new_message` and `add_trace` is `add_message` on E's rendering |
| Tracer.AddTraceKeepsHistory | flex-error/src/tracer.rs:47-53 | a backend whose `add_trace` is `add_message` on E's rendering and whose `add_message` keeps history puts E's rendering first and keeps the old trace text at the end |
| StringBackend.TwoLayers | flex-error/src/tracer_impl/string.rs:9-17 | `new_message(m1).add_message(m2)` displays as "m2: m1" |
| StringBackend.ThreeLayers | flex-error/src/tracer_impl/string.rs:9-17 | three layers display as "m3: m2: m1" |
| StringBackend.AddAllNewestFirst | flex-error/src/tracer_impl/string.rs:13-17 | after any number of `add_message` calls, the trace is the messages newest first, then the original text, joined by ": " |
| StringBackend.AddAllKeepsHistory | flex-error/src/tracer_impl/string.rs:15 | no number of layers ever drops the original trace text from the end |
| Report.ReportDetails | flex-error/src/report.rs:20-27 | a report as source yields its detail unchanged and `Some` of its trace unchanged |
| Report.BoxDetailDetails | flex-error/src/report.rs:29-38 | `BoxDetail` yields the report's own detail (boxed) and `Some` of the report's trace |
| Report.TraceFrom | flex-error/src/report.rs:41-66 | the result detail is `cont` of the extracted detail; the trace is the source's trace extended by the new detail's rendering, or a fresh trace if there is none |
| Report.Display | flex-error/src/report.rs:78-85 | a report displays as its trace |
| Report.Debug | flex-error/src/report.rs:69-76 | a report's Debug is its trace's Debug |
| Report.RenderingIgnoresDetail | flex-error/src/report.rs:69-85 | Display and Debug never render the detail: two reports with the same trace show the same text |
| Report.StringReportRendering | flex-error/src/report.rs:69-85 | over the string backend a report shows its trace string; Debug adds only the tag |
| Report.ContinuationUsedOnce | flex-error/src/report.rs:46-49 | the continuation is used only on the extracted detail: two continuations that agree there give the same report |
| Report.NoSourceStartsFresh | flex-error/src/source.rs:32-34 | with `NoSource`, `trace_from` starts a fresh trace from the new detail alone |
| Report.DetailOnlyStartsFresh | flex-error/src/source.rs:23-25 | with `DetailOnly`, the source is the inner detail and `trace_from` starts a fresh trace from the new detail alone |
| Report.ReportSourceExtends | flex-error/src/report.rs:48-57 | with a report as source, the inner detail is the report's detail and its trace is extended by exactly the new detail's rendering |
| Report.ReportSourceKeepsHistory | flex-error/src/report.rs:48-57 | for any backend that keeps history (flex-error/src/tracer.rs:16-17), a report as source gives a trace that shows the new detail first and the source report's shown trace at the end |
| Report.StringTraceFromOneLayer | flex-error/src/report.rs:50-65 | over the string backend one composition adds exactly one segment in front, the new detail's rendering, and keeps the source's whole trace after ": " |
| Report.WrapAllLayers | flex-error/src/report.rs:29-38 | wrapping a report k times through `BoxDetail` applies the k continuations in order to the detail, and adds exactly one message per layer to the trace |
| Report.WrapAllNewestFirst | flex-error/src/report.rs:41-66 | after k self-wrapping layers the trace is "m_k: ...: m_1: <original trace>", with the original trace kept verbatim at the end |
| LegacyStringBackend.StdErrorDetails | src/tracer_impl/string.rs:8-19 | `StdError` returns the source unchanged as the detail, plus a trace that displays as the source's rendering |
| LegacyStringBackend.NewTrace | src/tracer_impl/string.rs:23-25 | `new_trace` displays as exactly the value's rendering |
| LegacyStringBackend.AddTrace | src/tracer_impl/string.rs:27-31 | `add_trace` puts the value's rendering and ": " in front and keeps the old text as a suffix |
| LegacyStringBackend.Display | src/tracer_impl/string.rs:34-39 | Display is the stored string, unchanged |
| LegacyStringBackend.AgreesWithCurrent | src/tracer_impl/string.rs:21-39 | the older backend builds and shows the same traces as the current one |
| LegacyReport.ReportDetails | src/report.rs:10-17 | a report as source yields its detail and `Some` of its trace |
| LegacyReport.TraceFrom | src/report.rs:25-45 | the result detail is `cont` of the extracted detail; the trace is `add_trace` on the source's trace, or `new_trace` if there is none |
| LegacyReport.Display | src/report.rs:58-66 | a report displays as its trace |
| LegacyReport.SnapshotsAgree | src/report.rs:25-45 | over the string tracer the older `trace_from` produces the same report as the current one |
| LegacyReport.ReportDetailsAgree | src/report.rs:10-17 | both snapshots extract from a report in the same way |
| LegacyReport.StdErrorComposition | src/tracer_impl/string.rs:15-18 | a `StdError` source through `trace_from` is kept as the inner detail, and the trace reads "<new detail>: <source>" |
| Foo.FooErrorTrace | flex-error/src/tests/mod.rs:18-22 | `foo_error` stores its `DetailOnly` cause in the detail and traces "foo error: <foo>" |
| Foo.HelloFoo | flex-error/src/tests/mod.rs:63 | `foo_error("Hello Foo", PrimitiveError)` traces "foo error: Hello Foo" |
| Foo.SystemError1 | flex-error/src/tests/mod.rs:55 | `system_error(Error1)` stores `Error1` and traces "system error: error1" |
| Foo.UnknownIsNoSource | flex-error/src/macros.rs:116-149 | `unknown_error` with its `NoSource` cause builds the same report as the no-cause constructor form (`new_message` of the detail), tracing "unknown error" |
| Bar.BarErrorTrace | flex-error/src/tests/mod.rs:36-39 | `bar_error(bar, ())` stores `bar` and the unit cause and starts a fresh trace "bar error <bar>" |
| Bar.FooErrorTrace | flex-error/src/tests/mod.rs:40-43 | `bar::foo_error` stores the cause's detail, not its report, and puts "error caused by foo: <detail>" on top of the cause's whole trace |
| Bar.FooHasFailed | flex-error/src/tests/mod.rs:63-64 | the test chain traces "error caused by foo: Foo has failed: foo error: Hello Foo" |
| Bar.SystemHasFailed | flex-error-demo-full/src/main.rs:49-50 | the demo chain traces "error caused by foo: Foo has failed: system error: error1" |
| Nested.WrapOnce | flex-error/src/report.rs:29-38 | one self-wrap nests the old detail one level deeper and puts one message on top of the trace |
| Nested.ApplyDepth | flex-error/src/report.rs:29-38 | each self-wrapping layer adds exactly one level to the detail |
| Nested.LayerMessagesWrapped | flex-error/src/macros.rs:38-43 | each layer's message renders only that layer's own fields, never the nested cause |
| Nested.WrapMany | flex-error/src/report.rs:29-38 | k self-wraps nest the detail exactly k levels deeper; the trace has all k messages newest first, then the original trace |
| Nested.ThreeLevels | flex-error/src/report.rs:41-66 | three levels of self-wrapping give depth three and "wrapped error: c3: wrapped error: c2: wrapped error: c1: root error: <reason>" |

## Left out

- Code generation (flex-error/src/macros.rs, src/macros.rs, src/eyre/macros.rs): the macros are compile-time templates. Only their output shape is used, to write the fixture components out by hand.
- The eyre and anyhow backends and src/eyre/report.rs: they wrap external crates whose behaviour is not visible.
- `std::error::Error::source` and `ErrorMessageTracer::as_error`: these deal with `dyn Error` references. The string backend does not implement `as_error`.
- `DefaultTracer` selection: this is a build-time feature choice. The fixtures fix the string backend.
- `ErrorReport` equality, ordering, clone, serialisation and an `ErrorReport::add_trace` annotation method: none of the modelled files implements them.
- The `StdError` rules for the eyre and anyhow tracers (src/tracer_impl/eyre.rs:6-18, src/tracer_impl/anyhow.rs:8-20): they capture the source with `EyreTracer::new`/`AnyhowTracer::new` and belong to the backends left out above. The repository's core files declare no other extraction rule.
- src/tracer.rs is not part of this model. It is a stale trait declaration that its users do not match.
- The marker type `BoxDetail` is imported by flex-error/src/report.rs but is not defined in flex-error/src/source.rs. Only its extraction rule is modelled.
- `AsErrorDetail` and `AsErrorSource` are type-level aliases. They appear as the type arguments of `Source.ErrorSource`. The rule "a suberror's `source` field has the extracted detail type" holds by typing in the fixtures (`Bar.ErrFoo.source: FooErrorDetail`); no member states it.
- `&E` versus `E` and move semantics: all values are immutable, so borrowing and consuming look the same.
- Real `Display` and `format!`: rendering is a function parameter. Only the `"{0}: {1}"` shape of the string backend is modelled.
- `Report.ContinuationUsedOnce`: `FnOnce` linearity is not modelled, because Dafny functions have no effects. The model states only that the result depends on the continuation solely through its value at the extracted detail.
- `LegacyReport.TraceFrom`: fixed to the string backend instead of generic over the older `ErrorTracer` trait, because that trait's declaration (src/tracer.rs) is stale and not part of this model.
- The older snapshot's `Debug` (src/report.rs:48-56 delegating to a derived `Debug` of `StringTracer`): derived `Debug` uses Rust's string escaping, which is not modelled.
- Test and demo entry points (`println!`, `color_eyre::install`): these are output only. Their error chains are stated as lemmas in `Foo` and `Bar`.
- `Nested` is a hand-written component, because no test of the repository covers `BoxDetail`. Its formatters are illustrative.
