/**
 * `ErrorReport` and the composition step `trace_from` (flex-error/src/report.rs).
 *
 * A report pairs the structured detail with the accumulated trace. Composing a
 * new report from a source extracts the source's detail and optional trace,
 * folds the detail into this layer's detail with the continuation, and then
 * either extends the source's trace or starts a fresh one with the new detail's
 * rendering.
 */
module Report {
  import opened Options
  import opened Text
  import opened Source
  import opened Tracer
  import StringBackend

  datatype ErrorReport<D, T> = ErrorReport(detail: D, trace: T)

  /** `impl ErrorSource<Trace> for ErrorReport`: the report's detail, and its trace to extend. */
  function ReportDetails<D, T>(source: ErrorReport<D, T>): (r: (D, Option<T>))
    ensures r.0 == source.detail
    ensures r.1 == Some(source.trace)
  {
    (source.detail, Some(source.trace))
  }

  /** `Box<D>`: heap indirection has no observable effect on values. */
  type Box<D> = D

  /** `Box::new`. */
  function BoxNew<D>(d: D): Box<D>
  {
    d
  }

  /**
   * `impl ErrorSource<Trace> for BoxDetail<Detail>`: the source is the component's
   * own report; the extracted detail is that report's detail, boxed, and the
   * trace is that report's trace.
   */
  function BoxDetailDetails<D, T>(source: ErrorReport<D, T>): (r: (Box<D>, Option<T>))
    ensures r.0 == source.detail
    ensures r.1 == Some(source.trace)
  {
    (BoxNew(source.detail), Some(source.trace))
  }

  /**
   * `ErrorReport::trace_from` for the extraction rule `extract`, the backend
   * `tracer` and the new detail's `Display` given by `render`.
   */
  function TraceFrom<S, D1, D2, T>(
    tracer: MessageTracer<T>, render: D2 -> string,
    extract: ErrorSource<S, D1, T>, source: S, cont: D1 -> D2): (r: ErrorReport<D2, T>)
    ensures r.detail == cont(extract(source).0)
    ensures extract(source).1.Some? ==> r.trace == AddMessage(tracer, extract(source).1.value, render, r.detail)
    ensures extract(source).1.None? ==> r.trace == NewMessage(tracer, render, r.detail)
  {
    var (detail1, maybeTrace1) := extract(source);
    var detail2 := cont(detail1);
    match maybeTrace1
    case Some(trace1) => ErrorReport(detail2, AddMessage(tracer, trace1, render, detail2))
    case None => ErrorReport(detail2, NewMessage(tracer, render, detail2))
  }

  /** `Display for ErrorReport`: the trace's `Display`. */
  function Display<D, T>(display: T -> string, report: ErrorReport<D, T>): (s: string)
    ensures s == display(report.trace)
  {
    display(report.trace)
  }

  /** `Debug for ErrorReport`: the trace's `Debug`. */
  function Debug<D, T>(debug: T -> string, report: ErrorReport<D, T>): (s: string)
    ensures s == debug(report.trace)
  {
    debug(report.trace)
  }

  /** Display and Debug never render the detail: reports with the same trace show the same. */
  lemma RenderingIgnoresDetail<D, T>(display: T -> string, debug: T -> string, r1: ErrorReport<D, T>, r2: ErrorReport<D, T>)
    requires r1.trace == r2.trace
    ensures Display(display, r1) == Display(display, r2)
    ensures Debug(debug, r1) == Debug(debug, r2)
  {
  }

  /** Over the string backend a report shows its trace string, and Debug adds only the tag. */
  lemma StringReportRendering<D>(report: ErrorReport<D, StringBackend.StringTracer>)
    ensures Display(StringBackend.Display, report) == report.trace.s
    ensures Debug(StringBackend.Debug, report) == "StringTracer: " + report.trace.s
  {
  }

  /**
   * `cont` is used once, on the extracted detail: two continuations that agree
   * there give the same report.
   */
  lemma ContinuationUsedOnce<S, D1, D2, T>(
    tracer: MessageTracer<T>, render: D2 -> string,
    extract: ErrorSource<S, D1, T>, source: S, cont1: D1 -> D2, cont2: D1 -> D2)
    requires cont1(extract(source).0) == cont2(extract(source).0)
    ensures TraceFrom(tracer, render, extract, source, cont1) == TraceFrom(tracer, render, extract, source, cont2)
  {
  }

  /** With `NoSource`, `trace_from` starts a fresh trace from the new detail alone. */
  lemma NoSourceStartsFresh<D2, T>(tracer: MessageTracer<T>, render: D2 -> string, cont: (()) -> D2)
    ensures TraceFrom(tracer, render, NoSourceDetails, (), cont) == ErrorReport(cont(()), NewMessage(tracer, render, cont(())))
  {
  }

  /** With `DetailOnly`, the source becomes the inner detail and the trace starts fresh. */
  lemma DetailOnlyStartsFresh<D1, D2, T>(tracer: MessageTracer<T>, render: D2 -> string, source: D1, cont: D1 -> D2)
    ensures TraceFrom(tracer, render, DetailOnlyDetails, source, cont) == ErrorReport(cont(source), NewMessage(tracer, render, cont(source)))
  {
  }

  /**
   * A report as source: the inner detail is the report's detail (the stored
   * field has the extracted detail type, not the report type) and the report's
   * trace is extended by exactly the new detail's rendering.
   */
  lemma ReportSourceExtends<D1, D2, T>(tracer: MessageTracer<T>, render: D2 -> string, source: ErrorReport<D1, T>, cont: D1 -> D2)
    ensures TraceFrom(tracer, render, ReportDetails, source, cont)
            == ErrorReport(cont(source.detail), tracer.addMessage(source.trace, render(cont(source.detail))))
  {
  }

  /**
   * For any backend that keeps history, composing with a report as source shows
   * the new detail's rendering first and keeps the source report's shown trace
   * at the end.
   */
  lemma ReportSourceKeepsHistory<D1, D2, T(!new)>(
    tracer: MessageTracer<T>, display: T -> string, render: D2 -> string, source: ErrorReport<D1, T>, cont: D1 -> D2)
    requires KeepsHistory(tracer, display)
    ensures var r := TraceFrom(tracer, render, ReportDetails, source, cont);
            && render(r.detail) <= Display(display, r)
            && IsSuffix(Display(display, source), Display(display, r))
  {
    var r := TraceFrom(tracer, render, ReportDetails, source, cont);
    assert r.trace == tracer.addMessage(source.trace, render(r.detail));
  }

  /** One composition over the string backend adds exactly one segment, the new detail's rendering. */
  lemma StringTraceFromOneLayer<S, D1, D2>(
    render: D2 -> string, extract: ErrorSource<S, D1, StringBackend.StringTracer>, source: S, cont: D1 -> D2)
    ensures var r := TraceFrom(StringBackend.MessageTracerImpl(), render, extract, source, cont);
            match extract(source).1
            case Some(trace1) => r.trace.s == render(r.detail) + ": " + trace1.s
            case None => r.trace.s == render(r.detail)
  {
  }

  /** The detail after applying `conts` in order to `d` (one per layer). */
  function Apply<D>(d: D, conts: seq<D -> D>): D
    decreases |conts|
  {
    if conts == [] then d else conts[|conts| - 1](Apply(d, conts[..|conts| - 1]))
  }

  /** The renderings of the details produced by the layers, oldest first. */
  function LayerMessages<D>(render: D -> string, d: D, conts: seq<D -> D>): (ms: seq<string>)
    ensures |ms| == |conts|
    decreases |conts|
  {
    if conts == [] then [] else LayerMessages(render, d, conts[..|conts| - 1]) + [render(Apply(d, conts))]
  }

  /**
   * A component wrapping its own report `|conts|` times through `BoxDetail`,
   * over the string backend; the first continuation is the innermost layer.
   */
  function WrapAll<D>(render: D -> string, report: ErrorReport<D, StringBackend.StringTracer>, conts: seq<D -> D>)
    : ErrorReport<D, StringBackend.StringTracer>
    decreases |conts|
  {
    if conts == [] then report
    else TraceFrom(StringBackend.MessageTracerImpl(), render, BoxDetailDetails,
                   WrapAll(render, report, conts[..|conts| - 1]), conts[|conts| - 1])
  }

  /** Each layer folds its continuation into the detail and adds its rendering to the trace, once. */
  lemma {:induction false} WrapAllLayers<D>(render: D -> string, report: ErrorReport<D, StringBackend.StringTracer>, conts: seq<D -> D>)
    ensures WrapAll(render, report, conts).detail == Apply(report.detail, conts)
    ensures WrapAll(render, report, conts).trace == StringBackend.AddAll(report.trace, LayerMessages(render, report.detail, conts))
  {
    if conts != [] {
      var init := conts[..|conts| - 1];
      WrapAllLayers(render, report, init);
      var ms := LayerMessages(render, report.detail, conts);
      assert ms[..|ms| - 1] == LayerMessages(render, report.detail, init);
    }
  }

  /**
   * After k self-wrapping layers the trace reads "m_k: ...: m_1: <original trace>":
   * newest first, nothing dropped, the original trace verbatim at the end.
   */
  lemma WrapAllNewestFirst<D>(render: D -> string, report: ErrorReport<D, StringBackend.StringTracer>, conts: seq<D -> D>)
    ensures var ms := LayerMessages(render, report.detail, conts);
            && Display(StringBackend.Display, WrapAll(render, report, conts)) == Join(Reversed(ms) + [report.trace.s])
            && IsSuffix(report.trace.s, WrapAll(render, report, conts).trace.s)
  {
    var ms := LayerMessages(render, report.detail, conts);
    WrapAllLayers(render, report, conts);
    StringBackend.AddAllNewestFirst(report.trace, ms);
    StringBackend.AddAllKeepsHistory(report.trace, ms);
  }
}
