/**
 * The older `ErrorReport` snapshot (src/report.rs).
 *
 * The report is the same pair as in the current snapshot (`Report.ErrorReport`
 * is shared). Its `trace_from` follows the same steps but calls the older
 * backend's `add_trace` and `new_trace`; the backend is fixed to the string
 * tracer of src/tracer_impl/string.rs.
 */
module LegacyReport {
  import opened Options
  import opened Source
  import Report
  import StringBackend
  import LegacyStringBackend

  type StringTracer = StringBackend.StringTracer

  /** `impl ErrorSource<Trace> for ErrorReport` in this snapshot: the detail, and the trace to extend. */
  function ReportDetails<D, T>(source: Report.ErrorReport<D, T>): (r: (D, Option<T>))
    ensures r.0 == source.detail
    ensures r.1 == Some(source.trace)
  {
    (source.detail, Some(source.trace))
  }

  /** `ErrorReport::trace_from` in this snapshot, over the string backend. */
  function TraceFrom<S, D1, D2>(
    render: D2 -> string, extract: ErrorSource<S, D1, StringTracer>, source: S, cont: D1 -> D2)
    : (r: Report.ErrorReport<D2, StringTracer>)
    ensures r.detail == cont(extract(source).0)
    ensures extract(source).1.Some? ==> r.trace == LegacyStringBackend.AddTrace(extract(source).1.value, render, r.detail)
    ensures extract(source).1.None? ==> r.trace == LegacyStringBackend.NewTrace(render, r.detail)
  {
    var (detail1, maybeTrace1) := extract(source);
    var detail2 := cont(detail1);
    match maybeTrace1
    case Some(trace1) => Report.ErrorReport(detail2, LegacyStringBackend.AddTrace(trace1, render, detail2))
    case None => Report.ErrorReport(detail2, LegacyStringBackend.NewTrace(render, detail2))
  }

  /** `Display for ErrorReport` in this snapshot: the trace's `Display`. */
  function Display<D>(report: Report.ErrorReport<D, StringTracer>): (s: string)
    ensures s == LegacyStringBackend.Display(report.trace)
  {
    LegacyStringBackend.Display(report.trace)
  }

  /** Both snapshots of `trace_from` produce the same report over the string backend. */
  lemma SnapshotsAgree<S, D1, D2>(render: D2 -> string, extract: ErrorSource<S, D1, StringTracer>, source: S, cont: D1 -> D2)
    ensures TraceFrom(render, extract, source, cont)
            == Report.TraceFrom(StringBackend.MessageTracerImpl(), render, extract, source, cont)
  {
  }

  /** Both snapshots read a report as source the same way. */
  lemma ReportDetailsAgree<D, T>(source: Report.ErrorReport<D, T>)
    ensures ReportDetails(source) == Report.ReportDetails(source)
  {
  }

  /**
   * A `StdError` source through `trace_from`: the source is the inner detail and
   * the trace reads "<new detail>: <source>".
   */
  lemma StdErrorComposition<E, D2>(renderSource: E -> string, render: D2 -> string, source: E, cont: E -> D2)
    ensures var r := TraceFrom(render, s => LegacyStringBackend.StdErrorDetails(renderSource, s), source, cont);
            && r.detail == cont(source)
            && Display(r) == render(cont(source)) + ": " + renderSource(source)
  {
  }
}
