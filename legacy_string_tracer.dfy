/**
 * The older string backend (src/tracer_impl/string.rs).
 *
 * It stores the same single string as the current backend (the `StringTracer`
 * datatype is shared), implements the older trait with `new_trace` and
 * `add_trace` on any displayable value, and adds the `StdError<E>` extraction
 * rule for this backend.
 */
module LegacyStringBackend {
  import opened Options
  import opened Text
  import StringBackend

  /**
   * `impl ErrorSource<StringTracer> for StdError<E>`: the displayable source is
   * kept as the detail, and a trace is started from its rendering.
   */
  function StdErrorDetails<E>(render: E -> string, source: E): (r: (E, Option<StringBackend.StringTracer>))
    ensures r.0 == source
    ensures r.1.Some? && StringBackend.Display(r.1.value) == render(source)
  {
    (source, Some(StringBackend.StringTracer(render(source))))
  }

  /** `new_trace`: a trace that displays as exactly the value's rendering. */
  function NewTrace<E>(render: E -> string, err: E): (t: StringBackend.StringTracer)
    ensures Display(t) == render(err)
  {
    StringBackend.StringTracer(render(err))
  }

  /** `add_trace`: the value's rendering first, then ": ", then the old text, unchanged. */
  function AddTrace<E>(trace: StringBackend.StringTracer, render: E -> string, err: E): (t: StringBackend.StringTracer)
    ensures render(err) <= Display(t)
    ensures |Display(t)| == |render(err)| + 2 + |Display(trace)|
    ensures Display(t)[|render(err)|..|render(err)| + 2] == ": "
    ensures IsSuffix(Display(trace), Display(t))
  {
    StringBackend.StringTracer(render(err) + ": " + trace.s)
  }

  /** `Display for StringTracer`: the stored string, unchanged. */
  function Display(trace: StringBackend.StringTracer): (r: string)
    ensures r == trace.s
  {
    trace.s
  }

  /** The two snapshots of the string backend build and show the same traces. */
  lemma AgreesWithCurrent<E>(render: E -> string, trace: StringBackend.StringTracer, err: E)
    ensures NewTrace(render, err) == StringBackend.NewMessage(render, err)
    ensures AddTrace(trace, render, err) == StringBackend.AddMessage(trace, render, err)
    ensures Display(trace) == StringBackend.Display(trace)
  {
  }
}
