/**
 * The reference backend `StringTracer` (flex-error/src/tracer_impl/string.rs).
 *
 * The trace is one string. Starting a trace stores the message's rendering;
 * adding a message stores "<new>: <old>", so the newest message comes first and
 * the root cause last.
 */
module StringBackend {
  import opened Text
  import Tracer

  datatype StringTracer = StringTracer(s: string)

  /** `Display for StringTracer`: the stored string, unchanged. */
  function Display(trace: StringTracer): (r: string)
    ensures r == trace.s
  {
    trace.s
  }

  /** `Debug for StringTracer`: the stored string behind the tag "StringTracer: ". */
  function Debug(trace: StringTracer): (r: string)
    ensures |r| == |"StringTracer: "| + |Display(trace)|
    ensures "StringTracer: " <= r
    ensures IsSuffix(Display(trace), r)
  {
    "StringTracer: " + trace.s
  }

  /** `new_message`: a trace that displays as exactly the message's rendering. */
  function NewMessage<E>(render: E -> string, err: E): (t: StringTracer)
    ensures Display(t) == render(err)
  {
    StringTracer(render(err))
  }

  /**
   * `add_message`: the new trace displays as the message's rendering, then ": ",
   * then the old trace's text, unchanged.
   */
  function AddMessage<E>(trace: StringTracer, render: E -> string, err: E): (t: StringTracer)
    ensures |Display(t)| == |render(err)| + 2 + |Display(trace)|
    ensures Display(t)[..|render(err)|] == render(err)
    ensures Display(t)[|render(err)|..|render(err)| + 2] == ": "
    ensures Display(t)[|render(err)| + 2..] == Display(trace)
  {
    StringTracer(render(err) + ": " + trace.s)
  }

  /** `ErrorTracer<E>::new_trace`: the same trace as `new_message`. */
  function NewTrace<E>(render: E -> string, err: E): (t: StringTracer)
    ensures t == NewMessage(render, err)
  {
    StringTracer(render(err))
  }

  /** `ErrorTracer<E>::add_trace`: the same trace as `add_message`. */
  function AddTrace<E>(trace: StringTracer, render: E -> string, err: E): (t: StringTracer)
    ensures t == AddMessage(trace, render, err)
  {
    StringTracer(render(err) + ": " + trace.s)
  }

  /** A string displays as itself. */
  function Identity(message: string): string
  {
    message
  }

  /** `impl ErrorMessageTracer for StringTracer`, as a contract record. */
  function MessageTracerImpl(): Tracer.MessageTracer<StringTracer>
  {
    Tracer.MessageTracer(m => NewMessage(Identity, m), (t, m) => AddMessage(t, Identity, m))
  }

  /** `impl<E: Display> ErrorTracer<E> for StringTracer`, as a contract record. */
  function ErrorTracerImpl<E>(render: E -> string): Tracer.ErrorTracer<StringTracer, E>
  {
    Tracer.ErrorTracer(MessageTracerImpl(), e => NewTrace(render, e), (t, e) => AddTrace(t, render, e))
  }

  /** Through the contract record, the generic operations are this backend's own. */
  lemma MessageTracerImplAgrees<E>(render: E -> string, trace: StringTracer, err: E)
    ensures Tracer.NewMessage(MessageTracerImpl(), render, err) == NewMessage(render, err)
    ensures Tracer.AddMessage(MessageTracerImpl(), trace, render, err) == AddMessage(trace, render, err)
  {
  }

  /** The string backend keeps history: newest message first, old text kept as a suffix. */
  lemma KeepsHistoryImpl()
    ensures Tracer.KeepsHistory(MessageTracerImpl(), Display)
  {
    forall trace: StringTracer, message: string
      ensures message <= Display(MessageTracerImpl().addMessage(trace, message))
      ensures IsSuffix(Display(trace), Display(MessageTracerImpl().addMessage(trace, message)))
    {
      var t := AddMessage(trace, Identity, message);
      assert MessageTracerImpl().addMessage(trace, message) == t;
      assert message == Display(t)[..|message|];
    }
  }

  /**
   * As an `ErrorTracer<E>` the string backend is a message tracer on `E`'s
   * rendering: `new_trace` is `new_message` and `add_trace` is `add_message`.
   */
  lemma ErrorTracerImplIsMessageTracer<E(!new)>(render: E -> string)
    ensures ErrorTracerImpl(render).messages == MessageTracerImpl()
    ensures forall err: E :: ErrorTracerImpl(render).newTrace(err) == Tracer.NewMessage(MessageTracerImpl(), render, err)
    ensures Tracer.AddTraceIsAddMessage(ErrorTracerImpl(render), render)
  {
  }

  /** `new_message(m1).add_message(m2)` displays as "m2: m1". */
  lemma TwoLayers<E>(render: E -> string, m1: E, m2: E)
    ensures Display(AddMessage(NewMessage(render, m1), render, m2)) == render(m2) + ": " + render(m1)
  {
  }

  /** Three layers display as "m3: m2: m1". */
  lemma ThreeLayers<E>(render: E -> string, m1: E, m2: E, m3: E)
    ensures Display(AddMessage(AddMessage(NewMessage(render, m1), render, m2), render, m3))
            == render(m3) + ": " + render(m2) + ": " + render(m1)
  {
  }

  /** The trace after adding `messages` (oldest first) to `trace`, one `add_message` each. */
  function AddAll(trace: StringTracer, messages: seq<string>): StringTracer
    decreases |messages|
  {
    if messages == [] then trace
    else AddMessage(AddAll(trace, messages[..|messages| - 1]), Identity, messages[|messages| - 1])
  }

  /**
   * After any number of layers the trace reads newest first: the added messages in
   * reverse order of addition, then the original trace's text, joined by ": ".
   */
  lemma {:induction false} AddAllNewestFirst(trace: StringTracer, messages: seq<string>)
    ensures Display(AddAll(trace, messages)) == Join(Reversed(messages) + [Display(trace)])
  {
    if messages == [] {
      assert Reversed(messages) + [Display(trace)] == [Display(trace)];
    } else {
      var init, last := messages[..|messages| - 1], messages[|messages| - 1];
      assert messages == init + [last];
      AddAllNewestFirst(trace, init);
      ReversedSnoc(init, last);
      var segments := Reversed(messages) + [Display(trace)];
      assert segments == [last] + (Reversed(init) + [Display(trace)]);
      assert segments[1..] == Reversed(init) + [Display(trace)];
    }
  }

  /** No layer drops history: the original trace's text stays at the end, verbatim. */
  lemma {:induction false} AddAllKeepsHistory(trace: StringTracer, messages: seq<string>)
    ensures IsSuffix(Display(trace), Display(AddAll(trace, messages)))
  {
    if messages != [] {
      var init := messages[..|messages| - 1];
      AddAllKeepsHistory(trace, init);
    }
  }
}
