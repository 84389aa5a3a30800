/**
 * The components of flex-error/src/tests/mod.rs, written out as the error
 * macro would expand them: a detail union with one variant per declared kind,
 * a `Display` that renders only that kind's own fields, and one constructor per
 * kind. The tracer is the string backend.
 */
module Foo {
  import opened Source
  import opened Report
  import StringBackend
  import LegacyStringBackend
  import LegacyReport

  datatype PrimitiveError = PrimitiveError

  /** An external two-variant error, displayed as "error1" or "error2". */
  datatype SystemError = Error1 | Error2

  function RenderSystemError(e: SystemError): string
  {
    match e
    case Error1 => "error1"
    case Error2 => "error2"
  }

  /** The suberror records; `source` has the extracted detail type of the declared cause. */
  datatype ErrFoo = ErrFoo(foo: string, source: PrimitiveError)
  datatype ErrSystem = ErrSystem(source: SystemError)
  datatype ErrUnknown = ErrUnknown(source: ())

  /** `FooErrorDetail`: `Foo` (cause `DetailOnly<PrimitiveError>`), `System` (cause `StdError<SystemError>`), `Unknown` (cause `NoSource`). */
  datatype FooErrorDetail =
    | Foo(ErrFoo)
    | System(ErrSystem)
    | Unknown(ErrUnknown)

  /** The per-kind formatters, which render the kind's own fields only. */
  function Render(d: FooErrorDetail): string
  {
    match d
    case Foo(err) => "foo error: " + err.foo
    case System(_) => "system error"
    case Unknown(_) => "unknown error"
  }

  type FooError = ErrorReport<FooErrorDetail, StringBackend.StringTracer>

  /** `foo_error(foo, source)`. */
  function FooErrorOf(foo: string, source: PrimitiveError): FooError
  {
    TraceFrom(StringBackend.MessageTracerImpl(), Render, DetailOnlyDetails, source, (d: PrimitiveError) => Foo(ErrFoo(foo, d)))
  }

  /** `system_error(source)`: the string backend's `StdError` rule is that of the older snapshot. */
  function SystemErrorOf(source: SystemError): FooError
  {
    LegacyReport.TraceFrom(Render, (s: SystemError) => LegacyStringBackend.StdErrorDetails(RenderSystemError, s),
                           source, (d: SystemError) => System(ErrSystem(d)))
  }

  /** `unknown_error(source)`: the cause is `NoSource`, whose only value is `()`. */
  function UnknownErrorOf(source: ()): FooError
  {
    TraceFrom(StringBackend.MessageTracerImpl(), Render, NoSourceDetails, source, (d: ()) => Unknown(ErrUnknown(d)))
  }

  /** A `DetailOnly` cause is stored as the detail and the trace is the new detail alone. */
  lemma FooErrorTrace(foo: string, source: PrimitiveError)
    ensures FooErrorOf(foo, source).detail == Foo(ErrFoo(foo, source))
    ensures FooErrorOf(foo, source).trace.s == "foo error: " + foo
  {
  }

  /** `foo_error("Hello Foo", PrimitiveError)` traces "foo error: Hello Foo". */
  lemma HelloFoo()
    ensures FooErrorOf("Hello Foo", PrimitiveError).trace.s == "foo error: Hello Foo"
  {
    FooErrorTrace("Hello Foo", PrimitiveError);
  }

  /** `system_error(Error1)` traces "system error: error1". */
  lemma SystemError1()
    ensures SystemErrorOf(Error1).detail == System(ErrSystem(Error1))
    ensures SystemErrorOf(Error1).trace.s == "system error: error1"
  {
    LegacyReport.StdErrorComposition(RenderSystemError, Render, Error1, (d: SystemError) => System(ErrSystem(d)));
  }

  /**
   * A `NoSource` cause gives the same report as the no-cause constructor form,
   * which starts the trace with `new_message`; the trace is "unknown error".
   */
  lemma UnknownIsNoSource()
    ensures UnknownErrorOf(()) == ErrorReport(Unknown(ErrUnknown(())), StringBackend.NewMessage(Render, Unknown(ErrUnknown(()))))
    ensures UnknownErrorOf(()).trace.s == "unknown error"
  {
  }
}

/** The `bar` component: `BarErrorDetail` with `Bar` (cause `NoSource`) and `Foo` (cause `foo::FooError`). */
module Bar {
  import opened Source
  import opened Report
  import StringBackend
  import F = Foo

  /** The suberror records; the `Foo` kind stores the cause's detail, not the cause's report. */
  datatype ErrBar = ErrBar(bar: string, source: ())
  datatype ErrFoo = ErrFoo(detail: string, source: F.FooErrorDetail)

  datatype BarErrorDetail =
    | Bar(ErrBar)
    | Foo(ErrFoo)

  /** The per-kind formatters, which render the kind's own fields only. */
  function Render(d: BarErrorDetail): string
  {
    match d
    case Bar(err) => "bar error " + err.bar
    case Foo(err) => "error caused by foo: " + err.detail
  }

  type BarError = ErrorReport<BarErrorDetail, StringBackend.StringTracer>

  /** `bar_error(bar, source)`: the cause is `NoSource`. */
  function BarErrorOf(bar: string, source: ()): BarError
  {
    TraceFrom(StringBackend.MessageTracerImpl(), Render, NoSourceDetails, source, (d: ()) => Bar(ErrBar(bar, d)))
  }

  /** `bar_error` stores its fields and starts a fresh trace "bar error <bar>". */
  lemma BarErrorTrace(bar: string)
    ensures BarErrorOf(bar, ()).detail == Bar(ErrBar(bar, ()))
    ensures BarErrorOf(bar, ()).trace.s == "bar error " + bar
  {
  }

  /** `foo_error(detail, source)`: the cause is another component's report. */
  function FooErrorOf(detail: string, source: F.FooError): BarError
  {
    TraceFrom(StringBackend.MessageTracerImpl(), Render, ReportDetails, source, (d: F.FooErrorDetail) => Foo(ErrFoo(detail, d)))
  }

  /**
   * Wrapping a `FooError`: the stored cause is its detail, and the trace is this
   * kind's message on top of the whole `FooError` trace.
   */
  lemma FooErrorTrace(detail: string, source: F.FooError)
    ensures FooErrorOf(detail, source).detail == Foo(ErrFoo(detail, source.detail))
    ensures FooErrorOf(detail, source).trace.s == "error caused by foo: " + detail + ": " + source.trace.s
  {
  }

  /** The test's two-component chain. */
  lemma FooHasFailed()
    ensures var err2 := FooErrorOf("Foo has failed", F.FooErrorOf("Hello Foo", F.PrimitiveError));
            && err2.detail == Foo(ErrFoo("Foo has failed", F.Foo(F.ErrFoo("Hello Foo", F.PrimitiveError))))
            && err2.trace.s == "error caused by foo: Foo has failed: foo error: Hello Foo"
  {
    var err1 := F.FooErrorOf("Hello Foo", F.PrimitiveError);
    F.FooErrorTrace("Hello Foo", F.PrimitiveError);
    FooErrorTrace("Foo has failed", err1);
    FooHasFailedText();
  }

  /** The literal concatenation alone, kept apart so the solver checks it quickly. */
  lemma FooHasFailedText()
    ensures "error caused by foo: " + "Foo has failed" + ": " + ("foo error: " + "Hello Foo")
            == "error caused by foo: Foo has failed: foo error: Hello Foo"
  {
    assert "foo error: " + "Hello Foo" == "foo error: Hello Foo";
    assert "error caused by foo: " + "Foo has failed" == "error caused by foo: Foo has failed";
    assert "error caused by foo: Foo has failed" + ": " == "error caused by foo: Foo has failed: ";
  }

  /** The demo's chain through the `System` kind. */
  lemma SystemHasFailed()
    ensures FooErrorOf("Foo has failed", F.SystemErrorOf(F.Error1)).trace.s
            == "error caused by foo: Foo has failed: system error: error1"
  {
    var err1 := F.SystemErrorOf(F.Error1);
    F.SystemError1();
    FooErrorTrace("Foo has failed", err1);
    SystemHasFailedText();
  }

  /** The literal concatenation alone, kept apart so the solver checks it quickly. */
  lemma SystemHasFailedText()
    ensures "error caused by foo: " + "Foo has failed" + ": " + "system error: error1"
            == "error caused by foo: Foo has failed: system error: error1"
  {
    assert "error caused by foo: " + "Foo has failed" == "error caused by foo: Foo has failed";
    assert "error caused by foo: Foo has failed" + ": " == "error caused by foo: Foo has failed: ";
  }
}

/**
 * A component whose `Wrapped` kind has the component's own report as cause,
 * extracted with `BoxDetail`: the self-referential case.
 */
module Nested {
  import opened Text
  import opened Report
  import StringBackend

  datatype NestedErrorDetail =
    | Root(reason: string)
    | Wrapped(context: string, source: Box<NestedErrorDetail>)

  function Render(d: NestedErrorDetail): string
  {
    match d
    case Root(reason) => "root error: " + reason
    case Wrapped(context, _) => "wrapped error: " + context
  }

  /** How many `Wrapped` layers the detail holds. */
  function Depth(d: NestedErrorDetail): nat
  {
    match d
    case Root(_) => 0
    case Wrapped(_, inner) => Depth(inner) + 1
  }

  type NestedError = ErrorReport<NestedErrorDetail, StringBackend.StringTracer>

  /** `root_error(reason)`. */
  function RootErrorOf(reason: string): NestedError
  {
    ErrorReport(Root(reason), StringBackend.NewMessage(Render, Root(reason)))
  }

  /** The continuation of the `Wrapped` kind. */
  function Wrapper(context: string): NestedErrorDetail -> NestedErrorDetail
  {
    (d: NestedErrorDetail) => Wrapped(context, BoxNew(d))
  }

  /** `wrapped_error(context, source)`. */
  function WrappedErrorOf(context: string, source: NestedError): NestedError
  {
    TraceFrom(StringBackend.MessageTracerImpl(), Render, BoxDetailDetails, source, Wrapper(context))
  }

  /** One continuation per context, oldest first. */
  function Wrappers(contexts: seq<string>): (conts: seq<NestedErrorDetail -> NestedErrorDetail>)
    ensures |conts| == |contexts|
    ensures forall i, d | 0 <= i < |contexts| :: conts[i](d) == Wrapped(contexts[i], d)
  {
    seq(|contexts|, i requires 0 <= i < |contexts| => Wrapper(contexts[i]))
  }

  /** The message each `Wrapped` layer contributes, oldest first. */
  function WrappedMessages(contexts: seq<string>): (ms: seq<string>)
    ensures |ms| == |contexts|
    ensures forall i | 0 <= i < |contexts| :: ms[i] == "wrapped error: " + contexts[i]
  {
    seq(|contexts|, i requires 0 <= i < |contexts| => "wrapped error: " + contexts[i])
  }

  /** Each wrapping continuation adds exactly one level to the detail. */
  lemma {:induction false} ApplyDepth(d: NestedErrorDetail, conts: seq<NestedErrorDetail -> NestedErrorDetail>, contexts: seq<string>)
    requires |conts| == |contexts|
    requires forall i, x | 0 <= i < |contexts| :: conts[i](x) == Wrapped(contexts[i], x)
    ensures Depth(Apply(d, conts)) == Depth(d) + |conts|
  {
    if conts != [] {
      ApplyDepth(d, conts[..|conts| - 1], contexts[..|contexts| - 1]);
    }
  }

  /** The layers' messages are the wrapped kinds' own messages, never a re-rendered cause. */
  lemma {:induction false} LayerMessagesWrapped(d: NestedErrorDetail, conts: seq<NestedErrorDetail -> NestedErrorDetail>, contexts: seq<string>)
    requires |conts| == |contexts|
    requires forall i, x | 0 <= i < |contexts| :: conts[i](x) == Wrapped(contexts[i], x)
    ensures LayerMessages(Render, d, conts) == WrappedMessages(contexts)
  {
    if conts != [] {
      var n := |conts|;
      LayerMessagesWrapped(d, conts[..n - 1], contexts[..n - 1]);
      assert conts[n - 1](Apply(d, conts[..n - 1])) == Wrapped(contexts[n - 1], Apply(d, conts[..n - 1]));
      assert WrappedMessages(contexts) == WrappedMessages(contexts[..n - 1]) + ["wrapped error: " + contexts[n - 1]];
    }
  }

  /**
   * Wrapping a report k times through `BoxDetail`: the detail is exactly k levels
   * deeper, and the trace is "wrapped error: c_k: ...: wrapped error: c_1: <original>".
   */
  lemma WrapMany(report: NestedError, contexts: seq<string>)
    ensures Depth(WrapAll(Render, report, Wrappers(contexts)).detail) == Depth(report.detail) + |contexts|
    ensures WrapAll(Render, report, Wrappers(contexts)).trace.s
            == Join(Reversed(WrappedMessages(contexts)) + [report.trace.s])
  {
    var conts := Wrappers(contexts);
    WrapAllLayers(Render, report, conts);
    ApplyDepth(report.detail, conts, contexts);
    LayerMessagesWrapped(report.detail, conts, contexts);
    WrapAllNewestFirst(Render, report, conts);
  }

  /** One self-wrapping layer: one more level of detail, one more message on top of the trace. */
  lemma WrapOnce(context: string, source: NestedError)
    ensures WrappedErrorOf(context, source).detail == Wrapped(context, source.detail)
    ensures Depth(WrappedErrorOf(context, source).detail) == Depth(source.detail) + 1
    ensures WrappedErrorOf(context, source).trace.s == "wrapped error: " + context + ": " + source.trace.s
  {
  }

  /** Three levels of self-wrapping: depth three, and every message kept, newest first. */
  lemma ThreeLevels(c1: string, c2: string, c3: string, reason: string)
    ensures var r := WrappedErrorOf(c3, WrappedErrorOf(c2, WrappedErrorOf(c1, RootErrorOf(reason))));
            && Depth(r.detail) == 3
            && r.trace.s == "wrapped error: " + c3 + ": " + ("wrapped error: " + c2 + ": " + ("wrapped error: " + c1 + ": " + ("root error: " + reason)))
  {
    var r0 := RootErrorOf(reason);
    var r1 := WrappedErrorOf(c1, r0);
    WrapOnce(c1, r0);
    var r2 := WrappedErrorOf(c2, r1);
    WrapOnce(c2, r1);
    WrapOnce(c3, r2);
  }

}
