/**
 * The tracer contracts `ErrorMessageTracer` and `ErrorTracer<E>`
 * (flex-error/src/tracer.rs).
 *
 * A contract is a record of the backend's operations. Each operation consumes the
 * old trace and returns a new one. A message tracer knows a message only through
 * its `Display` rendering, so its operations take the rendered string; the
 * helpers `NewMessage` and `AddMessage` do the rendering with a given `render`.
 */
module Tracer {
  import opened Text

  /** `ErrorMessageTracer`: start a trace from a message, or put a message on top of one. */
  datatype MessageTracer<!T> = MessageTracer(newMessage: string -> T, addMessage: (T, string) -> T)

  /** `Trace::new_message(&message)` for a message displayed by `render`. */
  function NewMessage<T, E>(tracer: MessageTracer<T>, render: E -> string, message: E): T
  {
    tracer.newMessage(render(message))
  }

  /** `trace.add_message(&message)` for a message displayed by `render`. */
  function AddMessage<T, E>(tracer: MessageTracer<T>, trace: T, render: E -> string, message: E): T
  {
    tracer.addMessage(trace, render(message))
  }

  /**
   * `ErrorTracer<E>: ErrorMessageTracer`: every such tracer is also a message
   * tracer (the `messages` field); `newTrace` and `addTrace` take ownership of `E`.
   */
  datatype ErrorTracer<!T, !E> = ErrorTracer(messages: MessageTracer<T>, newTrace: E -> T, addTrace: (T, E) -> T)

  /**
   * The documented behaviour of `add_trace`: it is `add_message` on the rendering
   * of `E`, so at most the one backtrace captured by `new_trace` is ever kept.
   */
  ghost predicate AddTraceIsAddMessage<T(!new), E(!new)>(tracer: ErrorTracer<T, E>, render: E -> string)
  {
    forall trace: T, err: E :: tracer.addTrace(trace, err) == AddMessage(tracer.messages, trace, render, err)
  }

  /**
   * What "adds new error detail to an existing trace" means for a backend whose
   * traces are shown by `display`: the new message is shown first and the old
   * trace's text is kept, unchanged, at the end.
   */
  ghost predicate KeepsHistory<T(!new)>(tracer: MessageTracer<T>, display: T -> string)
  {
    forall trace: T, message: string ::
      message <= display(tracer.addMessage(trace, message))
      && IsSuffix(display(trace), display(tracer.addMessage(trace, message)))
  }

  /**
   * A backend whose `add_trace` is `add_message` on the rendering, and whose
   * `add_message` keeps history, also keeps history through `add_trace`: E's
   * rendering comes first and the old trace's text is kept at the end.
   */
  lemma AddTraceKeepsHistory<T(!new), E(!new)>(tracer: ErrorTracer<T, E>, render: E -> string, display: T -> string, trace: T, err: E)
    requires AddTraceIsAddMessage(tracer, render)
    requires KeepsHistory(tracer.messages, display)
    ensures render(err) <= display(tracer.addTrace(trace, err))
    ensures IsSuffix(display(trace), display(tracer.addTrace(trace, err)))
  {
    assert tracer.addTrace(trace, err) == tracer.messages.addMessage(trace, render(err));
  }
}
