/**
 * The extraction contract `ErrorSource<Trace>` (flex-error/src/source.rs).
 *
 * A marker type selects one extraction rule; the rule turns a raw source value
 * into the detail a suberror stores and, optionally, a trace to extend. In the
 * model a rule is a total function value, and each marker is the function that
 * implements its rule. The associated types `Source` and `Detail` (and with them
 * the aliases `AsErrorSource` and `AsErrorDetail`) are the type arguments `S`
 * and `D` of `ErrorSource<S, D, T>`.
 */
module Source {
  import opened Options

  /** `error_details`: never fails, so every rule is a total function. */
  type ErrorSource<!S, D, T> = S -> (D, Option<T>)

  /** `NoSource`: the source is `()`, the detail is `()`, there is no trace. */
  function NoSourceDetails<T>(source: ()): (r: ((), Option<T>))
    ensures r.1 == None
  {
    ((), None)
  }

  /** `DetailOnly<Detail>`: the source itself is kept as the detail, with no trace. */
  function DetailOnlyDetails<D, T>(source: D): (r: (D, Option<T>))
    ensures r.0 == source
    ensures r.1 == None
  {
    (source, None)
  }
}
