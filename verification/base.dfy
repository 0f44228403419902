/** Shared vocabulary of the view-mapper model: errors, results, the opaque
    view object the builders produce, and the reply every wrapper operation
    returns (its new state together with what the caller receives). */
module Base {

  /** Member names used for forwarded property reads and method calls. */
  type Name = string

  /** Failures the core can surface. `NoSetters` is the read-only rejection
      raised by a lazy property on assignment; `Raised` stands for any
      exception thrown by a provider, a builder or a view's own member. */
  datatype Error = NoSetters | Raised(message: string)

  datatype Result<T> = Ok(value: T) | Err(error: Error)

  datatype Option<T> = None | Some(value: T)

  /** Values exchanged with a view: property contents, method arguments and
      method results. `List` is a PHP list-shaped array. */
  datatype Value = Null | Bool(b: bool) | Int(i: int) | Str(s: string) | List(items: seq<Value>)

  /** A view object, seen only through the three ways the core touches it:
      whether a property is declared, reading a property, and invoking a
      method with a positional argument list. What happens for a name the
      view does not have is the view's own business. */
  datatype View = View(
    hasProperty: Name -> bool,
    read: Name -> Result<Value>,
    invoke: (Name, seq<Value>) -> Result<Value>)

  /** The outcome of one builder stage: what it produced (or the exception
      that stopped it) and how many times it invoked the builder. */
  datatype Built<T> = Built(outcome: Result<T>, calls: nat)

  /** What a wrapper operation returns: the wrapper's next state and the
      caller-visible result. */
  datatype Reply<S, A> = Reply(state: S, result: Result<A>)
}
