/** Values shared by the engine objects, the registries and the modifiers. */
module Values {

  /** JavaScript's `undefined`-or-value. */
  datatype Option<+T> = None | Some(value: T) {

    /** `this ?? default` for a value that is never null. */
    function GetOr(default: T): T {
      match this
      case Some(v) => v
      case None => default
    }
  }

  /**
   * A named argument as an Ember modifier receives it: either not passed at
   * all, or passed (possibly with the value `undefined`). The difference only
   * shows where the argument bag is spread over defaults (`{ k: d, ...named }`):
   * a passed `undefined` overrides the default there, while `named.k ?? d`
   * falls back to it.
   */
  datatype Arg<+T> = Absent | Passed(given: Option<T>) {

    /** The value of `k` in `{ k: default, ...named }`. */
    function Spread(default: Option<T>): Option<T> {
      match this
      case Absent => default
      case Passed(v) => v
    }

    /** The value of `named.k ?? default`. */
    function Coalesce(default: Option<T>): Option<T> {
      match this
      case Passed(Some(v)) => Some(v)
      case _ => default
    }
  }

  /** `Map.prototype.get`: the value under `k`, or undefined. */
  function Lookup<K, V>(m: map<K, V>, k: K): (r: Option<V>)
    ensures r.Some? <==> k in m
    ensures r.Some? ==> r.value == m[k]
  {
    if k in m then Some(m[k]) else None
  }

  /** A DOM element; elements are compared by identity (`===`). */
  class Element {
    constructor () { }
  }

  /**
   * An engine value the core only stores and compares: a type tag, a sensor
   * list, a data payload, a collision detector, an event handler.
   */
  type Opaque = nat

  /** dnd-kit's `FeedbackType`. */
  datatype Feedback = DefaultFeedback | MoveFeedback | CloneFeedback | NoFeedback
}
