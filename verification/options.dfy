/**
 * The optional value used throughout the model. `None` stands for a missing
 * JavaScript value (`undefined`, an absent key, an out-of-range index).
 */
module Options {

  datatype Option<+T> = None | Some(value: T) {

    /** `this ?? other` — the nullish-coalescing operator of the source. */
    function OrElse(other: Option<T>): Option<T> {
      if Some? then this else other
    }

    function GetOr(default: T): T {
      if Some? then value else default
    }
  }

  /** `xs[i]` with JavaScript's out-of-range answer `undefined`. */
  function Nth<T>(xs: seq<T>, i: nat): (r: Option<T>)
    ensures r.Some? <==> i < |xs|
    ensures r.Some? ==> r.value == xs[i]
  {
    if i < |xs| then Some(xs[i]) else None
  }
}
