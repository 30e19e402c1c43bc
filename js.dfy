/** The few JavaScript value semantics the screens rely on. */
module Js {
  import opened Wrappers

  /** A JavaScript number: a finite value (taken as an exact real) or one of
      the three non-finite doubles. `parseFloat` of a route parameter yields
      any of these. */
  datatype Number = NaN | PosInfinity | NegInfinity | Finite(value: real)

  /** JavaScript's `a < b` on numbers: false whenever either side is NaN. */
  predicate Less(a: Number, b: Number)
    ensures Less(a, b) ==> !a.NaN? && !b.NaN?
    ensures a.Finite? && b.Finite? ==> (Less(a, b) <==> a.value < b.value)
  {
    match (a, b)
    case (NaN, _) => false
    case (_, NaN) => false
    case (NegInfinity, NegInfinity) => false
    case (NegInfinity, _) => true
    case (PosInfinity, _) => false
    case (Finite(_), PosInfinity) => true
    case (Finite(_), NegInfinity) => false
    case (Finite(x), Finite(y)) => x < y
  }

  /** `<` is a strict order on the non-NaN numbers and NaN is unordered. */
  lemma LessIsStrictOrder(a: Number, b: Number, c: Number)
    ensures !Less(a, a)
    ensures Less(a, b) ==> !Less(b, a)
    ensures Less(a, b) && Less(b, c) ==> Less(a, c)
    ensures !a.NaN? && !b.NaN? && a != b ==> Less(a, b) || Less(b, a)
    ensures a.Finite? ==> Less(a, PosInfinity) && Less(NegInfinity, a)
  {
  }

  /** Reading `s[i]` from a JavaScript array: `undefined` past the end, since
      JavaScript arrays are not bounds-checked. */
  function Index<T>(s: seq<T>, i: nat): (r: Option<T>)
    ensures r.Some? <==> i < |s|
    ensures r.Some? ==> r.value == s[i]
  {
    if i < |s| then Some(s[i]) else None
  }
}
