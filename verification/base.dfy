/** Small shared vocabulary: an optional value, used wherever the source has a
    pointer that may be null, and counting the elements of a sequence that
    satisfy a predicate. */
module Base {

  /** `None` plays the role of a null pointer, `Some(v)` of a pointer to `v`. */
  datatype Option<+T> = None | Some(value: T)

  /** The number of elements of `s` that satisfy `p`. */
  function Count<X>(s: seq<X>, p: X -> bool): nat
  {
    if |s| == 0 then 0 else (if p(s[0]) then 1 else 0) + Count(s[1..], p)
  }

  /** Counting distributes over concatenation. */
  lemma {:induction false} CountAppend<X>(a: seq<X>, b: seq<X>, p: X -> bool)
    ensures Count(a + b, p) == Count(a, p) + Count(b, p)
    decreases |a|
  {
    if |a| == 0 {
      assert a + b == b;
    } else {
      assert (a + b)[1..] == a[1..] + b;
      CountAppend(a[1..], b, p);
    }
  }
}
