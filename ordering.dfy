/** The orders pandas sorts group keys by: integers, strings (by code point) and pairs of them. */
module Ordering {

  /** `lt` is a strict total order: irreflexive, transitive and total on distinct values. */
  ghost predicate StrictTotalOrder<K(!new)>(lt: (K, K) -> bool) {
    && (forall a :: !lt(a, a))
    && (forall a, b, c :: lt(a, b) && lt(b, c) ==> lt(a, c))
    && (forall a, b :: a != b ==> lt(a, b) || lt(b, a))
  }

  function IntLt(a: int, b: int): bool {
    a < b
  }

  /** Lexicographic order on strings, comparing characters by code point, as Python does. */
  function StrLt(a: string, b: string): bool {
    if b == [] then false
    else if a == [] then true
    else a[0] < b[0] || (a[0] == b[0] && StrLt(a[1..], b[1..]))
  }

  /** Order of a two-level (order id, dish) group key: by order id, then by dish. */
  function PairLt(a: (int, string), b: (int, string)): bool {
    a.0 < b.0 || (a.0 == b.0 && StrLt(a.1, b.1))
  }

  lemma IntLtIsStrictTotalOrder()
    ensures StrictTotalOrder(IntLt)
  {
  }

  lemma {:induction false} StrLtIrreflexive(a: string)
    ensures !StrLt(a, a)
  {
    if a != [] {
      StrLtIrreflexive(a[1..]);
    }
  }

  lemma {:induction false} StrLtTransitive(a: string, b: string, c: string)
    requires StrLt(a, b) && StrLt(b, c)
    ensures StrLt(a, c)
  {
    if a != [] && a[0] == b[0] && b[0] == c[0] {
      StrLtTransitive(a[1..], b[1..], c[1..]);
    }
  }

  lemma {:induction false} StrLtTotal(a: string, b: string)
    requires a != b
    ensures StrLt(a, b) || StrLt(b, a)
  {
    if a != [] && b != [] && a[0] == b[0] {
      assert a == [a[0]] + a[1..] && b == [b[0]] + b[1..];
      StrLtTotal(a[1..], b[1..]);
    }
  }

  lemma StrLtIsStrictTotalOrder()
    ensures StrictTotalOrder(StrLt)
  {
    forall a: string ensures !StrLt(a, a) {
      StrLtIrreflexive(a);
    }
    forall a: string, b: string, c: string | StrLt(a, b) && StrLt(b, c) ensures StrLt(a, c) {
      StrLtTransitive(a, b, c);
    }
    forall a: string, b: string | a != b ensures StrLt(a, b) || StrLt(b, a) {
      StrLtTotal(a, b);
    }
  }

  lemma PairLtIsStrictTotalOrder()
    ensures StrictTotalOrder(PairLt)
  {
    StrLtIsStrictTotalOrder();
  }
}
