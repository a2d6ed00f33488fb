/** Shared building blocks: optional values, server identifiers, remote outcomes,
    and the order-preserving sub-list that JavaScript's `Array.prototype.filter` computes. */
module Common {

  datatype Option<+T> = None | Some(value: T)

  /** Identifiers are assigned by the server and start at 1, so every id is truthy
      in the client code (`if (payload.id)`, `if (editingId)`, `value.cash_flow_type ? ...`). */
  type ID = n: nat | n > 0 witness 1

  /** What an awaited remote call settles to: the resolved value, or a rejection whose
      message the handlers turn into an error string. */
  datatype Remote<+T> = Ok(value: T) | Failed(message: string)

  /** `s.filter(p)`: the elements of `s` that satisfy `p`, in their original order. */
  function Filter<T>(s: seq<T>, p: T -> bool): (r: seq<T>)
    ensures |r| <= |s|
    ensures forall x :: x in r ==> x in s && p(x)
  {
    if s == [] then []
    else (if p(s[0]) then [s[0]] else []) + Filter(s[1..], p)
  }

  /** Filtering distributes over concatenation: this is what "in original order" means. */
  lemma {:induction false} FilterConcat<T>(a: seq<T>, b: seq<T>, p: T -> bool)
    ensures Filter(a + b, p) == Filter(a, p) + Filter(b, p)
  {
    if a == [] {
      assert a + b == b;
    } else {
      assert (a + b)[1..] == a[1..] + b;
      FilterConcat(a[1..], b, p);
    }
  }

  /** Nothing that satisfies `p` is lost. */
  lemma {:induction false} FilterKeeps<T>(s: seq<T>, p: T -> bool, x: T)
    requires x in s && p(x)
    ensures x in Filter(s, p)
  {
    if s[0] != x {
      FilterKeeps(s[1..], p, x);
    }
  }

  /** When every element satisfies `p`, filtering returns the list unchanged. */
  lemma {:induction false} FilterAll<T>(s: seq<T>, p: T -> bool)
    requires forall i :: 0 <= i < |s| ==> p(s[i])
    ensures Filter(s, p) == s
  {
    if s != [] {
      FilterAll(s[1..], p);
    }
  }

  /** Membership in a filtered list, both directions. */
  lemma FilterMembership<T>(s: seq<T>, p: T -> bool)
    ensures forall x :: x in Filter(s, p) <==> x in s && p(x)
  {
    forall x | x in s && p(x) ensures x in Filter(s, p) {
      FilterKeeps(s, p, x);
    }
  }
}
