// Shared vocabulary of the ERP model: optional values, error results,
// identifiers and integer sums.

module Common {

  datatype Option<T> = None | Some(value: T)

  /** The kinds of failure the services raise. */
  datatype Error =
    | Validation(message: string)   // a DRF ValidationError (HTTP 400)
    | ValueError(message: string)   // a Python ValueError raised by a service
    | Integrity(message: string)    // a violated database constraint
    | NotFound(message: string)     // `get_object_or_404` found no row (HTTP 404)

  datatype Result<T> = Ok(value: T) | Err(error: Error)

  /** Outcome of an operation that returns nothing on success. */
  datatype Outcome = Done | Fail(error: Error)

  // Database primary keys. Organizations use UUIDs in the source; every
  // identifier is an opaque natural number here.
  type OrgId = nat
  type UserId = nat
  type ProductId = nat
  type WarehouseId = nat
  type ContactId = nat

  function Abs(x: int): (r: nat)
    ensures r == x || r == -x
  {
    if x < 0 then -x else x
  }

  lemma MultisetRemove<T>(ys: seq<T>, i: nat)
    requires i < |ys|
    ensures multiset(ys[..i] + ys[i + 1..]) == multiset(ys) - multiset{ys[i]}
  {
    assert ys == ys[..i] + [ys[i]] + ys[i + 1..];
  }

  /** `sum(f(x) for x in s)`. */
  function SumOf<A>(f: A -> int, s: seq<A>): int
  {
    if s == [] then 0 else f(s[0]) + SumOf(f, s[1..])
  }

  lemma {:induction false} SumOfAppend<A>(f: A -> int, s: seq<A>, t: seq<A>)
    ensures SumOf(f, s + t) == SumOf(f, s) + SumOf(f, t)
  {
    if s == [] {
      assert s + t == t;
    } else {
      assert (s + t)[1..] == s[1..] + t;
      SumOfAppend(f, s[1..], t);
    }
  }

  lemma SumOfSnoc<A>(f: A -> int, s: seq<A>, x: A)
    ensures SumOf(f, s + [x]) == SumOf(f, s) + f(x)
  {
    SumOfAppend(f, s, [x]);
  }

  lemma SumOfLast<A>(f: A -> int, s: seq<A>)
    requires s != []
    ensures SumOf(f, s) == SumOf(f, s[..|s| - 1]) + f(s[|s| - 1])
  {
    assert s == s[..|s| - 1] + [s[|s| - 1]];
    SumOfSnoc(f, s[..|s| - 1], s[|s| - 1]);
  }

  lemma SumOfRemove<A>(f: A -> int, t: seq<A>, i: nat)
    requires i < |t|
    ensures SumOf(f, t) == f(t[i]) + SumOf(f, t[..i] + t[i + 1..])
  {
    var tail := t[i..];
    assert t == t[..i] + tail;
    SumOfAppend(f, t[..i], tail);
    assert tail[1..] == t[i + 1..];
    SumOfAppend(f, t[..i], t[i + 1..]);
  }

  /** Replacing one element changes the sum by the difference of the two values. */
  lemma SumOfReplace<A>(f: A -> int, t: seq<A>, i: nat, x: A)
    requires i < |t|
    ensures SumOf(f, t[i := x]) == SumOf(f, t) - f(t[i]) + f(x)
  {
    SumOfRemove(f, t, i);
    SumOfRemove(f, t[i := x], i);
    assert t[i := x][..i] == t[..i];
    assert t[i := x][i + 1..] == t[i + 1..];
  }

  function FindIndex<T(==)>(t: seq<T>, x: T): (i: nat)
    requires x in t
    ensures i < |t| && t[i] == x
  {
    if t[0] == x then 0 else 1 + FindIndex(t[1..], x)
  }

  /** The first element of `s` taken out of its permutation `t` leaves a permutation of the rest. */
  lemma RemoveMatching<A>(s: seq<A>, t: seq<A>) returns (i: nat)
    requires s != [] && multiset(s) == multiset(t)
    ensures i < |t| && t[i] == s[0]
    ensures multiset(s[1..]) == multiset(t[..i] + t[i + 1..])
  {
    assert s[0] in multiset(t);
    i := FindIndex(t, s[0]);
    MultisetRemove(t, i);
    assert s == [s[0]] + s[1..];
    assert multiset(s[1..]) == multiset(s) - multiset{s[0]};
  }

  /** A sum over a permutation of the same elements gives the same total. */
  lemma {:induction false} SumOfPermutation<A>(f: A -> int, s: seq<A>, t: seq<A>)
    requires multiset(s) == multiset(t)
    ensures SumOf(f, s) == SumOf(f, t)
  {
    if s == [] {
      assert |t| == |multiset(t)| == 0;
    } else {
      var i := RemoveMatching(s, t);
      SumOfPermutation(f, s[1..], t[..i] + t[i + 1..]);
      SumOfRemove(f, t, i);
    }
  }

  /** `x or 0` for a nullable aggregate. */
  function OrZero(x: Option<int>): int
  {
    if x.Some? then x.value else 0
  }

  /** Every element of `xs` is distinct. */
  predicate Distinct<T(==)>(xs: seq<T>)
  {
    forall i, j :: 0 <= i < j < |xs| ==> xs[i] != xs[j]
  }

  lemma AppendAssoc<T>(a: seq<T>, b: seq<T>, c: seq<T>)
    ensures a + (b + c) == a + b + c
  {
  }
}
