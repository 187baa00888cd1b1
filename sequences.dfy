/** The JavaScript array operations the application builds everything from:
    `filter`, `reduce` with `+`, `map` that swaps matching elements,
    `find`, and the identity-keyed `filter` used by every delete. They are
    stated once, generically, with the laws the store and the views rely on. */
module Sequences {
  import opened Wrappers

  /** `s.filter(p)`: the elements satisfying `p`, in their original order. */
  function Filter<T(==)>(s: seq<T>, p: T -> bool): (r: seq<T>)
    ensures |r| <= |s|
    ensures forall i :: 0 <= i < |r| ==> r[i] in s && p(r[i])
    ensures forall i :: 0 <= i < |s| && p(s[i]) ==> s[i] in r
  {
    if s == [] then [] else (if p(s[0]) then [s[0]] else []) + Filter(s[1..], p)
  }

  /** `s.reduce((sum, x) => sum + f(x), 0)`, over exact reals. */
  function Sum<T(==)>(s: seq<T>, f: T -> real): (r: real)
    ensures (forall x :: x in s ==> f(x) >= 0.0) ==> r >= 0.0
  {
    if s == [] then 0.0 else f(s[0]) + Sum(s[1..], f)
  }

  /** `s.map(e => key(e) === key(x) ? x : e)`: every element whose key equals
      the key of `x` becomes `x`; the others stay where they are. */
  function Replace<T, K(==)>(s: seq<T>, key: T -> K, x: T): (r: seq<T>)
    ensures |r| == |s|
    ensures forall i :: 0 <= i < |s| ==> r[i] == if key(s[i]) == key(x) then x else s[i]
  {
    if s == [] then [] else [if key(s[0]) == key(x) then x else s[0]] + Replace(s[1..], key, x)
  }

  /** The predicate `e => key(e) !== id` of a delete. */
  function KeyIsNot<T, K(==)>(key: T -> K, id: K): T -> bool {
    e => key(e) != id
  }

  /** The predicate `e => key(e) === id` of a lookup. */
  function KeyIs<T, K(==)>(key: T -> K, id: K): T -> bool {
    e => key(e) == id
  }

  /** `s.filter(e => key(e) !== id)`: every element carrying `id` is dropped. */
  function Remove<T(==), K(==)>(s: seq<T>, key: T -> K, id: K): (r: seq<T>)
    ensures forall i :: 0 <= i < |r| ==> r[i] in s && key(r[i]) != id
    ensures forall i :: 0 <= i < |s| && key(s[i]) != id ==> s[i] in r
  {
    Filter(s, KeyIsNot(key, id))
  }

  /** `s.find(e => key(e) === id)`: the first element carrying `id`, or
      nothing when no element carries it. */
  function FindFirst<T, K(==)>(s: seq<T>, key: T -> K, id: K): (r: Option<T>)
    ensures r.None? <==> forall i :: 0 <= i < |s| ==> key(s[i]) != id
    ensures r.Some? ==> exists i :: 0 <= i < |s| && s[i] == r.value && key(s[i]) == id &&
                                    forall j :: 0 <= j < i ==> key(s[j]) != id
  {
    if s == [] then None
    else if key(s[0]) == id then Some(s[0])
    else FindFirst(s[1..], key, id)
  }

  /** `s.slice(0, n)` for n >= 0. */
  function Take<T>(s: seq<T>, n: nat): (r: seq<T>)
    ensures |r| == if |s| < n then |s| else n
    ensures forall i :: 0 <= i < |r| ==> r[i] == s[i]
  {
    if |s| < n then s else s[..n]
  }

  /** The disjunction of two predicates. */
  function Either<T>(p: T -> bool, q: T -> bool): T -> bool {
    x => p(x) || q(x)
  }

  // ---------------------------------------------------------------- filter

  /** Filtering distributes over concatenation: it keeps relative order. */
  lemma {:induction false} FilterConcat<T>(a: seq<T>, b: seq<T>, p: T -> bool)
    ensures Filter(a + b, p) == Filter(a, p) + Filter(b, p)
  {
    if a == [] {
      assert a + b == b;
    } else {
      assert (a + b)[1..] == a[1..] + b;
      FilterConcat(a[1..], b, p);
    }
  }

  /** A filter keeps a sequence whose every element passes. */
  lemma {:induction false} FilterAll<T>(s: seq<T>, p: T -> bool)
    requires forall x :: x in s ==> p(x)
    ensures Filter(s, p) == s
  {
    if s != [] {
      FilterAll(s[1..], p);
    }
  }

  /** A filter that nothing passes yields the empty sequence. */
  lemma {:induction false} FilterNone<T>(s: seq<T>, p: T -> bool)
    requires forall x :: x in s ==> !p(x)
    ensures Filter(s, p) == []
  {
    if s != [] {
      FilterNone(s[1..], p);
    }
  }

  /** Filtering twice by the same predicate is filtering once. */
  lemma FilterIdempotent<T>(s: seq<T>, p: T -> bool)
    ensures Filter(Filter(s, p), p) == Filter(s, p)
  {
    FilterAll(Filter(s, p), p);
  }

  /** Two predicates that agree on every element filter alike. */
  lemma {:induction false} FilterCongruent<T>(s: seq<T>, p: T -> bool, q: T -> bool)
    requires forall x :: x in s ==> p(x) == q(x)
    ensures Filter(s, p) == Filter(s, q)
  {
    if s != [] {
      FilterCongruent(s[1..], p, q);
    }
  }

  /** Filtering by an element's predicate and by its negation splits the
      sequence: their lengths add up to the whole. */
  lemma {:induction false} FilterPartition<T>(s: seq<T>, p: T -> bool, q: T -> bool)
    requires forall x :: x in s ==> (p(x) <==> !q(x))
    ensures |Filter(s, p)| + |Filter(s, q)| == |s|
  {
    if s != [] {
      FilterPartition(s[1..], p, q);
    }
  }

  /** Counting elements that satisfy one of two exclusive predicates adds up. */
  lemma {:induction false} CountDisjoint<T>(s: seq<T>, p: T -> bool, q: T -> bool)
    requires forall x :: x in s ==> !(p(x) && q(x))
    ensures |Filter(s, p)| + |Filter(s, q)| == |Filter(s, Either(p, q))|
  {
    if s != [] {
      CountDisjoint(s[1..], p, q);
    }
  }

  /** A stronger predicate never counts more elements. */
  lemma {:induction false} CountMonotone<T>(s: seq<T>, p: T -> bool, q: T -> bool)
    requires forall x :: x in s && p(x) ==> q(x)
    ensures |Filter(s, p)| <= |Filter(s, q)|
  {
    if s != [] {
      CountMonotone(s[1..], p, q);
    }
  }

  // ------------------------------------------------------------------- sum

  /** Sums split over concatenation. */
  lemma {:induction false} SumConcat<T>(a: seq<T>, b: seq<T>, f: T -> real)
    ensures Sum(a + b, f) == Sum(a, f) + Sum(b, f)
  {
    if a == [] {
      assert a + b == b;
    } else {
      assert (a + b)[1..] == a[1..] + b;
      SumConcat(a[1..], b, f);
    }
  }

  /** One step of `reduce`: appending an element adds its value. */
  lemma SumAppend<T>(s: seq<T>, x: T, f: T -> real)
    ensures Sum(s + [x], f) == Sum(s, f) + f(x)
  {
    SumConcat(s, [x], f);
  }

  /** With non-negative values, summing the elements that pass a stronger
      filter gives no more than a weaker one. */
  lemma {:induction false} SumFilterMonotone<T>(s: seq<T>, p: T -> bool, q: T -> bool, f: T -> real)
    requires forall x :: x in s ==> f(x) >= 0.0
    requires forall x :: x in s && p(x) ==> q(x)
    ensures Sum(Filter(s, p), f) <= Sum(Filter(s, q), f)
  {
    if s != [] {
      SumFilterMonotone(s[1..], p, q, f);
      var hp := if p(s[0]) then [s[0]] else [];
      var hq := if q(s[0]) then [s[0]] else [];
      SumConcat(hp, Filter(s[1..], p), f);
      SumConcat(hq, Filter(s[1..], q), f);
    }
  }

  /** Summing over two exclusive filters adds up to summing over their union. */
  lemma {:induction false} SumDisjoint<T>(s: seq<T>, p: T -> bool, q: T -> bool, f: T -> real)
    requires forall x :: x in s ==> !(p(x) && q(x))
    ensures Sum(Filter(s, p), f) + Sum(Filter(s, q), f) == Sum(Filter(s, Either(p, q)), f)
  {
    if s != [] {
      SumDisjoint(s[1..], p, q, f);
      var hp := if p(s[0]) then [s[0]] else [];
      var hq := if q(s[0]) then [s[0]] else [];
      var he := if Either(p, q)(s[0]) then [s[0]] else [];
      SumConcat(hp, Filter(s[1..], p), f);
      SumConcat(hq, Filter(s[1..], q), f);
      SumConcat(he, Filter(s[1..], Either(p, q)), f);
    }
  }

  /** With non-negative values, a filtered sum is bounded by the full sum. */
  lemma {:induction false} SumFilterBounded<T>(s: seq<T>, p: T -> bool, f: T -> real)
    requires forall x :: x in s ==> f(x) >= 0.0
    ensures Sum(Filter(s, p), f) <= Sum(s, f)
  {
    if s != [] {
      SumFilterBounded(s[1..], p, f);
      var h := if p(s[0]) then [s[0]] else [];
      SumConcat(h, Filter(s[1..], p), f);
    }
  }

  /** Two sequences whose values agree position by position sum alike. */
  lemma {:induction false} SumPointwise<T>(a: seq<T>, b: seq<T>, f: T -> real)
    requires |a| == |b|
    requires forall i :: 0 <= i < |a| ==> f(a[i]) == f(b[i])
    ensures Sum(a, f) == Sum(b, f)
  {
    if a != [] {
      SumPointwise(a[1..], b[1..], f);
    }
  }

  // --------------------------------------------------------------- replace

  /** Replacing when no element carries the key leaves the sequence as it was. */
  lemma ReplaceNoMatch<T, K>(s: seq<T>, key: T -> K, x: T)
    requires forall i :: 0 <= i < |s| ==> key(s[i]) != key(x)
    ensures Replace(s, key, x) == s
  {
  }

  /** Replacing twice with the same element is replacing once. */
  lemma ReplaceIdempotent<T, K>(s: seq<T>, key: T -> K, x: T)
    ensures Replace(Replace(s, key, x), key, x) == Replace(s, key, x)
  {
  }

  // ---------------------------------------------------------------- remove

  /** Deleting twice is deleting once. */
  lemma RemoveIdempotent<T, K>(s: seq<T>, key: T -> K, id: K)
    ensures Remove(Remove(s, key, id), key, id) == Remove(s, key, id)
  {
    FilterIdempotent(s, KeyIsNot(key, id));
  }

  /** Deleting a key no element carries leaves the sequence as it was. */
  lemma RemoveNoMatch<T, K>(s: seq<T>, key: T -> K, id: K)
    requires forall x :: x in s ==> key(x) != id
    ensures Remove(s, key, id) == s
  {
    FilterAll(s, KeyIsNot(key, id));
  }

  /** A delete drops exactly the elements carrying the key: what remains and
      what matched add up to the whole. */
  lemma RemoveCount<T, K>(s: seq<T>, key: T -> K, id: K)
    ensures |Remove(s, key, id)| + |Filter(s, KeyIs(key, id))| == |s|
  {
    FilterPartition(s, KeyIsNot(key, id), KeyIs(key, id));
  }

  /** A delete keeps the survivors in order: it acts on each part of a
      concatenation separately. */
  lemma RemoveConcat<T, K>(a: seq<T>, b: seq<T>, key: T -> K, id: K)
    ensures Remove(a + b, key, id) == Remove(a, key, id) + Remove(b, key, id)
  {
    FilterConcat(a, b, KeyIsNot(key, id));
  }

  /** Appending an element whose key was absent leaves exactly one element
      carrying that key, and it is the appended one. */
  lemma AppendFreshKey<T, K>(s: seq<T>, key: T -> K, x: T)
    requires forall y :: y in s ==> key(y) != key(x)
    ensures Filter(s + [x], KeyIs(key, key(x))) == [x]
  {
    FilterConcat(s, [x], KeyIs(key, key(x)));
    FilterNone(s, KeyIs(key, key(x)));
  }
}
