/** Java's LinkedHashSet as the serializer uses it: a duplicate-free sequence
    in insertion order, where adding an element that is already present
    changes nothing. */
module OrderedSet {

  predicate NoDup(s: seq<string>)
  {
    forall i, j :: 0 <= i < j < |s| ==> s[i] != s[j]
  }

  /** LinkedHashSet.add: append `x` unless it is already there. */
  function Insert(s: seq<string>, x: string): (r: seq<string>)
    ensures NoDup(s) ==> NoDup(r)
    ensures forall y :: y in r <==> y in s || y == x
    ensures s <= r
  {
    if x in s then s else s + [x]
  }

  /** LinkedHashSet.addAll: add the elements of `xs` one by one, left to
      right. */
  function InsertAll(s: seq<string>, xs: seq<string>): seq<string>
    decreases |xs|
  {
    if xs == [] then s else InsertAll(Insert(s, xs[0]), xs[1..])
  }

  /** The elements of `xs` that do not occur in `s`, in their order. */
  function Without(xs: seq<string>, s: seq<string>): (r: seq<string>)
    ensures |r| <= |xs|
    ensures forall y :: y in r <==> y in xs && y !in s
  {
    if xs == [] then []
    else (if xs[0] in s then [] else [xs[0]]) + Without(xs[1..], s)
  }

  /** Reference definition of first-seen deduplication: keep the first
      element, drop its later copies, and deduplicate the rest. */
  function Dedup(xs: seq<string>): (r: seq<string>)
    ensures NoDup(r)
    ensures forall y :: y in r <==> y in xs
    decreases |xs|
  {
    if xs == [] then []
    else
      var rest := Dedup(Without(xs[1..], [xs[0]]));
      NoDupCons(xs[0], rest);
      [xs[0]] + rest
  }

  lemma NoDupCons(x: string, s: seq<string>)
    requires x !in s && NoDup(s)
    ensures NoDup([x] + s)
  {
    var r := [x] + s;
    forall i, j | 0 <= i < j < |r|
      ensures r[i] != r[j]
    {
      if i == 0 {
        assert r[j] == s[j - 1];
      } else {
        assert r[i] == s[i - 1] && r[j] == s[j - 1];
      }
    }
  }

  lemma {:induction false} WithoutNothing(xs: seq<string>)
    ensures Without(xs, []) == xs
  {
    if xs != [] {
      WithoutNothing(xs[1..]);
    }
  }

  lemma {:induction false} WithoutWithout(xs: seq<string>, a: seq<string>, b: seq<string>)
    ensures Without(Without(xs, a), b) == Without(xs, a + b)
  {
    if xs != [] {
      var x := xs[0];
      WithoutWithout(xs[1..], a, b);
      var w := Without(xs, a);
      if x in a {
        assert x in a + b;
        assert w == Without(xs[1..], a);
        assert Without(xs, a + b) == Without(xs[1..], a + b);
      } else {
        assert w == [x] + Without(xs[1..], a);
        assert w[0] == x && w[1..] == Without(xs[1..], a);
        assert x in a + b <==> x in b;
        assert Without(w, b) == (if x in b then [] else [x]) + Without(Without(xs[1..], a), b);
      }
    }
  }

  /** Removing the members of two sequences with the same elements removes
      the same things. */
  lemma {:induction false} WithoutSameMembers(xs: seq<string>, a: seq<string>, b: seq<string>)
    requires forall y :: y in a <==> y in b
    ensures Without(xs, a) == Without(xs, b)
  {
    if xs != [] {
      WithoutSameMembers(xs[1..], a, b);
    }
  }

  /** Adding `xs` to a set already holding `s` appends, in first-seen order,
      exactly the elements of `xs` that were not yet there. */
  lemma {:induction false} InsertAllIsDedup(s: seq<string>, xs: seq<string>)
    requires NoDup(s)
    ensures InsertAll(s, xs) == s + Dedup(Without(xs, s))
    decreases |xs|
  {
    if xs == [] {
      assert s + [] == s;
    } else {
      var x, tail := xs[0], xs[1..];
      assert xs == [x] + tail;
      if x in s {
        InsertAllIsDedup(s, tail);
        assert Without(xs, s) == Without(tail, s);
      } else {
        InsertAllIsDedup(s + [x], tail);
        DedupFresh(x, tail, s);
      }
    }
  }

  /** The step of InsertAllIsDedup where `x` is new to `s`. */
  lemma DedupFresh(x: string, tail: seq<string>, s: seq<string>)
    requires x !in s
    ensures s + Dedup(Without([x] + tail, s)) == (s + [x]) + Dedup(Without(tail, s + [x]))
  {
    var xs := [x] + tail;
    assert xs[0] == x && xs[1..] == tail;
    var w := Without(xs, s);
    assert w == [x] + Without(tail, s);
    assert w[0] == x && w[1..] == Without(tail, s);
    WithoutWithout(tail, s, [x]);
    calc {
      Dedup(w);
      [w[0]] + Dedup(Without(w[1..], [w[0]]));
      [x] + Dedup(Without(Without(tail, s), [x]));
      [x] + Dedup(Without(tail, s + [x]));
    }
  }

  /** A LinkedHashSet built from `xs` holds Dedup(xs). */
  lemma InsertAllEmpty(xs: seq<string>)
    ensures InsertAll([], xs) == Dedup(xs)
  {
    InsertAllIsDedup([], xs);
    WithoutNothing(xs);
  }

  lemma {:induction false} InsertAllAppend(s: seq<string>, xs: seq<string>, ys: seq<string>)
    ensures InsertAll(s, xs + ys) == InsertAll(InsertAll(s, xs), ys)
    decreases |xs|
  {
    if xs == [] {
      assert xs + ys == ys;
    } else {
      assert (xs + ys)[0] == xs[0];
      assert (xs + ys)[1..] == xs[1..] + ys;
      InsertAllAppend(Insert(s, xs[0]), xs[1..], ys);
    }
  }

  /** The elements of `a` come first, in their own first-seen order, then the
      new elements of `b` in theirs. */
  lemma DedupAppend(a: seq<string>, b: seq<string>)
    ensures Dedup(a + b) == Dedup(a) + Dedup(Without(b, a))
  {
    InsertAllEmpty(a + b);
    InsertAllAppend([], a, b);
    InsertAllEmpty(a);
    InsertAllIsDedup(Dedup(a), b);
    WithoutSameMembers(b, Dedup(a), a);
  }

  /** A sequence without duplicates is its own deduplication. */
  lemma {:induction false} DedupNoDup(xs: seq<string>)
    requires NoDup(xs)
    ensures Dedup(xs) == xs
    decreases |xs|
  {
    if xs != [] {
      var rest := xs[1..];
      assert xs[0] !in rest;
      WithoutDisjoint(rest, [xs[0]]);
      DedupNoDup(rest);
    }
  }

  lemma {:induction false} WithoutDisjoint(xs: seq<string>, s: seq<string>)
    requires forall y :: y in xs ==> y !in s
    ensures Without(xs, s) == xs
  {
    if xs != [] {
      assert xs[0] in xs;
      WithoutDisjoint(xs[1..], s);
      assert [xs[0]] + xs[1..] == xs;
    }
  }
}
