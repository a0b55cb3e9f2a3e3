/**
 * The array operations the stores and step handlers build new lists with:
 * `filter`, `filter(x => x !== v)`, the "remove if present, else append"
 * toggle, and `map` that rewrites only the elements a test picks.
 */
module Lists {

  /** `s.filter(keep)`: the elements that pass, in their original order. */
  function Filter<T(==,!new)>(s: seq<T>, keep: T -> bool): (r: seq<T>)
    ensures |r| <= |s|
    ensures forall i :: 0 <= i < |r| ==> keep(r[i])
    ensures forall y :: keep(y) ==> multiset(r)[y] == multiset(s)[y]
    ensures forall y :: !keep(y) ==> y !in r
    ensures (forall i :: 0 <= i < |s| ==> keep(s[i])) ==> r == s
  {
    if s == [] then []
    else
      assert s == [s[0]] + s[1..];
      var rest := Filter(s[1..], keep);
      if keep(s[0]) then [s[0]] + rest else rest
  }

  /** Nothing is kept that was not there. */
  lemma {:induction false} FilterKeepsOnlyMembers<T(!new)>(s: seq<T>, keep: T -> bool)
    ensures forall y :: y in Filter(s, keep) ==> y in s
  {
    if s != [] {
      FilterKeepsOnlyMembers(s[1..], keep);
      assert s == [s[0]] + s[1..];
    }
  }

  /** Filtering distributes over concatenation, which is what "keeps the others in order" means. */
  lemma {:induction false} FilterAppend<T(!new)>(a: seq<T>, b: seq<T>, keep: T -> bool)
    ensures Filter(a + b, keep) == Filter(a, keep) + Filter(b, keep)
  {
    if a == [] {
      assert a + b == b;
    } else {
      assert (a + b)[0] == a[0];
      assert (a + b)[1..] == a[1..] + b;
      FilterAppend(a[1..], b, keep);
    }
  }

  /** `s.filter(y => y !== x)`: every occurrence of `x` removed. */
  function Without<T(==,!new)>(s: seq<T>, x: T): (r: seq<T>)
    ensures x !in r
    ensures forall y :: y != x ==> multiset(r)[y] == multiset(s)[y]
    ensures x !in s ==> r == s
  {
    Filter(s, y => y != x)
  }

  /** Removing an element is remove-from-each-part. */
  lemma WithoutAppend<T(!new)>(a: seq<T>, b: seq<T>, x: T)
    ensures Without(a + b, x) == Without(a, x) + Without(b, x)
  {
    FilterAppend(a, b, y => y != x);
  }

  /** Two copies of an element appended to a list without it are both removed again. */
  lemma WithoutTwoAppended<T(!new)>(s: seq<T>, x: T)
    requires x !in s
    ensures Without(s + [x, x], x) == s
  {
    WithoutAppend(s, [x, x], x);
    var r := Without([x, x], x);
    forall y ensures multiset(r)[y] == 0 {
      if y != x { assert multiset([x, x])[y] == 0; }
    }
    assert multiset(r) == multiset{};
    assert |r| == |multiset(r)|;
  }

  /** The list toggle of the step handlers: drop every `x` when present, otherwise append it. */
  function Toggle<T(==,!new)>(s: seq<T>, x: T): (r: seq<T>)
    ensures x in r <==> x !in s
    ensures forall y :: y != x ==> multiset(r)[y] == multiset(s)[y]
    ensures x in s ==> r == Without(s, x)
    ensures x !in s ==> r == s + [x]
  {
    if x in s then Without(s, x) else s + [x]
  }

  /** Toggling an absent element on and off again gives back the original list. */
  lemma {:induction false} ToggleTwiceRestores<T(!new)>(s: seq<T>, x: T)
    requires x !in s
    ensures Toggle(Toggle(s, x), x) == s
  {
    assert Toggle(s, x) == s + [x];
    WithoutAppend(s, [x], x);
    assert Without([x], x) == [] by {
      assert [x] == [x] + [];
      assert Filter([x], y => y != x) == Filter([], y => y != x);
    }
    assert Without(s, x) == s;
  }

  /** `s.map(u => pick(u) ? f(u) : u)`: same length, only picked elements rewritten. */
  function MapWhere<T>(s: seq<T>, pick: T -> bool, f: T -> T): (r: seq<T>)
    ensures |r| == |s|
    ensures forall i :: 0 <= i < |s| && pick(s[i]) ==> r[i] == f(s[i])
    ensures forall i :: 0 <= i < |s| && !pick(s[i]) ==> r[i] == s[i]
  {
    if s == [] then []
    else [if pick(s[0]) then f(s[0]) else s[0]] + MapWhere(s[1..], pick, f)
  }

  /** When nothing is picked the list is returned unchanged. */
  lemma MapWhereNothingPicked<T>(s: seq<T>, pick: T -> bool, f: T -> T)
    requires forall i :: 0 <= i < |s| ==> !pick(s[i])
    ensures MapWhere(s, pick, f) == s
  {
  }
}
