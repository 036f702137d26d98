/**
 * The array methods the console's logic is written with (`some`, `every`, `filter`,
 * `find`, and `filter(x => x !== v)`), each defined once and characterised by what it
 * returns for every input.
 */
module JsArray {
  import opened Wrappers

  /** `xs.some(p)`: true iff some element satisfies `p`; false on an empty array. */
  function Any<T>(xs: seq<T>, p: T -> bool): (b: bool)
    ensures b <==> exists i :: 0 <= i < |xs| && p(xs[i])
  {
    if xs == [] then false
    else if p(xs[0]) then true
    else
      var rest := Any(xs[1..], p);
      assert forall i :: 1 <= i < |xs| ==> xs[i] == xs[1..][i - 1];
      rest
  }

  /** `xs.every(p)`: true iff every element satisfies `p`; true on an empty array. */
  function Every<T>(xs: seq<T>, p: T -> bool): (b: bool)
    ensures b <==> forall i :: 0 <= i < |xs| ==> p(xs[i])
  {
    if xs == [] then true
    else if !p(xs[0]) then false
    else
      var rest := Every(xs[1..], p);
      assert forall i :: 1 <= i < |xs| ==> xs[i] == xs[1..][i - 1];
      rest
  }

  /**
   * `ys` can be obtained from `xs` by deleting elements, keeping the order of the rest.
   */
  predicate IsSubsequence<T(==)>(ys: seq<T>, xs: seq<T>)
    decreases |xs|
  {
    if xs == [] then ys == []
    else (ys != [] && ys[0] == xs[0] && IsSubsequence(ys[1..], xs[1..])) || IsSubsequence(ys, xs[1..])
  }

  /** The elements of `xs` satisfying `p`, in their original order. */
  function Kept<T>(xs: seq<T>, p: T -> bool): seq<T> {
    if xs == [] then [] else (if p(xs[0]) then [xs[0]] else []) + Kept(xs[1..], p)
  }

  /** What `Kept` keeps: exactly the elements satisfying `p`, as a sub-sequence. */
  lemma {:induction false} KeptProperties<T>(xs: seq<T>, p: T -> bool)
    ensures var ys := Kept(xs, p);
      && (forall i :: 0 <= i < |ys| ==> ys[i] in xs && p(ys[i]))
      && (forall i :: 0 <= i < |xs| && p(xs[i]) ==> xs[i] in ys)
      && IsSubsequence(ys, xs)
      && |ys| <= |xs|
      && (Every(xs, p) ==> ys == xs)
  {
    if xs != [] {
      KeptProperties(xs[1..], p);
      var rest := Kept(xs[1..], p);
      assert forall i :: 1 <= i < |xs| ==> xs[i] == xs[1..][i - 1];
      if p(xs[0]) {
        assert Kept(xs, p) == [xs[0]] + rest;
        assert ([xs[0]] + rest)[1..] == rest;
      } else {
        assert Kept(xs, p) == rest;
      }
    }
  }

  /** Filtering keeps every copy of an element satisfying `p` and no copy of any other. */
  lemma {:induction false} FilterKeepsMultiplicity<T>(xs: seq<T>, p: T -> bool)
    ensures forall x :: multiset(Kept(xs, p))[x] == if p(x) then multiset(xs)[x] else 0
  {
    if xs != [] {
      FilterKeepsMultiplicity(xs[1..], p);
      assert xs == [xs[0]] + xs[1..];
      assert multiset(xs) == multiset{xs[0]} + multiset(xs[1..]);
      assert Kept(xs, p) == (if p(xs[0]) then [xs[0]] else []) + Kept(xs[1..], p);
    }
  }

  /** `xs.filter(p)`: the elements satisfying `p`, in their original order. */
  function Filter<T(==)>(xs: seq<T>, p: T -> bool): (ys: seq<T>)
    ensures forall i :: 0 <= i < |ys| ==> ys[i] in xs && p(ys[i])
    ensures forall i :: 0 <= i < |xs| && p(xs[i]) ==> xs[i] in ys
    ensures IsSubsequence(ys, xs)
    ensures |ys| <= |xs|
    ensures Every(xs, p) ==> ys == xs
  {
    KeptProperties(xs, p);
    Kept(xs, p)
  }

  /** `xs.filter(y => y !== v)`: every occurrence of `v` removed, all else kept in order. */
  function Without<T(==)>(xs: seq<T>, v: T): (ys: seq<T>)
    ensures forall i :: 0 <= i < |ys| ==> ys[i] in xs && ys[i] != v
    ensures forall i :: 0 <= i < |xs| && xs[i] != v ==> xs[i] in ys
    ensures v !in ys
    ensures v !in xs ==> ys == xs
    ensures IsSubsequence(ys, xs)
    ensures multiset(ys) == multiset(xs)[v := 0]
  {
    KeptWithoutMultiset(xs, v);
    Filter(xs, Differs(v))
  }

  /** Dropping every `v` removes all its copies and keeps every copy of everything else. */
  lemma KeptWithoutMultiset<T>(xs: seq<T>, v: T)
    ensures multiset(Kept(xs, Differs(v))) == multiset(xs)[v := 0]
  {
    FilterKeepsMultiplicity(xs, Differs(v));
    assert forall x :: multiset(Kept(xs, Differs(v)))[x] == multiset(xs)[v := 0][x];
  }

  /** The test `y => y !== v`, named so that lemmas about `Without` can refer to it. */
  function Differs<T(==)>(v: T): T -> bool {
    y => y != v
  }

  /** `xs.find(p)`: the first element satisfying `p`, if any. */
  function Find<T(==)>(xs: seq<T>, p: T -> bool): (r: Option<T>)
    ensures r.None? <==> forall i :: 0 <= i < |xs| ==> !p(xs[i])
    ensures r.Some? ==> exists i :: 0 <= i < |xs| && xs[i] == r.value && p(xs[i])
                          && forall j :: 0 <= j < i ==> !p(xs[j])
  {
    if xs == [] then None
    else if p(xs[0]) then Some(xs[0])
    else
      var rest := Find(xs[1..], p);
      assert forall i :: 1 <= i < |xs| ==> xs[i] == xs[1..][i - 1];
      if rest.Some? then
        var i :| 0 <= i < |xs[1..]| && xs[1..][i] == rest.value && p(xs[1..][i])
                 && forall j :: 0 <= j < i ==> !p(xs[1..][j]);
        assert xs[i + 1] == rest.value && forall j :: 0 <= j < i + 1 ==> !p(xs[j]);
        rest
      else rest
  }

  /** Filtering distributes over concatenation, so the kept elements keep their relative order. */
  lemma {:induction false} KeptAppend<T>(xs: seq<T>, ys: seq<T>, p: T -> bool)
    ensures Kept(xs + ys, p) == Kept(xs, p) + Kept(ys, p)
  {
    if xs == [] {
      assert xs + ys == ys;
    } else {
      var head := if p(xs[0]) then [xs[0]] else [];
      assert (xs + ys)[0] == xs[0];
      assert (xs + ys)[1..] == xs[1..] + ys;
      assert Kept(xs + ys, p) == head + Kept(xs[1..] + ys, p);
      KeptAppend(xs[1..], ys, p);
      assert Kept(xs, p) == head + Kept(xs[1..], p);
    }
  }

  /** Removing a value that was appended to a list free of it gives back the list. */
  lemma WithoutAppended<T>(xs: seq<T>, v: T)
    requires v !in xs
    ensures Without(xs + [v], v) == xs
  {
    KeptAppend(xs, [v], Differs(v));
    assert Kept([v], Differs(v)) == [];
    KeptProperties(xs, Differs(v));
    assert Every(xs, Differs(v));
  }
}
