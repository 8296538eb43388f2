/**
 * Enumerable.Order() on the master file names, with ordinal (code-unit by
 * code-unit) comparison, as an insertion sort.
 */
module Ordering {

  /** Ordinal `a <= b`: a prefix comes first, otherwise the first differing character decides. */
  predicate Below(a: string, b: string)
    decreases |a|
  {
    a == [] || (b != [] && (a[0] < b[0] || (a[0] == b[0] && Below(a[1..], b[1..]))))
  }

  predicate Sorted(s: seq<string>) {
    forall i, j :: 0 <= i < j < |s| ==> Below(s[i], s[j])
  }

  lemma {:induction false} BelowTotal(a: string, b: string)
    ensures Below(a, b) || Below(b, a)
    decreases |a|
  {
    if a != [] && b != [] && a[0] == b[0] {
      BelowTotal(a[1..], b[1..]);
    }
  }

  lemma {:induction false} BelowTransitive(a: string, b: string, c: string)
    requires Below(a, b) && Below(b, c)
    ensures Below(a, c)
    decreases |a|
  {
    if a != [] && a[0] == b[0] && b[0] == c[0] {
      BelowTransitive(a[1..], b[1..], c[1..]);
    }
  }

  /** Ordinal order is antisymmetric, so sorting strings leaves no freedom up to equality. */
  lemma {:induction false} BelowAntisymmetric(a: string, b: string)
    requires Below(a, b) && Below(b, a)
    ensures a == b
    decreases |a|
  {
    if a != [] {
      BelowAntisymmetric(a[1..], b[1..]);
      assert a == [a[0]] + a[1..] && b == [b[0]] + b[1..];
    }
  }

  /** Putting a name below every element of a sorted list in front keeps it sorted. */
  lemma {:induction false} PrependSorted(y: string, t: seq<string>)
    requires Sorted(t)
    requires forall z :: z in multiset(t) ==> Below(y, z)
    ensures Sorted([y] + t)
  {
    forall i, j | 0 <= i < j < |[y] + t| ensures Below(([y] + t)[i], ([y] + t)[j]) {
      assert ([y] + t)[j] == t[j - 1];
      if i == 0 {
        assert t[j - 1] in multiset(t);
      } else {
        assert ([y] + t)[i] == t[i - 1];
      }
    }
  }

  lemma HeadBounds(x: string, s: seq<string>)
    requires Sorted(s) && s != [] && Below(x, s[0])
    ensures forall z :: z in multiset(s) ==> Below(x, z)
  {
    forall z | z in multiset(s) ensures Below(x, z) {
      var j :| 0 <= j < |s| && s[j] == z;
      if j > 0 { BelowTransitive(x, s[0], s[j]); }
    }
  }

  lemma TailBounds(s: seq<string>)
    requires Sorted(s) && s != []
    ensures forall z :: z in multiset(s[1..]) ==> Below(s[0], z)
  {
    forall z | z in multiset(s[1..]) ensures Below(s[0], z) {
      var j :| 0 <= j < |s[1..]| && s[1..][j] == z;
      assert s[j + 1] == z;
    }
  }

  function Insert(x: string, s: seq<string>): (r: seq<string>)
    requires Sorted(s)
    ensures Sorted(r)
    ensures multiset(r) == multiset(s) + multiset{x}
  {
    if s == [] then [x]
    else if Below(x, s[0]) then
      HeadBounds(x, s);
      PrependSorted(x, s);
      [x] + s
    else
      BelowTotal(x, s[0]);
      TailBounds(s);
      var t := Insert(x, s[1..]);
      assert s == [s[0]] + s[1..];
      PrependSorted(s[0], t);
      [s[0]] + t
  }

  /** The masters in ascending ordinal order: a sorted permutation of the input. */
  function Order(s: seq<string>): (r: seq<string>)
    ensures Sorted(r)
    ensures multiset(r) == multiset(s)
  {
    if s == [] then []
    else
      assert s == [s[0]] + s[1..];
      Insert(s[0], Order(s[1..]))
  }

  lemma {:induction false} BelowReflexive(a: string)
    ensures Below(a, a)
    decreases |a|
  {
    if a != [] {
      BelowReflexive(a[1..]);
    }
  }

  /** Two sorted arrangements of the same names start with the same name. */
  lemma SortedHeads(a: seq<string>, b: seq<string>)
    requires Sorted(a) && Sorted(b) && multiset(a) == multiset(b) && a != [] && b != []
    ensures a[0] == b[0]
  {
    assert b[0] in multiset(a) && a[0] in multiset(b);
    var i :| 0 <= i < |a| && a[i] == b[0];
    var j :| 0 <= j < |b| && b[j] == a[0];
    BelowReflexive(a[0]);
    BelowReflexive(b[0]);
    assert Below(a[0], b[0]) by { if i > 0 { assert Below(a[0], a[i]); } }
    assert Below(b[0], a[0]) by { if j > 0 { assert Below(b[0], b[j]); } }
    BelowAntisymmetric(a[0], b[0]);
  }

  lemma SameTails(a: seq<string>, b: seq<string>)
    requires multiset(a) == multiset(b) && a != [] && b != [] && a[0] == b[0]
    ensures multiset(a[1..]) == multiset(b[1..])
  {
    assert a == [a[0]] + a[1..] && b == [b[0]] + b[1..];
    assert multiset(a[1..]) == multiset(a) - multiset{a[0]};
    assert multiset(b[1..]) == multiset(b) - multiset{b[0]};
  }

  /** Two sorted arrangements of the same names are the same sequence. */
  lemma {:induction false} SortedUnique(a: seq<string>, b: seq<string>)
    requires Sorted(a) && Sorted(b) && multiset(a) == multiset(b)
    ensures a == b
    decreases |a|
  {
    assert |a| == |multiset(a)| == |multiset(b)| == |b|;
    if a != [] {
      SortedHeads(a, b);
      SameTails(a, b);
      SortedUnique(a[1..], b[1..]);
      assert a == [a[0]] + a[1..] && b == [b[0]] + b[1..];
    }
  }

  /** Order is the only sorted permutation: any sorted rearrangement of the masters is Order's result. */
  lemma OrderIsTheSortedPermutation(s: seq<string>, t: seq<string>)
    requires Sorted(t) && multiset(t) == multiset(s)
    ensures t == Order(s)
  {
    SortedUnique(t, Order(s));
  }

  /** The masters "b.esm", "a.esm", "c.esm" are visited as "a.esm", "b.esm", "c.esm". */
  lemma OrderExample()
    ensures Order(["b.esm", "a.esm", "c.esm"]) == ["a.esm", "b.esm", "c.esm"]
  {
    var t := ["a.esm", "b.esm", "c.esm"];
    assert Below(t[0], t[1]) && Below(t[1], t[2]) && Below(t[0], t[2]);
    assert multiset(t) == multiset(["b.esm", "a.esm", "c.esm"]);
    OrderIsTheSortedPermutation(["b.esm", "a.esm", "c.esm"], t);
  }
}
