/// Group keys. Months and client ids are strings, and pandas' groupby and
/// Python's sorted() order them as Python compares str values: code point
/// by code point, a proper prefix first.
module Keys {

  /** Strict lexicographic order on strings. */
  predicate Below(a: string, b: string)
    decreases |a|
  {
    |b| > 0 && (|a| == 0 || a[0] < b[0] || (a[0] == b[0] && Below(a[1..], b[1..])))
  }

  lemma {:induction false} BelowIrreflexive(a: string)
    ensures !Below(a, a)
    decreases |a|
  {
    if |a| > 0 {
      BelowIrreflexive(a[1..]);
    }
  }

  lemma {:induction false} BelowTransitive(a: string, b: string, c: string)
    requires Below(a, b) && Below(b, c)
    ensures Below(a, c)
    decreases |a|
  {
    if |a| > 0 && a[0] == b[0] && b[0] == c[0] {
      BelowTransitive(a[1..], b[1..], c[1..]);
    }
  }

  lemma {:induction false} BelowTotal(a: string, b: string)
    ensures a == b || Below(a, b) || Below(b, a)
    decreases |a|
  {
    if |a| > 0 && |b| > 0 && a[0] == b[0] {
      BelowTotal(a[1..], b[1..]);
      assert a == [a[0]] + a[1..] && b == [b[0]] + b[1..];
    }
  }

  /** Strictly increasing, so also free of duplicates. */
  ghost predicate Ascending(s: seq<string>)
  {
    forall i, j :: 0 <= i < j < |s| ==> Below(s[i], s[j])
  }

  /** Strictly decreasing. */
  ghost predicate Descending(s: seq<string>)
  {
    forall i, j :: 0 <= i < j < |s| ==> Below(s[j], s[i])
  }

  predicate Distinct<T(==)>(s: seq<T>)
  {
    forall i, j :: 0 <= i < j < |s| ==> s[i] != s[j]
  }

  lemma AscendingDistinct(s: seq<string>)
    requires Ascending(s)
    ensures Distinct(s)
  {
    forall i, j | 0 <= i < j < |s|
      ensures s[i] != s[j]
    {
      BelowIrreflexive(s[i]);
    }
  }

  lemma BelowAllOfAscending(x: string, s: seq<string>)
    requires Ascending(s) && |s| > 0 && Below(x, s[0])
    ensures forall k :: k in s ==> Below(x, k)
  {
    forall j | 0 < j < |s|
      ensures Below(x, s[j])
    {
      BelowTransitive(x, s[0], s[j]);
    }
  }

  lemma PrependAscending(x: string, s: seq<string>)
    requires Ascending(s) && forall k :: k in s ==> Below(x, k)
    ensures Ascending([x] + s)
  {
    forall i, j | 0 <= i < j < |[x] + s|
      ensures Below(([x] + s)[i], ([x] + s)[j])
    {
      if i > 0 {
        assert ([x] + s)[i] == s[i - 1] && ([x] + s)[j] == s[j - 1];
      } else {
        assert ([x] + s)[j] in s;
      }
    }
  }

  lemma AppendAscending(s: seq<string>, x: string)
    requires Ascending(s) && forall k :: k in s ==> Below(k, x)
    ensures Ascending(s + [x])
  {
    forall i, j | 0 <= i < j < |s + [x]|
      ensures Below((s + [x])[i], (s + [x])[j])
    {
      assert (s + [x])[i] == s[i] && s[i] in s;
      if j < |s| {
        assert (s + [x])[j] == s[j];
      }
    }
  }

  /** The members of a non-empty sequence are those of all but its last
      element, and that last element. */
  lemma InitMembers<T>(s: seq<T>)
    requires |s| > 0
    ensures forall x :: x in s <==> x in s[..|s| - 1] || x == s[|s| - 1]
  {
    assert s == s[..|s| - 1] + [s[|s| - 1]];
  }

  lemma ConcatAssoc<T>(a: seq<T>, b: seq<T>, c: seq<T>)
    ensures (a + b) + c == a + (b + c)
  {
  }

  /** How often `x` occurs in `s`: in its head, then in its tail. */
  lemma HeadCount<T>(s: seq<T>, x: T)
    requires |s| > 0
    ensures multiset(s)[x] == multiset{s[0]}[x] + multiset(s[1..])[x]
  {
    assert s == [s[0]] + s[1..];
  }

  /** The elements of `xs` that `keep` accepts, in their order (a list
      comprehension with an `if`, or a `continue` in a loop). */
  function Filter<T(==,!new)>(xs: seq<T>, keep: T -> bool): (r: seq<T>)
    ensures |r| <= |xs|
    ensures forall x :: x in r <==> x in xs && keep(x)
    ensures (forall x :: x in xs ==> keep(x)) ==> r == xs
  {
    if |xs| == 0 then []
    else
      var init, last := xs[..|xs| - 1], xs[|xs| - 1];
      assert xs == init + [last];
      Filter(init, keep) + (if keep(last) then [last] else [])
  }

  lemma FilterAppend<T(!new)>(xs: seq<T>, x: T, keep: T -> bool)
    ensures Filter(xs + [x], keep) == Filter(xs, keep) + (if keep(x) then [x] else [])
  {
    assert (xs + [x])[..|xs + [x]| - 1] == xs;
  }

  /** One more element of `xs` looked at by a filtering loop. */
  lemma FilterPrefix<T(!new)>(xs: seq<T>, j: nat, keep: T -> bool)
    requires j < |xs|
    ensures Filter(xs[..j + 1], keep) == Filter(xs[..j], keep) + (if keep(xs[j]) then [xs[j]] else [])
  {
    assert xs[..j + 1] == xs[..j] + [xs[j]];
    FilterAppend(xs[..j], xs[j], keep);
  }

  /** Filtering keeps ascending keys ascending. */
  lemma {:induction false} FilterAscending(xs: seq<string>, keep: string -> bool)
    requires Ascending(xs)
    ensures Ascending(Filter(xs, keep))
    decreases |xs|
  {
    if |xs| > 0 {
      var init, last := xs[..|xs| - 1], xs[|xs| - 1];
      FilterAscending(init, keep);
      var r := Filter(init, keep);
      forall k | k in r
        ensures Below(k, last)
      {
        var i :| 0 <= i < |init| && init[i] == k;
        assert xs[i] == k;
      }
      AppendAscending(r, last);
    }
  }

  /** A filter that accepts nothing leaves nothing. */
  lemma {:induction false} FilterNone<T(!new)>(xs: seq<T>, keep: T -> bool)
    requires forall x :: x in xs ==> !keep(x)
    ensures Filter(xs, keep) == []
    decreases |xs|
  {
    if |xs| > 0 {
      var init := xs[..|xs| - 1];
      assert forall x :: x in init ==> x in xs;
      FilterNone(init, keep);
    }
  }

  /** Filtering keeps distinct elements distinct. */
  lemma {:induction false} FilterDistinct<T(!new)>(xs: seq<T>, keep: T -> bool)
    requires Distinct(xs)
    ensures Distinct(Filter(xs, keep))
    decreases |xs|
  {
    if |xs| > 0 {
      var init, last := xs[..|xs| - 1], xs[|xs| - 1];
      assert Distinct(init);
      FilterDistinct(init, keep);
      var r := Filter(init, keep);
      var r' := r + (if keep(last) then [last] else []);
      forall i, j | 0 <= i < j < |r'|
        ensures r'[i] != r'[j]
      {
        if j == |r| {
          assert r'[i] == r[i] && r[i] in r;
        }
      }
    }
  }

  /** `s` with `x` put in its place; nothing changes when `x` is there already. */
  function Insert(s: seq<string>, x: string): (r: seq<string>)
    requires Ascending(s)
    ensures Ascending(r)
    ensures forall k :: k in r <==> k in s || k == x
    decreases |s|
  {
    if |s| == 0 then [x]
    else if x == s[0] then s
    else if Below(x, s[0]) then
      BelowAllOfAscending(x, s);
      [x] + s
    else
      BelowTotal(x, s[0]);
      var t := Insert(s[1..], x);
      assert forall k :: k in s[1..] ==> Below(s[0], k);
      PrependAscending(s[0], t);
      [s[0]] + t
  }

  /** The distinct keys of `xs` in ascending order, as groupby iterates them. */
  function SortedKeys(xs: seq<string>): (r: seq<string>)
    ensures Ascending(r)
    ensures forall k :: k in r <==> k in xs
  {
    if |xs| == 0 then []
    else
      assert xs == xs[..|xs| - 1] + [xs[|xs| - 1]];
      Insert(SortedKeys(xs[..|xs| - 1]), xs[|xs| - 1])
  }

  function Reversed(s: seq<string>): (r: seq<string>)
    ensures |r| == |s|
    ensures forall i :: 0 <= i < |s| ==> r[i] == s[|s| - 1 - i]
  {
    if |s| == 0 then [] else Reversed(s[1..]) + [s[0]]
  }

  /** The distinct keys of `xs` in descending order: sorted(unique, reverse=True). */
  function DescendingKeys(xs: seq<string>): (r: seq<string>)
    ensures Descending(r)
    ensures forall k :: k in r <==> k in xs
  {
    var up := SortedKeys(xs);
    var r := Reversed(up);
    assert forall k :: k in r <==> k in up by {
      forall k | k in up ensures k in r {
        var i :| 0 <= i < |up| && up[i] == k;
        assert r[|up| - 1 - i] == k;
      }
    }
    r
  }
}
