/** The order of directory names, and sorting by it. */
module Names {

  /** Strictly before, compared character by character. */
  predicate Below(a: string, b: string) {
    b != "" && (a == "" || a[0] < b[0] || (a[0] == b[0] && Below(a[1..], b[1..])))
  }

  lemma {:induction false} BelowTransitive(a: string, b: string, c: string)
    requires Below(a, b) && Below(b, c)
    ensures Below(a, c)
    decreases |a|
  {
    if a != "" && a[0] == b[0] == c[0] {
      BelowTransitive(a[1..], b[1..], c[1..]);
    }
  }

  lemma {:induction false} BelowTotal(a: string, b: string)
    ensures Below(a, b) || a == b || Below(b, a)
    ensures !(Below(a, b) && Below(b, a)) && !Below(a, a)
    decreases |a| + |b|
  {
    BelowIrreflexive(a);
    if a != "" && b != "" && a[0] == b[0] {
      BelowTotal(a[1..], b[1..]);
      assert a == [a[0]] + a[1..] && b == [b[0]] + b[1..];
    }
  }

  lemma {:induction false} BelowIrreflexive(a: string)
    ensures !Below(a, a)
  {
    if a != "" {
      BelowIrreflexive(a[1..]);
    }
  }

  /** The names part at some place, where one ends or has the lower character. */
  lemma {:induction false} BelowExactly(a: string, b: string)
    ensures Below(a, b) <==> exists k :: PartAt(a, b, k)
    decreases |a|
  {
    if a != "" && b != "" && a[0] == b[0] {
      BelowExactly(a[1..], b[1..]);
      if k :| PartAt(a[1..], b[1..], k) {
        assert a[..k + 1] == [a[0]] + a[1..][..k] && b[..k + 1] == [b[0]] + b[1..][..k];
        assert PartAt(a, b, k + 1);
      }
      if k :| PartAt(a, b, k) {
        assert k > 0;
        assert a[1..][..k - 1] == a[..k][1..] && b[1..][..k - 1] == b[..k][1..];
        assert PartAt(a[1..], b[1..], k - 1);
      }
    } else if Below(a, b) {
      assert a[..0] == b[..0];
      assert PartAt(a, b, 0);
    } else if k :| PartAt(a, b, k) {
      SameHead(a, b, k);
    }
  }

  lemma SameHead(a: string, b: string, k: int)
    requires PartAt(a, b, k)
    ensures k > 0 ==> a != "" && b != "" && a[0] == b[0]
  {
    if k > 0 {
      assert a[..k][0] == b[..k][0];
    }
  }

  predicate PartAt(a: string, b: string, k: int) {
    0 <= k <= |a| && k < |b| && a[..k] == b[..k] && (k == |a| || a[k] < b[k])
  }

  predicate Sorted(s: seq<string>) {
    forall i, j :: 0 <= i < j < |s| ==> Below(s[i], s[j])
  }

  function Members(s: seq<string>): set<string> {
    set x | x in s
  }

  function Insert(s: seq<string>, x: string): seq<string> {
    if s == [] || Below(x, s[0]) then [x] + s else [s[0]] + Insert(s[1..], x)
  }

  lemma {:induction false} InsertSorts(s: seq<string>, x: string)
    requires Sorted(s) && x !in s
    ensures Sorted(Insert(s, x)) && Members(Insert(s, x)) == Members(s) + {x}
  {
    if s == [] {
      assert Insert(s, x) == [x];
    } else if Below(x, s[0]) {
      HeadSorts(x, s);
    } else {
      BelowTotal(x, s[0]);
      InsertSorts(s[1..], x);
      var rest := Insert(s[1..], x);
      forall y | y in rest ensures Below(s[0], y) {
        assert y in Members(rest) && (y in Members(s[1..]) || y == x);
      }
      HeadOfAll(s[0], rest);
      assert Members(s) == {s[0]} + Members(s[1..]);
    }
  }

  lemma HeadSorts(x: string, s: seq<string>)
    requires Sorted(s) && s != [] && Below(x, s[0])
    ensures Sorted([x] + s) && Members([x] + s) == Members(s) + {x}
  {
    forall y | y in s ensures Below(x, y) {
      if y != s[0] { BelowTransitive(x, s[0], y); }
    }
    HeadOfAll(x, s);
  }

  lemma HeadOfAll(x: string, s: seq<string>)
    requires Sorted(s) && forall y :: y in s ==> Below(x, y)
    ensures Sorted([x] + s) && Members([x] + s) == Members(s) + {x}
  {
    assert forall y :: y in [x] + s <==> y == x || y in s;
  }

  /** A set of names has one sorted listing. */
  lemma {:induction false} SortedUnique(s: seq<string>, t: seq<string>)
    requires Sorted(s) && Sorted(t) && Members(s) == Members(t)
    ensures s == t
    decreases |s|
  {
    NoMembers(s);
    NoMembers(t);
    if s != [] && t != [] {
      FirstIsLeast(s, t[0]);
      FirstIsLeast(t, s[0]);
      BelowTotal(s[0], t[0]);
      TailMembers(s);
      TailMembers(t);
      SortedUnique(s[1..], t[1..]);
      assert s == [s[0]] + s[1..] && t == [t[0]] + t[1..];
    }
  }

  lemma NoMembers(s: seq<string>)
    ensures Members(s) == {} <==> s == []
    ensures s != [] ==> s[0] in Members(s)
  {
    if s != [] {
      assert s[0] in Members(s);
    }
  }

  lemma FirstIsLeast(s: seq<string>, x: string)
    requires Sorted(s) && x in Members(s)
    ensures s != [] && (x == s[0] || Below(s[0], x))
  {
  }

  lemma TailMembers(s: seq<string>)
    requires Sorted(s) && s != []
    ensures Sorted(s[1..]) && Members(s[1..]) == Members(s) - {s[0]}
  {
    BelowIrreflexive(s[0]);
    assert forall y :: y in s[1..] ==> Below(s[0], y);
    forall y | y in Members(s) - {s[0]} ensures y in s[1..] {
      var i :| 0 <= i < |s| && s[i] == y;
      assert s[1..][i - 1] == y;
    }
  }

  /** The sorted listing of a set. */
  ghost function Ordered(names: set<string>): (s: seq<string>)
    ensures Sorted(s) && Members(s) == names && |s| == |names|
    decreases |names|
  {
    if names == {} then []
    else
      var x :| x in names;
      var s := Ordered(names - {x});
      InsertSorts(s, x);
      InsertLength(s, x);
      Insert(s, x)
  }

  lemma {:induction false} InsertLength(s: seq<string>, x: string)
    ensures |Insert(s, x)| == |s| + 1
  {
    if s != [] && !Below(x, s[0]) {
      InsertLength(s[1..], x);
    }
  }

  /** Sorts distinct names by insertion. */
  method SortNames(names: seq<string>) returns (s: seq<string>)
    requires forall i, j :: 0 <= i < j < |names| ==> names[i] != names[j]
    ensures s == Ordered(Members(names))
  {
    s := [];
    for i := 0 to |names|
      invariant Sorted(s) && Members(s) == Members(names[..i])
    {
      assert names[..i + 1] == names[..i] + [names[i]];
      assert names[i] !in Members(names[..i]);
      InsertSorts(s, names[i]);
      s := Insert(s, names[i]);
    }
    assert names[..|names|] == names;
    SortedUnique(s, Ordered(Members(names)));
  }
}
