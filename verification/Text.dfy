/** The string operations the models use, on ASCII text. */
module Text {

  function Lower(c: char): char {
    if 'A' <= c <= 'Z' then (c as int + 32) as char else c
  }

  function ToLower(s: string): string {
    seq(|s|, i requires 0 <= i < |s| => Lower(s[i]))
  }

  predicate Space(c: char) {
    c == ' ' || ('\t' <= c <= '\r')
  }

  /** The ASCII white space: tab, line feed, vertical tab, form feed, carriage return and space. */
  lemma SpaceExactly(c: char)
    ensures Space(c) <==> c as int in {9, 10, 11, 12, 13, 32}
  {
  }

  /** Letters are lower-cased, and nothing else changes. */
  lemma LowerExactly(c: char)
    ensures 65 <= c as int <= 90 ==> Lower(c) as int == c as int + 32
    ensures !(65 <= c as int <= 90) ==> Lower(c) == c
  {
  }

  function TrimLeft(s: string, cut: char -> bool): (r: string)
    ensures |r| <= |s|
  {
    if s != "" && cut(s[0]) then TrimLeft(s[1..], cut) else s
  }

  function TrimRight(s: string, cut: char -> bool): (r: string)
    ensures r <= s
  {
    if s != "" && cut(s[|s| - 1]) then TrimRight(s[..|s| - 1], cut) else s
  }

  function Trim(s: string, cut: char -> bool): string {
    TrimRight(TrimLeft(s, cut), cut)
  }

  function TrimSpace(s: string): string {
    Trim(s, Space)
  }

  /** Position of the last `c`, or -1. */
  function LastIndex(s: string, c: char): (i: int)
    ensures -1 <= i < |s|
    ensures i >= 0 ==> s[i] == c
    ensures forall k :: i < k < |s| ==> s[k] != c
  {
    if s == "" then -1
    else if s[|s| - 1] == c then |s| - 1
    else LastIndex(s[..|s| - 1], c)
  }

  /** Position of the first `c`, or -1. */
  function Index(s: string, c: char): (i: int)
    ensures -1 <= i < |s|
    ensures i >= 0 ==> s[i] == c
    ensures i < 0 ==> c !in s
    ensures forall k :: 0 <= k < i ==> s[k] != c
  {
    if s == "" then -1
    else if s[0] == c then 0
    else var i := Index(s[1..], c); if i < 0 then -1 else i + 1
  }

  function Count(s: string, c: char): nat {
    multiset(s)[c]
  }

  predicate Free(s: string, cut: char -> bool) {
    forall i :: 0 <= i < |s| ==> !cut(s[i])
  }

  predicate All(s: string, cut: char -> bool) {
    forall i :: 0 <= i < |s| ==> cut(s[i])
  }

  predicate Bare(s: string, cut: char -> bool) {
    s == "" || (!cut(s[0]) && !cut(s[|s| - 1]))
  }

  lemma {:induction false} TrimLeftPad(a: string, s: string, cut: char -> bool)
    requires All(a, cut) && (s == "" || !cut(s[0]))
    ensures TrimLeft(a + s, cut) == s
    decreases |a|
  {
    if a == "" {
      assert a + s == s;
    } else {
      assert (a + s)[1..] == a[1..] + s;
      TrimLeftPad(a[1..], s, cut);
    }
  }

  lemma {:induction false} TrimRightPad(s: string, b: string, cut: char -> bool)
    requires All(b, cut) && (s == "" || !cut(s[|s| - 1]))
    ensures TrimRight(s + b, cut) == s
    decreases |b|
  {
    if b == "" {
      assert s + b == s;
    } else {
      assert (s + b)[..|s + b| - 1] == s + b[..|b| - 1];
      TrimRightPad(s, b[..|b| - 1], cut);
    }
  }

  /** Trimming removes exactly the padding around what does not begin or end with it. */
  lemma TrimPad(a: string, s: string, b: string, cut: char -> bool)
    requires All(a, cut) && All(b, cut) && s != "" && Bare(s, cut)
    ensures Trim(a + s + b, cut) == s
  {
    assert a + s + b == a + (s + b);
    TrimLeftPad(a, s + b, cut);
    TrimRightPad(s, b, cut);
  }

  lemma {:induction false} TrimLeftIs(s: string, cut: char -> bool) returns (n: nat)
    ensures n <= |s| && TrimLeft(s, cut) == s[n..] && All(s[..n], cut)
    ensures TrimLeft(s, cut) == "" || !cut(TrimLeft(s, cut)[0])
    ensures n > 0 ==> cut(s[0])
  {
    if s != "" && cut(s[0]) {
      var m := TrimLeftIs(s[1..], cut);
      n := m + 1;
      assert s[..n] == [s[0]] + s[1..][..m];
    } else {
      n := 0;
    }
  }

  lemma {:induction false} TrimRightIs(s: string, cut: char -> bool)
    ensures TrimRight(s, cut) == "" || !cut(TrimRight(s, cut)[|TrimRight(s, cut)| - 1])
    ensures |TrimRight(s, cut)| < |s| ==> cut(s[|s| - 1])
  {
    if s != "" && cut(s[|s| - 1]) {
      TrimRightIs(s[..|s| - 1], cut);
    }
  }

  /** A trimmed string is a bare piece of the original, and the original itself only if that was bare. */
  lemma TrimIs(s: string, cut: char -> bool)
    ensures var r := Trim(s, cut);
            && Bare(r, cut) && |r| <= |s| && (r == s <==> Bare(s, cut))
            && (forall c :: c in r ==> c in s)
  {
    var n := TrimLeftIs(s, cut);
    var t := TrimLeft(s, cut);
    TrimRightIs(t, cut);
    forall c | c in Trim(s, cut) ensures c in s {
      var i :| 0 <= i < |Trim(s, cut)| && Trim(s, cut)[i] == c;
      assert t[i] == c && s[n + i] == c;
    }
  }

  /** Only a string of nothing but padding is trimmed to nothing. */
  lemma TrimmedAway(s: string, cut: char -> bool)
    ensures Trim(s, cut) == "" <==> All(s, cut)
  {
    var n := TrimLeftIs(s, cut);
    var t := TrimLeft(s, cut);
    TrimRightIs(t, cut);
    if Trim(s, cut) == "" {
      TrimRightEmpty(t, cut);
      assert s == s[..n] + t;
    }
    if All(s, cut) {
      assert All(s[n..], cut);
    }
  }

  lemma {:induction false} TrimRightEmpty(s: string, cut: char -> bool)
    requires TrimRight(s, cut) == ""
    ensures All(s, cut)
  {
    if s != "" {
      TrimRightEmpty(s[..|s| - 1], cut);
      assert forall i :: 0 <= i < |s| - 1 ==> s[..|s| - 1][i] == s[i];
    }
  }

  lemma TrimFree(s: string, cut: char -> bool)
    requires Free(s, cut)
    ensures Trim(s, cut) == s
  {
  }

  lemma LowerAppend(a: string, b: string)
    ensures ToLower(a + b) == ToLower(a) + ToLower(b)
  {
  }

  lemma CountAppend(a: string, b: string, c: char)
    ensures Count(a + b, c) == Count(a, c) + Count(b, c)
  {
  }

  lemma CountFree(s: string, c: char)
    ensures Count(s, c) == 0 <==> c !in s
  {
  }
}
