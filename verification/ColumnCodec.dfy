/** Spreadsheet column letters: bijective base 26 between indices and non-empty A-Z strings. */
module ColumnCodec {

  predicate IsUpper(c: char) { 'A' <= c <= 'Z' }

  predicate IsColumn(s: string) { s != "" && forall i :: 0 <= i < |s| ==> IsUpper(s[i]) }

  /** Letters of a one-based column number; zero is the empty string. */
  function Letters(n: nat): string {
    if n == 0 then "" else Letters((n - 1) / 26) + [(65 + (n - 1) % 26) as char]
  }

  /** Positional value of a string, A counting 1; defined for every string. */
  function Value(s: string): int {
    if s == "" then 0 else Value(s[..|s| - 1]) * 26 + (s[|s| - 1] as int - 64)
  }

  method ColumnLetter(index: nat) returns (letters: string)
    ensures letters == Letters(index + 1)
  {
    letters := "";
    var n: nat := index + 1;
    while n > 0
      invariant Letters(n) + letters == Letters(index + 1)
    {
      var rem := (n - 1) % 26;
      letters := [(65 + rem) as char] + letters;
      n := (n - 1) / 26;
    }
  }

  method ColumnIndex(letters: string) returns (index: int)
    ensures index == Value(letters) - 1
  {
    var n := 0;
    for i := 0 to |letters|
      invariant n == Value(letters[..i])
    {
      assert letters[..i + 1][..i] == letters[..i];
      n := n * 26 + (letters[i] as int - 64);
    }
    assert letters[..|letters|] == letters;
    index := n - 1;
  }

  lemma AppendLetter(front: string, d: nat)
    requires d < 26 && (front == "" || IsColumn(front))
    ensures IsColumn(front + [(65 + d) as char])
    ensures Value(front + [(65 + d) as char]) == Value(front) * 26 + d + 1
  {
    var s := front + [(65 + d) as char];
    assert s[..|s| - 1] == front;
    forall i | 0 <= i < |s| ensures IsUpper(s[i]) {
      if i < |front| { assert s[i] == front[i]; }
    }
  }

  /** Every index has a proper column name, and reading the name gives the index back. */
  lemma {:induction false} IndexRoundTrip(n: nat)
    ensures Value(Letters(n)) == n
    ensures n > 0 ==> IsColumn(Letters(n))
  {
    if n > 0 {
      var m, d := (n - 1) / 26, (n - 1) % 26;
      IndexRoundTrip(m);
      AppendLetter(Letters(m), d);
      assert Letters(n) == Letters(m) + [(65 + d) as char];
      assert m * 26 + d == n - 1;
    }
  }

  /** Every non-empty A-Z string is the name of the index it reads as. */
  lemma {:induction false} NameRoundTrip(s: string)
    requires forall i :: 0 <= i < |s| ==> IsUpper(s[i])
    ensures Value(s) >= 0 && (s != "" ==> Value(s) > 0)
    ensures Letters(Value(s)) == s
  {
    if s != "" {
      var front, d := s[..|s| - 1], s[|s| - 1] as int - 64;
      NameRoundTrip(front);
      assert IsUpper(s[|s| - 1]) && 1 <= d <= 26;
      assert (Value(s) - 1) / 26 == Value(front) && (Value(s) - 1) % 26 == d - 1;
      assert s == front + [s[|s| - 1]];
    }
  }

  /** Letter order: shorter names first, equal lengths lexicographically. */
  ghost predicate Before(s: string, t: string) {
    |s| < |t| || (|s| == |t| && exists k :: 0 <= k < |s| && s[..k] == t[..k] && s[k] < t[k])
  }

  lemma {:induction false} ShorterIsSmaller(s: string, t: string)
    requires forall i :: 0 <= i < |s| ==> IsUpper(s[i])
    requires forall i :: 0 <= i < |t| ==> IsUpper(t[i])
    requires |s| < |t|
    ensures Value(s) < Value(t)
  {
    NameRoundTrip(t);
    if s != "" {
      ShorterIsSmaller(s[..|s| - 1], t[..|t| - 1]);
      assert IsUpper(s[|s| - 1]) && IsUpper(t[|t| - 1]);
    }
  }

  lemma {:induction false} LexIsSmaller(s: string, t: string, k: nat)
    requires forall i :: 0 <= i < |s| ==> IsUpper(s[i])
    requires forall i :: 0 <= i < |t| ==> IsUpper(t[i])
    requires |s| == |t| && k < |s| && s[..k] == t[..k] && s[k] < t[k]
    ensures Value(s) < Value(t)
  {
    var n := |s| - 1;
    assert IsUpper(s[n]) && IsUpper(t[n]);
    if k < n {
      assert s[..n][..k] == s[..k] && t[..n][..k] == t[..k];
      LexIsSmaller(s[..n], t[..n], k);
    }
  }

  lemma {:induction false} FirstDifference(s: string, t: string) returns (k: nat)
    requires |s| == |t| && s != t
    ensures k < |s| && s[..k] == t[..k] && s[k] != t[k]
  {
    var n := |s| - 1;
    if s[..n] == t[..n] {
      k := n;
    } else {
      k := FirstDifference(s[..n], t[..n]);
      assert s[..k] == s[..n][..k] && t[..k] == t[..n][..k];
    }
  }

  /** Letter order matches index order, in both directions. */
  lemma LetterOrderIsIndexOrder(m: nat, n: nat)
    requires m > 0 && n > 0
    ensures Before(Letters(m), Letters(n)) <==> m < n
  {
    var s, t := Letters(m), Letters(n);
    IndexRoundTrip(m);
    IndexRoundTrip(n);
    if |s| < |t| { ShorterIsSmaller(s, t); }
    if |t| < |s| { ShorterIsSmaller(t, s); }
    if |s| == |t| && s != t {
      var k := FirstDifference(s, t);
      if s[k] < t[k] { LexIsSmaller(s, t, k); } else { LexIsSmaller(t, s, k); }
      if Before(s, t) {
        var j :| 0 <= j < |s| && s[..j] == t[..j] && s[j] < t[j];
        LexIsSmaller(s, t, j);
      }
    }
  }
}
