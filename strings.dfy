/** Python string operations the backend relies on: `in`, `str.find`,
    `str.split` with a one-character separator, `str.join`, and `str(n)`. */
module Strings {

  /** `t` occurs in `s` starting at index `i`. */
  predicate OccursAt(s: string, t: string, i: nat) {
    i + |t| <= |s| && s[i..i + |t|] == t
  }

  /** Python's `t in s`. */
  predicate Contains(s: string, t: string) {
    exists i | 0 <= i <= |s| :: OccursAt(s, t, i)
  }

  /** Python's `s.startswith(p)`. */
  predicate StartsWith(s: string, p: string) {
    p <= s
  }

  /** The scan behind `str.find`, starting at index `i`. */
  function FindFrom(s: string, t: string, i: nat): (r: int)
    requires i <= |s|
    ensures r == -1 || (i <= r <= |s| && OccursAt(s, t, r))
    ensures forall j | i <= j <= |s| && (r == -1 || j < r) :: !OccursAt(s, t, j)
    decreases |s| - i
  {
    if OccursAt(s, t, i) then i
    else if i == |s| then -1
    else FindFrom(s, t, i + 1)
  }

  /** Python's `s.find(t)`: the first index where `t` occurs, or -1. */
  function Find(s: string, t: string): (r: int)
    ensures r == -1 <==> !Contains(s, t)
    ensures r >= 0 ==> r <= |s| && OccursAt(s, t, r)
    ensures r >= 0 ==> forall j | 0 <= j < r :: !OccursAt(s, t, j)
  {
    FindFrom(s, t, 0)
  }

  lemma ContainsAt(s: string, t: string, i: nat)
    requires OccursAt(s, t, i)
    ensures Contains(s, t)
  {
  }

  /** An occurrence inside `b` is an occurrence inside `a + b`, shifted by `|a|`. */
  lemma OccursAfter(a: string, b: string, t: string, i: nat)
    requires OccursAt(b, t, i)
    ensures OccursAt(a + b, t, |a| + i)
  {
    assert (a + b)[|a| + i..|a| + i + |t|] == b[i..i + |t|];
  }

  /** An occurrence inside `a` is an occurrence inside `a + b` at the same index. */
  lemma OccursBefore(a: string, b: string, t: string, i: nat)
    requires OccursAt(a, t, i)
    ensures OccursAt(a + b, t, i)
  {
    assert (a + b)[i..i + |t|] == a[i..i + |t|];
  }

  /** A string contains itself at its start. */
  lemma OccursAtStart(t: string, rest: string)
    ensures OccursAt(t + rest, t, 0)
  {
    assert (t + rest)[..|t|] == t;
  }

  lemma OccursSelf(t: string)
    ensures OccursAt(t, t, 0)
  {
    assert t[0..|t|] == t;
  }

  /** `a + t` holds `t` right after `a`. */
  lemma OccursAppended(a: string, t: string)
    ensures OccursAt(a + t, t, |a|)
  {
    OccursSelf(t);
    OccursAfter(a, t, t, 0);
  }

  /** An occurrence inside an occurrence is an occurrence, the offsets added. */
  lemma OccursWithin(s: string, t: string, i: nat, u: string, j: nat)
    requires OccursAt(s, t, i) && OccursAt(t, u, j)
    ensures OccursAt(s, u, i + j)
  {
    forall m | 0 <= m < |u|
      ensures s[i + j + m] == u[m]
    {
      assert u[m] == t[j + m];
      assert t[j + m] == s[i..i + |t|][j + m];
    }
    assert s[i + j..i + j + |u|] == u;
  }

  /** A prefix of an occurring string occurs at the same index. */
  lemma OccursPrefix(s: string, t: string, i: nat, k: nat)
    requires OccursAt(s, t, i) && k <= |t|
    ensures OccursAt(s, t[..k], i)
  {
    assert t[0..k] == t[..k];
    OccursWithin(s, t, i, t[..k], 0);
  }

  lemma Assoc(a: string, b: string, c: string)
    ensures (a + b) + c == a + (b + c)
  {
  }

  /** An occurrence at or after index `k` survives dropping the first `k` characters. */
  lemma OccursInSuffix(s: string, t: string, k: nat, i: nat)
    requires k <= i && OccursAt(s, t, i)
    ensures OccursAt(s[k..], t, i - k)
  {
    assert s[k..][i - k..i - k + |t|] == s[i..i + |t|];
  }

  lemma ContainsRight(a: string, b: string, t: string)
    requires Contains(b, t)
    ensures Contains(a + b, t)
  {
    var i :| 0 <= i <= |b| && OccursAt(b, t, i);
    OccursAfter(a, b, t, i);
    ContainsAt(a + b, t, |a| + i);
  }

  /** Python's `s.split(sep)` for a one-character separator. */
  function Split(s: string, sep: char): (parts: seq<string>)
    ensures |parts| >= 1
  {
    if |s| == 0 then [""]
    else
      var rest := Split(s[1..], sep);
      if s[0] == sep then [""] + rest
      else [[s[0]] + rest[0]] + rest[1..]
  }

  /** A string without the separator splits into itself alone. */
  lemma {:induction false} SplitWhole(s: string, sep: char)
    requires sep !in s
    ensures Split(s, sep) == [s]
  {
    if |s| > 0 {
      assert sep !in s[1..];
      SplitWhole(s[1..], sep);
      assert [s[0]] + s[1..] == s;
    }
  }

  /** Splitting `a + sep + b`, where `a` holds no separator, yields `a` and then the pieces of `b`. */
  lemma {:induction false} SplitAtFirst(a: string, b: string, sep: char)
    requires sep !in a
    ensures Split(a + [sep] + b, sep) == [a] + Split(b, sep)
  {
    if |a| == 0 {
      assert a + [sep] + b == [sep] + b;
      assert ([sep] + b)[1..] == b;
    } else {
      assert (a + [sep] + b)[1..] == a[1..] + [sep] + b;
      assert sep !in a[1..];
      SplitAtFirst(a[1..], b, sep);
      assert [a[0]] + a[1..] == a;
    }
  }

  /** Python's `glue.join(parts)` for any glue string. */
  function JoinWith(parts: seq<string>, glue: string): string {
    if |parts| == 0 then ""
    else if |parts| == 1 then parts[0]
    else parts[0] + glue + JoinWith(parts[1..], glue)
  }

  function DigitChar(d: nat): char
    requires d < 10
  {
    "0123456789"[d]
  }

  /** Python's `str(n)` for a natural number. */
  function Decimal(n: nat): (r: string)
    ensures |r| >= 1
    ensures forall k | 0 <= k < |r| :: '0' <= r[k] <= '9'
  {
    if n < 10 then [DigitChar(n)] else Decimal(n / 10) + [DigitChar(n % 10)]
  }
}
