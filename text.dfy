/** The few Python string operations the debate engine relies on, stated over
    `string` (a sequence of characters): substring search (`p in s`),
    `str.lower()` restricted to ASCII, the word count of `str.split()`,
    the prefix slice `s[:n]`, `sep.join(parts)` and `str(n)` for integers. */
module Text {

  /** `s` starts with `p`. */
  predicate IsPrefix(p: string, s: string) {
    |p| <= |s| && s[..|p|] == p
  }

  /** Python's `p in s`: `p` occurs in `s` at some position. */
  predicate Contains(s: string, p: string)
    decreases |s|
  {
    IsPrefix(p, s) || (|s| > 0 && Contains(s[1..], p))
  }

  /** An occurrence at a known position is found by the search. */
  lemma {:induction false} ContainsAt(s: string, p: string, i: nat)
    requires i + |p| <= |s| && s[i..i + |p|] == p
    ensures Contains(s, p)
    decreases i
  {
    if i > 0 {
      assert s[1..][i - 1..i - 1 + |p|] == s[i..i + |p|];
      ContainsAt(s[1..], p, i - 1);
    }
  }

  /** Whatever the search finds occurs at some position. */
  lemma {:induction false} ContainsWitness(s: string, p: string) returns (i: nat)
    requires Contains(s, p)
    ensures i + |p| <= |s| && s[i..i + |p|] == p
    decreases |s|
  {
    if IsPrefix(p, s) {
      i := 0;
    } else {
      var j := ContainsWitness(s[1..], p);
      assert s[1..][j..j + |p|] == s[j + 1..j + 1 + |p|];
      i := j + 1;
    }
  }

  /** An occurrence survives whatever text is put before or after it. */
  lemma ContainsInContext(a: string, x: string, b: string, p: string)
    requires Contains(x, p)
    ensures Contains(a + x + b, p)
  {
    var i := ContainsWitness(x, p);
    assert (a + x + b)[|a| + i..|a| + i + |p|] == x[i..i + |p|];
    ContainsAt(a + x + b, p, |a| + i);
  }

  /** Appending text never removes an occurrence. */
  lemma ContainsAppend(s: string, u: string, p: string)
    requires Contains(s, p)
    ensures Contains(s + u, p)
  {
    ContainsInContext([], s, u, p);
    assert [] + s + u == s + u;
  }

  /** An occurrence inside an occurrence is an occurrence. */
  lemma ContainsTrans(s: string, x: string, p: string)
    requires Contains(s, x) && Contains(x, p)
    ensures Contains(s, p)
  {
    var i := ContainsWitness(s, x);
    var j := ContainsWitness(x, p);
    forall m | 0 <= m < |p|
      ensures s[i + j + m] == p[m]
    {
      assert s[i + j + m] == s[i..i + |x|][j + m] == x[j..j + |p|][m];
    }
    assert s[i + j..i + j + |p|] == p;
    ContainsAt(s, p, i + j);
  }

  /** Every string occurs in itself. */
  lemma ContainsSelf(p: string)
    ensures Contains(p, p)
  {
    ContainsAt(p, p, 0);
  }

  /** `str.lower()` on one character, for ASCII letters. */
  function LowerChar(c: char): char {
    if 'A' <= c <= 'Z' then (c as int + 32) as char else c
  }

  /** `str.lower()`, character by character. */
  function Lower(s: string): string {
    seq(|s|, i requires 0 <= i < |s| => LowerChar(s[i]))
  }

  lemma LowerAppend(s: string, u: string)
    ensures Lower(s + u) == Lower(s) + Lower(u)
  {
  }

  /** The characters Python's `str.isspace()` accepts, which are the
      separators of `str.split()` without arguments. */
  predicate IsSpace(c: char) {
    c == ' ' || '\t' <= c <= '\r' || '\U{001c}' <= c <= '\U{001f}'
    || c == '\U{0085}' || c == '\U{00a0}' || c == '\U{1680}'
    || '\U{2000}' <= c <= '\U{200a}' || c == '\U{2028}' || c == '\U{2029}'
    || c == '\U{202f}' || c == '\U{205f}' || c == '\U{3000}'
  }

  /** Lowering a character never turns it into, or out of, a separator. */
  lemma LowerKeepsSpaces(c: char)
    ensures IsSpace(LowerChar(c)) == IsSpace(c)
  {
  }

  /** Position `i` of `s` opens a word: a non-separator that is first or follows a separator. */
  predicate StartsWord(s: string, i: nat)
    requires i < |s|
  {
    !IsSpace(s[i]) && (i == 0 || IsSpace(s[i - 1]))
  }

  /** `len(s.split())`: the number of maximal runs of non-separators. */
  function WordCount(s: string): nat
    decreases |s|
  {
    if |s| == 0 then 0
    else WordCount(s[..|s| - 1]) + (if StartsWord(s, |s| - 1) then 1 else 0)
  }

  /** Two strings with separators at the same positions split into as many words. */
  lemma {:induction false} WordCountBySpaces(s: string, t: string)
    requires |s| == |t|
    requires forall i | 0 <= i < |s| :: IsSpace(s[i]) == IsSpace(t[i])
    ensures WordCount(s) == WordCount(t)
    decreases |s|
  {
    if |s| > 0 {
      WordCountBySpaces(s[..|s| - 1], t[..|t| - 1]);
    }
  }

  /** Appending text never lowers the word count. */
  lemma {:induction false} WordCountAppend(s: string, u: string)
    ensures WordCount(s) <= WordCount(s + u)
    decreases |u|
  {
    if |u| > 0 {
      var u' := u[..|u| - 1];
      assert (s + u)[..|s + u| - 1] == s + u';
      WordCountAppend(s, u');
    } else {
      assert s + u == s;
    }
  }

  /** Python's `s[:n]` for `n >= 0`. */
  function Take(s: string, n: nat): (r: string)
    ensures |r| <= n && IsPrefix(r, s)
    ensures |s| <= n ==> r == s
    ensures |s| > n ==> |r| == n
  {
    if |s| <= n then s else s[..n]
  }

  /** Python's `sep.join(parts)`. */
  function Join(parts: seq<string>, sep: string): string
    decreases |parts|
  {
    if |parts| == 0 then ""
    else if |parts| == 1 then parts[0]
    else parts[0] + sep + Join(parts[1..], sep)
  }

  /** Every part can be found in the joined text. */
  lemma {:induction false} JoinContainsPart(parts: seq<string>, sep: string, k: nat)
    requires k < |parts|
    ensures Contains(Join(parts, sep), parts[k])
    decreases |parts|
  {
    if |parts| == 1 {
      ContainsSelf(parts[0]);
    } else if k == 0 {
      ContainsSelf(parts[0]);
      ContainsAppend(parts[0], sep + Join(parts[1..], sep), parts[0]);
      assert parts[0] + sep + Join(parts[1..], sep) == parts[0] + (sep + Join(parts[1..], sep));
    } else {
      JoinContainsPart(parts[1..], sep, k - 1);
      ContainsInContext(parts[0] + sep, Join(parts[1..], sep), "", parts[k]);
      assert parts[0] + sep + Join(parts[1..], sep) + "" == Join(parts, sep);
    }
  }

  predicate IsDigit(c: char) {
    '0' <= c <= '9'
  }

  /** One decimal digit. */
  function Digit(d: nat): (c: char)
    requires d < 10
    ensures IsDigit(c) && c as int - '0' as int == d
  {
    ('0' as int + d) as char
  }

  /** The number a string of decimal digits denotes. */
  function DecimalValue(s: string): nat
    requires forall i | 0 <= i < |s| :: IsDigit(s[i])
    decreases |s|
  {
    if |s| == 0 then 0
    else
      assert IsDigit(s[|s| - 1]);
      DecimalValue(s[..|s| - 1]) * 10 + (s[|s| - 1] as int - '0' as int)
  }

  /** Python's `str(n)` for `n >= 0`: decimal digits, with no leading zero
      except for `0` itself. */
  function NatToString(n: nat): (r: string)
    ensures |r| > 0 && forall i | 0 <= i < |r| :: IsDigit(r[i])
    ensures r[0] == '0' <==> n == 0
    decreases n
  {
    if n < 10 then [Digit(n)] else NatToString(n / 10) + [Digit(n % 10)]
  }

  /** The digits denote `n` again. */
  lemma {:induction false} NatToStringValue(n: nat)
    ensures DecimalValue(NatToString(n)) == n
    decreases n
  {
    var r := NatToString(n);
    if n < 10 {
      assert r[..|r| - 1] == [];
    } else {
      NatToStringValue(n / 10);
      assert r[..|r| - 1] == NatToString(n / 10);
    }
  }

  /** Python's `str(n)`: a `-` exactly for negative numbers, then the digits. */
  function IntToString(n: int): (r: string)
    ensures |r| > 0 && (r[0] == '-' <==> n < 0)
  {
    if n < 0 then "-" + NatToString(-n) else NatToString(n)
  }

  /** The text of `str(n)` gives back `n`: its sign, then digits denoting `|n|`. */
  lemma IntToStringValue(n: int)
    ensures n >= 0 ==> IntToString(n) == NatToString(n) && DecimalValue(NatToString(n)) == n
    ensures n < 0 ==> IntToString(n)[1..] == NatToString(-n) && DecimalValue(NatToString(-n)) == -n
  {
    if n < 0 {
      NatToStringValue(-n);
      assert ("-" + NatToString(-n))[1..] == NatToString(-n);
    } else {
      NatToStringValue(n);
    }
  }
}
