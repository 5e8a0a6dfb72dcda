/** String helpers with the meaning of the Python built-ins the pipeline uses:
    str(int), str.join, str.split() with no separator, str.rfind and the
    substring test `a in b`. */
module Strings {

  /** The characters Python 2's str.split() treats as whitespace. */
  predicate IsSpace(c: char) {
    c == ' ' || c == '\t' || c == '\n' || c == '\r' || c as int == 11 || c as int == 12
  }

  predicate NoSpace(s: string) {
    forall i :: 0 <= i < |s| ==> !IsSpace(s[i])
  }

  /** A word that survives str.split() unchanged: non-empty, no whitespace. */
  predicate IsWord(s: string) {
    |s| > 0 && NoSpace(s)
  }

  /** Every element of xs is a word. */
  predicate AllWords(xs: seq<string>) {
    forall k :: 0 <= k < |xs| ==> IsWord(xs[k])
  }

  lemma AllWordsConcat(a: seq<string>, b: seq<string>)
    requires AllWords(a) && AllWords(b)
    ensures AllWords(a + b)
  {
    assert forall k :: |a| <= k < |a + b| ==> (a + b)[k] == b[k - |a|];
  }

  /** The value of a decimal digit; other characters count as 0. */
  function DigitVal(c: char): nat {
    if '0' as int <= c as int <= '9' as int then c as int - '0' as int else 0
  }

  /** The number a string of decimal digits denotes, most significant first. */
  function DigitsValue(s: string): nat
    decreases |s|
  {
    if s == [] then 0 else 10 * DigitsValue(s[..|s| - 1]) + DigitVal(s[|s| - 1])
  }

  /** int(s) for an optional '-' followed by decimal digits. */
  function IntValue(s: string): int {
    if |s| > 0 && s[0] == '-' then -(DigitsValue(s[1..]) as int) else DigitsValue(s)
  }

  function DigitChar(d: nat): (c: char)
    requires d < 10
    ensures '0' <= c <= '9'
    ensures DigitVal(c) == d
  {
    ('0' as int + d) as char
  }

  /** str(n) for a non-negative integer: decimal digits, no leading zero,
      that read back as n. */
  function NatToStr(n: nat): (r: string)
    decreases n
    ensures |r| >= 1
    ensures forall i :: 0 <= i < |r| ==> '0' <= r[i] <= '9'
    ensures (r[0] == '0') == (n == 0)
    ensures n == 0 ==> r == "0"
  {
    if n < 10 then [DigitChar(n)] else NatToStr(n / 10) + [DigitChar(n % 10)]
  }

  /** int() reads the digits of str(n) back as n. */
  lemma {:induction false} NatToStrReadsBack(n: nat)
    ensures DigitsValue(NatToStr(n)) == n
    decreases n
  {
    var r := NatToStr(n);
    if n < 10 {
      assert r[..0] == [];
    } else {
      NatToStrReadsBack(n / 10);
      assert r[..|r| - 1] == NatToStr(n / 10);
    }
  }

  /** str(i) for any integer: a '-' sign before the digits of |i| when i is
      negative; int() reads it back as i. */
  function IntToStr(i: int): (r: string)
    ensures IsWord(r)
    ensures (r == "0") <==> (i == 0)
    ensures forall k :: 0 <= k < |r| ==> r[k] == '-' || '0' <= r[k] <= '9'
  {
    if i < 0 then "-" + NatToStr(-i) else NatToStr(i)
  }

  /** str(i) is the digits of |i|, after a '-' when i is negative, and int()
      reads it back as i. */
  lemma IntToStrReadsBack(i: int)
    ensures i >= 0 ==> IntToStr(i) == NatToStr(i)
    ensures i < 0 ==> IntToStr(i) == "-" + NatToStr(-i)
    ensures IntValue(IntToStr(i)) == i
  {
    if i < 0 {
      NatToStrReadsBack(-i);
      assert IntToStr(i)[1..] == NatToStr(-i);
    } else {
      NatToStrReadsBack(i);
    }
  }

  /** Distinct integers print differently. */
  lemma IntToStrInjective(i: int, j: int)
    requires IntToStr(i) == IntToStr(j)
    ensures i == j
  {
    IntToStrReadsBack(i);
    IntToStrReadsBack(j);
  }

  /** The position of the first c in s, or |s| when there is none. */
  function FirstIndex(s: string, c: char): (k: nat)
    decreases |s|
    ensures k <= |s|
    ensures forall j :: 0 <= j < k ==> s[j] != c
    ensures k < |s| ==> s[k] == c
  {
    if s == [] || s[0] == c then 0 else 1 + FirstIndex(s[1..], c)
  }

  /** s.split(c, 1)[0]: the text before the first c. */
  function Before(s: string, c: char): string {
    s[..FirstIndex(s, c)]
  }

  /** s.split(c, 1)[1]: the text after the first c; empty when there is none. */
  function After(s: string, c: char): string {
    var k := FirstIndex(s, c);
    if k < |s| then s[k + 1..] else []
  }

  /** Text without c, then c, then anything: splitting at the first c gives both parts back. */
  lemma {:induction false} SplitAtSeparator(a: string, c: char, b: string)
    requires c !in a
    ensures Before(a + [c] + b, c) == a
    ensures After(a + [c] + b, c) == b
  {
    var s := a + [c] + b;
    var k := FirstIndex(s, c);
    assert s[|a|] == c;
    assert forall j :: 0 <= j < |a| ==> s[j] == a[j];
    assert k == |a|;
    assert s[..|a|] == a;
    assert s[|a| + 1..] == b;
  }

  /** Two integers printed around a separator that is neither a digit nor
      '-' are read back from either side of the first separator. */
  lemma IntPairReadsBack(x: int, c: char, y: int)
    requires c != '-' && !('0' <= c <= '9')
    ensures var s := IntToStr(x) + [c] + IntToStr(y);
      IntValue(Before(s, c)) == x && IntValue(After(s, c)) == y
  {
    var a := IntToStr(x);
    assert forall k :: 0 <= k < |a| ==> a[k] != c;
    SplitAtSeparator(a, c, IntToStr(y));
    IntToStrReadsBack(x);
    IntToStrReadsBack(y);
  }

  /** sep.join(xs): empty for no elements, otherwise it begins with the first. */
  function Join(xs: seq<string>, sep: string): (r: string)
    decreases |xs|
    ensures |xs| == 0 ==> r == ""
    ensures |xs| >= 1 ==> xs[0] <= r
  {
    if |xs| == 0 then ""
    else if |xs| == 1 then xs[0]
    else
      var r := xs[0] + sep + Join(xs[1..], sep);
      assert r[..|xs[0]|] == xs[0];
      r
  }

  /** Length of the leading run of non-whitespace characters of s. */
  function WordLen(s: string): (n: nat)
    decreases |s|
    ensures n <= |s|
    ensures forall i :: 0 <= i < n ==> !IsSpace(s[i])
    ensures n < |s| ==> IsSpace(s[n])
  {
    if s == [] || IsSpace(s[0]) then 0 else 1 + WordLen(s[1..])
  }

  /** s.split(): the maximal runs of non-whitespace characters, in order. */
  function Split(s: string): (ws: seq<string>)
    decreases |s|
    ensures forall k :: 0 <= k < |ws| ==> IsWord(ws[k])
  {
    if s == [] then []
    else if IsSpace(s[0]) then Split(s[1..])
    else var n := WordLen(s); [s[..n]] + Split(s[n..])
  }

  /** s.rfind(c): the last index of c in s, or -1. */
  function RFind(s: string, c: char): (r: int)
    decreases |s|
    ensures -1 <= r < |s|
    ensures r == -1 <==> c !in s
    ensures r >= 0 ==> s[r] == c && c !in s[r + 1..]
  {
    if s == [] then -1
    else if s[|s| - 1] == c then |s| - 1
    else
      assert s == s[..|s| - 1] + [s[|s| - 1]];
      RFind(s[..|s| - 1], c)
  }

  /** No position past rfind holds c. */
  lemma RFindLast(s: string, c: char)
    ensures forall j :: RFind(s, c) < j < |s| ==> s[j] != c
  {
    var r := RFind(s, c);
    forall j | r < j < |s| ensures s[j] != c {
      assert s[j] == s[r + 1..][j - r - 1];
    }
  }

  /** Python's `sub in s` for strings. */
  predicate Contains(s: string, sub: string)
    decreases |s|
  {
    (|sub| <= |s| && s[..|sub|] == sub) || (|s| > 0 && Contains(s[1..], sub))
  }

  /** sub occurs in s at position i. */
  predicate OccursAt(s: string, sub: string, i: int) {
    0 <= i && i + |sub| <= |s| && s[i..i + |sub|] == sub
  }

  /** `sub in s` holds exactly when sub occurs at some position of s. */
  lemma {:induction false} ContainsIff(s: string, sub: string)
    decreases |s|
    ensures Contains(s, sub) <==> exists i :: OccursAt(s, sub, i)
  {
    if |sub| <= |s| && s[..|sub|] == sub {
      assert OccursAt(s, sub, 0);
    } else if |s| > 0 {
      ContainsIff(s[1..], sub);
      forall i | OccursAt(s, sub, i) ensures OccursAt(s[1..], sub, i - 1) {
        assert i != 0;
        assert s[1..][i - 1..i - 1 + |sub|] == s[i..i + |sub|];
      }
      forall i | OccursAt(s[1..], sub, i) ensures OccursAt(s, sub, i + 1) {
        assert s[i + 1..i + 1 + |sub|] == s[1..][i..i + |sub|];
      }
    }
  }

  /** A word followed by a whitespace character, or by nothing, is read back whole. */
  lemma {:induction false} WordLenOfWord(w: string, t: string)
    requires NoSpace(w)
    requires t == [] || IsSpace(t[0])
    ensures WordLen(w + t) == |w|
    decreases |w|
  {
    if w == [] {
      assert w + t == t;
    } else {
      assert (w + t)[1..] == w[1..] + t;
      WordLenOfWord(w[1..], t);
    }
  }

  /** Splitting a space-joined list of words gives back that list. */
  lemma {:induction false} SplitJoin(xs: seq<string>)
    requires AllWords(xs)
    ensures Split(Join(xs, " ")) == xs
    decreases |xs|
  {
    if |xs| == 0 {
    } else if |xs| == 1 {
      var w := xs[0];
      WordLenOfWord(w, []);
      assert w + [] == w;
      assert w[|w|..] == [];
      assert w[..|w|] == w;
    } else {
      var w, rest := xs[0], Join(xs[1..], " ");
      var s := w + " " + rest;
      assert s == w + (" " + rest);
      WordLenOfWord(w, " " + rest);
      assert s[..|w|] == w;
      assert s[|w|..] == " " + rest;
      assert (" " + rest)[1..] == rest;
      SplitJoin(xs[1..]);
      assert xs == [w] + xs[1..];
    }
  }

  /** Joining a joined non-empty tail in place is the same as joining the whole list. */
  lemma {:induction false} JoinFlatten(a: seq<string>, b: seq<string>)
    requires |b| > 0
    ensures Join(a + [Join(b, " ")], " ") == Join(a + b, " ")
    decreases |a|
  {
    if |a| == 0 {
      assert a + [Join(b, " ")] == [Join(b, " ")];
      assert a + b == b;
    } else {
      assert (a + [Join(b, " ")])[1..] == a[1..] + [Join(b, " ")];
      assert (a + b)[1..] == a[1..] + b;
      JoinFlatten(a[1..], b);
    }
  }

  lemma ConcatNoSpace(a: string, b: string)
    requires NoSpace(a) && NoSpace(b)
    ensures NoSpace(a + b)
  {
    assert forall i :: |a| <= i < |a + b| ==> (a + b)[i] == b[i - |a|];
  }

  /** Words joined by a separator without whitespace form one word. */
  lemma {:induction false} JoinIsWord(xs: seq<string>, sep: string)
    requires |xs| >= 1 && NoSpace(sep)
    requires AllWords(xs)
    ensures IsWord(Join(xs, sep))
    decreases |xs|
  {
    if |xs| > 1 {
      JoinIsWord(xs[1..], sep);
      ConcatNoSpace(xs[0], sep);
      ConcatNoSpace(xs[0] + sep, Join(xs[1..], sep));
    }
  }
}
