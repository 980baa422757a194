/** String helpers with the semantics of the Python built-ins the shop code uses:
    `str.replace`, `str.strip` and the decimal formatting of an `int`. */
module Text {

  import opened Wrappers

  /** `t` occurs in `s` starting at index `i`. */
  predicate OccursAt(t: string, s: string, i: nat) {
    i + |t| <= |s| && s[i..i + |t|] == t
  }

  /** A string that ends `q`, where `q` ends `e`, ends `e`. */
  lemma EndOfEnd(d: string, q: string, e: string)
    requires |d| <= |q| <= |e|
    requires OccursAt(q, e, |e| - |q|) && OccursAt(d, q, |q| - |d|)
    ensures e[|e| - |d|..] == d
  {
    assert e[|e| - |q|..] == q;
    assert q[|q| - |d|..] == d;
    assert e[|e| - |d|..] == e[|e| - |q|..][|q| - |d|..];
  }

  /** `t` occurs somewhere in `s`. */
  ghost predicate Contains(s: string, t: string) {
    exists i: nat :: OccursAt(t, s, i)
  }

  /** Python's `s.replace(pat, "")`: scanning from the left, every occurrence of
      `pat` that does not overlap an earlier removed one is deleted. */
  function RemoveAll(s: string, pat: string): (r: string)
    requires pat != []
    ensures |r| <= |s|
    decreases |s|
  {
    if |s| < |pat| then s
    else if s[..|pat|] == pat then RemoveAll(s[|pat|..], pat)
    else [s[0]] + RemoveAll(s[1..], pat)
  }

  /** A string in which the character `pat[j]` never appears is left alone by `RemoveAll`. */
  lemma {:induction false} RemoveAllAbsent(s: string, pat: string, j: nat)
    requires j < |pat| && forall k :: 0 <= k < |s| ==> s[k] != pat[j]
    ensures RemoveAll(s, pat) == s
    decreases |s|
  {
    if |s| >= |pat| {
      assert s[..|pat|][j] != pat[j];
      RemoveAllAbsent(s[1..], pat, j);
      assert [s[0]] + s[1..] == s;
    }
  }

  /** A string in which the character `pat[j]` appears at most at index `m < j` is
      left alone by `RemoveAll`: no occurrence of the pattern can line that
      character up with `pat[j]`. */
  lemma {:induction false} RemoveAllMisaligned(s: string, pat: string, j: nat, m: int)
    requires j < |pat| && m < j
    requires forall k :: 0 <= k < |s| && k != m ==> s[k] != pat[j]
    ensures RemoveAll(s, pat) == s
    decreases |s|
  {
    if |s| >= |pat| {
      assert s[..|pat|][j] != pat[j];
      RemoveAllMisaligned(s[1..], pat, j, m - 1);
      assert [s[0]] + s[1..] == s;
    }
  }

  /** A leading copy of the pattern is removed and the scan goes on after it. */
  lemma RemoveLeading(pat: string, s: string)
    requires pat != []
    ensures RemoveAll(pat + s, pat) == RemoveAll(s, pat)
  {
    assert (pat + s)[..|pat|] == pat && (pat + s)[|pat|..] == s;
  }

  /** Leading occurrences of `c` removed. */
  function StripLeft(s: string, c: char): (r: string)
    ensures |r| <= |s| && r == s[|s| - |r|..]
    ensures forall k :: 0 <= k < |s| - |r| ==> s[k] == c
    ensures r == [] || r[0] != c
    decreases |s|
  {
    if s != [] && s[0] == c then StripLeft(s[1..], c) else s
  }

  /** Trailing occurrences of `c` removed. */
  function StripRight(s: string, c: char): (r: string)
    ensures |r| <= |s| && r == s[..|r|]
    ensures forall k :: |r| <= k < |s| ==> s[k] == c
    ensures r == [] || r[|r| - 1] != c
    decreases |s|
  {
    if s != [] && s[|s| - 1] == c then StripRight(s[..|s| - 1], c) else s
  }

  /** Python's `s.strip(c)` for a one-character argument: the longest middle part
      of `s` that neither starts nor ends with `c`, all that is cut off being `c`. */
  function Strip(s: string, c: char): (r: string)
    ensures r == [] || (r[0] != c && r[|r| - 1] != c)
    ensures exists i: nat, j: nat :: i <= j <= |s| && r == s[i..j] && Cut(s, c, i, j)
  {
    var l := StripLeft(s, c);
    var r := StripRight(l, c);
    assert r == s[|s| - |l|..|s| - |l| + |r|];
    assert Cut(s, c, |s| - |l|, |s| - |l| + |r|);
    r
  }

  /** Everything of `s` outside `s[i..j]` is the character `c`. */
  predicate Cut(s: string, c: char, i: nat, j: nat)
    requires i <= j <= |s|
  {
    (forall k :: 0 <= k < i ==> s[k] == c) && (forall k :: j <= k < |s| ==> s[k] == c)
  }

  /** A string that neither starts nor ends with `c` is its own `Strip`. */
  lemma StripKeeps(s: string, c: char)
    requires s == [] || (s[0] != c && s[|s| - 1] != c)
    ensures Strip(s, c) == s
  {
    assert StripLeft(s, c) == s;
    assert StripRight(s, c) == s;
  }

  /** Any run of `c` after a string with no `c` at either end is stripped off. */
  lemma StripTrailing(s: string, run: string, c: char)
    requires s == [] || (s[0] != c && s[|s| - 1] != c)
    requires forall k :: 0 <= k < |run| ==> run[k] == c
    ensures Strip(s + run, c) == s
  {
    StripRightRun(s, run, c);
    if s == [] {
      assert s + run == run;
      StripLeftRun(run, c);
    } else {
      assert StripLeft(s + run, c) == s + run;
    }
  }

  lemma {:induction false} StripRightRun(s: string, run: string, c: char)
    requires s == [] || s[|s| - 1] != c
    requires forall k :: 0 <= k < |run| ==> run[k] == c
    ensures StripRight(s + run, c) == s
    decreases |run|
  {
    if run == [] {
      assert s + run == s;
    } else {
      var t := s + run;
      assert t[..|t| - 1] == s + run[..|run| - 1];
      StripRightRun(s, run[..|run| - 1], c);
    }
  }

  lemma {:induction false} StripLeftRun(run: string, c: char)
    requires forall k :: 0 <= k < |run| ==> run[k] == c
    ensures StripLeft(run, c) == []
    decreases |run|
  {
    if run != [] {
      StripLeftRun(run[1..], c);
    }
  }

  function DigitChar(d: nat): (ch: char)
    requires d < 10
    ensures '0' <= ch <= '9' && ch as int - '0' as int == d
  {
    ('0' as int + d) as char
  }

  /** Decimal digits of a natural number, most significant first, no leading zeros. */
  function NatDigits(n: nat): (r: string)
    ensures |r| >= 1 && forall k :: 0 <= k < |r| ==> '0' <= r[k] <= '9'
    ensures |r| > 1 ==> r[0] != '0'
    decreases n
  {
    if n < 10 then [DigitChar(n)] else NatDigits(n / 10) + [DigitChar(n % 10)]
  }

  /** The text Python's f-string gives for an `int`. */
  function IntText(n: int): (r: string)
    ensures r != []
  {
    if n < 0 then ['-'] + NatDigits(-n) else NatDigits(n)
  }

  /** Value of a string of decimal digits. */
  function DigitsValue(s: string): nat
    requires forall k :: 0 <= k < |s| ==> '0' <= s[k] <= '9'
  {
    if s == [] then 0 else DigitsValue(s[..|s| - 1]) * 10 + (s[|s| - 1] as int - '0' as int)
  }

  /** Reads back what `IntText` wrote: an optional '-' and decimal digits. */
  function ParseInt(s: string): Option<int>
  {
    if s == [] then None
    else if s[0] == '-' then
      (if |s| > 1 && AllDigits(s[1..]) then Some(0 - DigitsValue(s[1..])) else None)
    else if AllDigits(s) then Some(DigitsValue(s))
    else None
  }

  predicate AllDigits(s: string) {
    forall k :: 0 <= k < |s| ==> '0' <= s[k] <= '9'
  }

  lemma {:induction false} NatDigitsValue(n: nat)
    ensures DigitsValue(NatDigits(n)) == n
    decreases n
  {
    if n >= 10 {
      NatDigitsValue(n / 10);
      var r := NatDigits(n);
      assert r[..|r| - 1] == NatDigits(n / 10);
    }
  }

  /** A run of decimal digits reads back as its value, with or without a minus sign. */
  lemma ParseDigits(d: string)
    requires d != [] && AllDigits(d)
    ensures ParseInt(d) == Some(DigitsValue(d) as int)
    ensures ParseInt(['-'] + d) == Some(0 - DigitsValue(d))
  {
    assert d[0] != '-';
    var s := ['-'] + d;
    assert s[0] == '-' && s[1..] == d;
  }

  /** The decimal text of an integer reads back as the same integer. */
  lemma IntTextRoundTrip(n: int)
    ensures ParseInt(IntText(n)) == Some(n)
  {
    var m: nat := if n < 0 then -n else n;
    NatDigitsValue(m);
    ParseDigits(NatDigits(m));
  }
}
