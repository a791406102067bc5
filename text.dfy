/** The pieces of Python's `str` behaviour that the scraper relies on.  A Dafny `string`
    is a sequence of Unicode scalar values, as a Python `str` is a sequence of code points,
    so lengths and slices agree with Python's. */
module Text {
  import opened Wrappers

  /** `s.startswith(p)` */
  predicate StartsWith(s: string, p: string) {
    |p| <= |s| && s[..|p|] == p
  }

  /** `p` occurs in `s` starting at index `i`. */
  predicate OccursAt(s: string, p: string, i: int) {
    0 <= i && i + |p| <= |s| && s[i..i + |p|] == p
  }

  /** `p in s` */
  predicate Contains(s: string, p: string) {
    exists i | 0 <= i <= |s| :: OccursAt(s, p, i)
  }

  /** The first index in [lo, hi) satisfying P: the leftmost-match rule of `re.search`
      and of `soup.find`. */
  function FindFirst(lo: nat, hi: nat, P: nat -> bool): (r: Option<nat>)
    ensures r.Some? ==> lo <= r.value < hi && P(r.value)
    ensures r.Some? ==> forall j :: lo <= j < r.value ==> !P(j)
    ensures r.None? ==> forall j :: lo <= j < hi ==> !P(j)
    decreases hi - lo
  {
    if lo >= hi then None
    else if P(lo) then Some(lo)
    else FindFirst(lo + 1, hi, P)
  }

  /** `c.isspace()`: the characters Python's `str.strip()` and the regex class `\s` treat
      as white space. */
  predicate IsSpace(c: char) {
    || c == ' ' || '\t' <= c <= '\r' || '\U{1c}' <= c <= '\U{1f}'
    || c == '\U{85}' || c == '\U{a0}' || c == '\U{1680}'
    || '\U{2000}' <= c <= '\U{200a}' || c == '\U{2028}' || c == '\U{2029}'
    || c == '\U{202f}' || c == '\U{205f}' || c == '\U{3000}'
  }

  /** `s.lstrip()` */
  function LStrip(s: string): (r: string)
    ensures |r| <= |s| && r == s[|s| - |r|..]
    ensures r == [] || !IsSpace(r[0])
  {
    if s != [] && IsSpace(s[0]) then LStrip(s[1..]) else s
  }

  /** `s.rstrip()` */
  function RStrip(s: string): (r: string)
    ensures |r| <= |s| && r == s[..|r|]
    ensures r == [] || !IsSpace(r[|r| - 1])
  {
    if s != [] && IsSpace(s[|s| - 1]) then RStrip(s[..|s| - 1]) else s
  }

  /** What `LStrip` drops is all white space. */
  lemma {:induction false} LStripDropsSpace(s: string)
    ensures AllSpace(s[..|s| - |LStrip(s)|])
  {
    if s != [] && IsSpace(s[0]) {
      LStripDropsSpace(s[1..]);
      var n := |s| - |LStrip(s)|;
      assert s[..n][1..] == s[1..][..n - 1];
    }
  }

  /** What `RStrip` drops is all white space. */
  lemma {:induction false} RStripDropsSpace(s: string)
    ensures AllSpace(s[|RStrip(s)|..])
  {
    if s != [] && IsSpace(s[|s| - 1]) {
      var s' := s[..|s| - 1];
      RStripDropsSpace(s');
      var n := |RStrip(s)|;
      assert s[n..] == s'[n..] + [s[|s| - 1]];
      AllSpaceSnoc(s'[n..], s[|s| - 1]);
    }
  }

  /** White space followed by one more white-space character is white space. */
  lemma {:induction false} AllSpaceSnoc(t: string, c: char)
    requires AllSpace(t) && IsSpace(c)
    ensures AllSpace(t + [c])
  {
    if t != [] {
      assert (t + [c])[1..] == t[1..] + [c];
      AllSpaceSnoc(t[1..], c);
    }
  }

  /** `s.strip()`: drops leading and trailing white space and nothing else. */
  function Strip(s: string): (r: string)
    ensures |r| <= |s|
    ensures forall c :: c in r ==> c in s
    ensures r == [] || (!IsSpace(r[0]) && !IsSpace(r[|r| - 1]))
    ensures (s == [] || (!IsSpace(s[0]) && !IsSpace(s[|s| - 1]))) ==> r == s
  {
    RStrip(LStrip(s))
  }

  /** `Strip(s)` is a slice of `s`, and everything `s` has before and after that slice is
      white space. */
  lemma {:induction false} StripIsSlice(s: string)
    ensures StrippedAt(s, Strip(s), |s| - |LStrip(s)|)
  {
    var l := LStrip(s);
    var r := RStrip(l);
    LStripDropsSpace(s);
    RStripDropsSpace(l);
    SpaceAroundSlice(s, l, r);
  }

  /** Dropping white space from the front of `s` and then from the back leaves a slice of
      `s` with white space all around it. */
  lemma {:induction false} SpaceAroundSlice(s: string, l: string, r: string)
    requires |l| <= |s| && l == s[|s| - |l|..] && AllSpace(s[..|s| - |l|])
    requires |r| <= |l| && r == l[..|r|] && AllSpace(l[|r|..])
    ensures StrippedAt(s, r, |s| - |l|)
  {
    PrefixOfSuffix(s, |s| - |l|, l, r);
  }

  /** A prefix `r` of the suffix `l == s[i..]` is the slice `s[i..i + |r|]`, and what
      follows it in `s` is what follows it in `l`. */
  lemma {:induction false} PrefixOfSuffix<T>(s: seq<T>, i: nat, l: seq<T>, r: seq<T>)
    requires i <= |s| && l == s[i..]
    requires |r| <= |l| && r == l[..|r|]
    ensures i + |r| <= |s| && r == s[i..i + |r|]
    ensures s[i + |r|..] == l[|r|..]
  {
  }

  /** Every character of `t` is white space. */
  predicate AllSpace(t: string) {
    t == [] || (IsSpace(t[0]) && AllSpace(t[1..]))
  }

  /** `r` is the slice of `s` starting at `i`, and what `s` has before and after that
      slice is all white space. */
  predicate StrippedAt(s: string, r: string, i: int) {
    && 0 <= i && i + |r| <= |s| && r == s[i..i + |r|]
    && AllSpace(s[..i]) && AllSpace(s[i + |r|..])
  }

  /** `s.lower()` restricted to ASCII letters. */
  function LowerAscii(s: string): (r: string)
    ensures |r| == |s|
    ensures forall i :: 0 <= i < |s| ==> r[i] == if 'A' <= s[i] <= 'Z' then (s[i] as int + 32) as char else s[i]
  {
    if s == [] then []
    else LowerAscii(s[..|s| - 1]) + [if 'A' <= s[|s| - 1] <= 'Z' then (s[|s| - 1] as int + 32) as char else s[|s| - 1]]
  }

  /** `s[:n]` for a non-negative `n`. */
  function Take<T>(s: seq<T>, n: nat): (r: seq<T>)
    ensures |r| == if n <= |s| then n else |s|
    ensures r == s[..|r|]
  {
    if n <= |s| then s[..n] else s
  }

  /** `s[:k]` for any integer `k`: a negative `k` drops that many items from the end. */
  function PyPrefix<T>(s: seq<T>, k: int): (r: seq<T>)
    ensures |r| <= |s| && r == s[..|r|]
    ensures k >= 0 ==> |r| == if k <= |s| then k else |s|
    ensures k < 0 ==> |r| == if |s| + k >= 0 then |s| + k else 0
  {
    if k >= 0 then Take(s, k) else if |s| + k >= 0 then s[..|s| + k] else []
  }

  /** `sep.join(parts)` */
  function Join(parts: seq<string>, sep: string): (r: string)
    ensures |parts| > 0 ==> |r| >= |parts[0]|
  {
    if |parts| == 0 then ""
    else if |parts| == 1 then parts[0]
    else Join(parts[..|parts| - 1], sep) + sep + parts[|parts| - 1]
  }

  /** `s.replace(c, "")` for a single character `c`. */
  function RemoveChar(s: string, c: char): (r: string)
    ensures c !in r
    ensures |r| <= |s|
  {
    if s == [] then []
    else RemoveChar(s[..|s| - 1], c) + (if s[|s| - 1] == c then [] else [s[|s| - 1]])
  }

  lemma {:induction false} RemoveCharAppend(a: string, b: string, c: char)
    ensures RemoveChar(a + b, c) == RemoveChar(a, c) + RemoveChar(b, c)
    decreases |b|
  {
    if b == [] {
      assert a + b == a;
    } else {
      var b' := b[..|b| - 1];
      assert (a + b)[..|a + b| - 1] == a + b';
      RemoveCharAppend(a, b', c);
    }
  }

  /** Removing a character that does not occur changes nothing. */
  lemma {:induction false} RemoveAbsentChar(s: string, c: char)
    requires c !in s
    ensures RemoveChar(s, c) == s
  {
    if s != [] {
      RemoveAbsentChar(s[..|s| - 1], c);
    }
  }

  // ---------------------------------------------------------------- decimal numbers

  /** The regex class `\d`, restricted to ASCII digits. */
  predicate IsDigit(c: char) {
    '0' <= c <= '9'
  }

  predicate AllDigits(s: string) {
    forall i :: 0 <= i < |s| ==> IsDigit(s[i])
  }

  function DigitChar(d: nat): (c: char)
    requires d < 10
    ensures IsDigit(c)
  {
    ('0' as int + d) as char
  }

  function DigitValue(c: char): (d: nat)
    requires IsDigit(c)
    ensures d < 10
  {
    c as int - '0' as int
  }

  /** `str(n)` for a natural number. */
  function Decimal(n: nat): string
  {
    if n < 10 then [DigitChar(n)] else Decimal(n / 10) + [DigitChar(n % 10)]
  }

  /** `str(n)` is a non-empty string of digits without a leading zero (unless `n` is 0). */
  lemma {:induction false} DecimalDigits(n: nat)
    ensures var r := Decimal(n); |r| >= 1 && AllDigits(r) && (n > 0 ==> r[0] != '0')
    decreases n
  {
    if n >= 10 {
      DecimalDigits(n / 10);
      var hi := Decimal(n / 10);
      assert Decimal(n)[0] == hi[0];
    }
  }

  /** `str(i)` for any integer. */
  function IntToString(i: int): string
  {
    if i < 0 then "-" + Decimal(-i) else Decimal(i)
  }

  /** `str(i)` starts with a minus sign exactly when `i` is negative, and with a digit
      otherwise. */
  lemma IntToStringHead(i: int)
    ensures var r := IntToString(i); |r| >= 1 && (r[0] == '-' <==> i < 0) && (i >= 0 ==> IsDigit(r[0]))
  {
    if i < 0 {
      DecimalDigits(-i);
    } else {
      DecimalDigits(i);
    }
  }

  /** The end of the run of decimal digits starting at `from`. */
  function DigitRunEnd(s: string, from: nat): (r: nat)
    requires from <= |s|
    ensures from <= r <= |s| && AllDigits(s[from..r])
    ensures r < |s| ==> !IsDigit(s[r])
    decreases |s| - from
  {
    if from == |s| || !IsDigit(s[from]) then from else DigitRunEnd(s, from + 1)
  }

  /** The value of a string of decimal digits. */
  function DigitsValue(s: string): nat
    requires AllDigits(s)
  {
    if s == [] then 0 else DigitsValue(s[..|s| - 1]) * 10 + DigitValue(s[|s| - 1])
  }

  /** `int(s)` on a string of ASCII digits; `None` stands for the `ValueError` Python
      raises on an empty string. */
  function ParseDigits(s: string): (r: Option<nat>)
    ensures r.Some? <==> s != [] && AllDigits(s)
  {
    if s != [] && AllDigits(s) then Some(DigitsValue(s)) else None
  }

  /** `int(str(n)) == n` */
  lemma {:induction false} DecimalRoundTrip(n: nat)
    ensures ParseDigits(Decimal(n)) == Some(n)
    decreases n
  {
    var d := Decimal(n);
    DecimalDigits(n);
    if n < 10 {
      assert d[..0] == [];
    } else {
      var hi := Decimal(n / 10);
      assert d[..|d| - 1] == hi;
      DecimalRoundTrip(n / 10);
      assert DigitsValue(d) == (n / 10) * 10 + n % 10;
    }
  }

  /** Inserts a comma between every group of three digits counted from the right. */
  function GroupDigits(s: string): (r: string)
    ensures |r| >= |s|
  {
    if |s| <= 3 then s else GroupDigits(s[..|s| - 3]) + "," + s[|s| - 3..]
  }

  /** `format(i, ",")`: the decimal form of `i` with thousands separators. */
  function FormatThousands(i: int): string
  {
    if i < 0 then "-" + GroupDigits(Decimal(-i)) else GroupDigits(Decimal(i))
  }

  /** Dropping the separator between two groups of digits. */
  lemma DropSeparator(g: string, lo: string)
    requires ',' !in lo
    ensures RemoveChar(g + "," + lo, ',') == RemoveChar(g, ',') + lo
  {
    var sep := ",";
    assert sep[..|sep| - 1] == [];
    assert RemoveChar(sep, ',') == [];
    RemoveCharAppend(g, sep, ',');
    assert RemoveChar(g + sep, ',') == RemoveChar(g, ',');
    RemoveCharAppend(g + sep, lo, ',');
    assert RemoveChar(g + sep + lo, ',') == RemoveChar(g, ',') + RemoveChar(lo, ',');
    RemoveAbsentChar(lo, ',');
  }

  lemma {:induction false} RemoveCommasGroupDigits(s: string)
    requires ',' !in s
    ensures RemoveChar(GroupDigits(s), ',') == s
    decreases |s|
  {
    if |s| <= 3 {
      RemoveAbsentChar(s, ',');
    } else {
      var hi, lo := s[..|s| - 3], s[|s| - 3..];
      assert s == hi + lo;
      RemoveCommasGroupDigits(hi);
      DropSeparator(GroupDigits(hi), lo);
    }
  }

  /** Stripping the separators from `format(n, ",")` and parsing gives back `n`. */
  lemma ThousandsRoundTrip(n: nat)
    ensures ParseDigits(RemoveChar(FormatThousands(n), ',')) == Some(n)
  {
    var d := Decimal(n);
    DecimalDigits(n);
    assert ',' !in d by {
      forall k | 0 <= k < |d| ensures d[k] != ',' { assert IsDigit(d[k]); }
    }
    RemoveCommasGroupDigits(d);
    DecimalRoundTrip(n);
  }
}
