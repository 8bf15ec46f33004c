/** The Python string and sequence builtins the modelled code relies on:
    slicing with negative bounds, str.startswith, str.split and str.join with
    a one-character separator, and str.strip(). */
module PyStr {

  /** How Python clamps one slice bound `i` against a sequence of length `n`. */
  function SliceBound(i: int, n: nat): (b: nat)
    ensures b <= n
    ensures 0 <= i ==> b == if i <= n then i else n
    ensures i < 0 ==> b == if -i <= n then n + i else 0
  {
    if i < 0 then (if n + i < 0 then 0 else n + i) else if i > n then n else i
  }

  /** `s[i:j]` in Python: never fails, clamps both bounds, empty when they cross. */
  function Slice<T>(s: seq<T>, i: int, j: int): (r: seq<T>)
    ensures |r| <= |s|
    ensures SliceBound(i, |s|) <= SliceBound(j, |s|) ==>
              |r| == SliceBound(j, |s|) - SliceBound(i, |s|)
    ensures SliceBound(j, |s|) <= SliceBound(i, |s|) ==> r == []
    ensures forall k :: 0 <= k < |r| ==> r[k] == s[SliceBound(i, |s|) + k]
  {
    var a, b := SliceBound(i, |s|), SliceBound(j, |s|);
    if a < b then s[a..b] else []
  }

  predicate StartsWith(s: string, prefix: string)
  {
    |prefix| <= |s| && s[..|prefix|] == prefix
  }

  predicate EndsWith(s: string, suffix: string)
  {
    |suffix| <= |s| && s[|s| - |suffix|..] == suffix
  }

  /** The first position of `c` in `s`. */
  function IndexOf(s: string, c: char): (i: nat)
    requires c in s
    ensures i < |s| && s[i] == c && c !in s[..i]
  {
    if s[0] == c then 0
    else
      var j := IndexOf(s[1..], c);
      assert s[..j + 1] == [s[0]] + s[1..][..j];
      1 + j
  }

  /** `sep.join(parts)` for a one-character separator. */
  function Join(parts: seq<string>, sep: char): string
    decreases |parts|
  {
    if |parts| == 0 then ""
    else if |parts| == 1 then parts[0]
    else parts[0] + [sep] + Join(parts[1..], sep)
  }

  function Last<T>(xs: seq<T>): T
    requires |xs| > 0
  {
    xs[|xs| - 1]
  }

  /** `s.split(sep)` for a one-character separator: always at least one piece. */
  function Split(s: string, sep: char): (r: seq<string>)
    ensures |r| >= 1
    decreases |s|
  {
    if sep !in s then [s]
    else
      var i := IndexOf(s, sep);
      [s[..i]] + Split(s[i + 1..], sep)
  }

  /** The first position holding `c` is where IndexOf finds it. */
  lemma IndexOfFirst(s: string, c: char, j: nat)
    requires j < |s| && s[j] == c && c !in s[..j]
    ensures IndexOf(s, c) == j
  {
  }

  /** No piece produced by Split contains the separator. */
  lemma {:induction false} SplitPiecesFree(s: string, sep: char)
    ensures forall k :: 0 <= k < |Split(s, sep)| ==> sep !in Split(s, sep)[k]
    decreases |s|
  {
    if sep in s {
      var i := IndexOf(s, sep);
      SplitPiecesFree(s[i + 1..], sep);
      SplitUnfold(s, sep);
    }
  }

  /** Joining pieces that do not contain the separator and splitting again
      gives the pieces back: split is the inverse of join. */
  lemma {:induction false} SplitJoin(parts: seq<string>, sep: char)
    requires |parts| >= 1
    requires forall k :: 0 <= k < |parts| ==> sep !in parts[k]
    ensures Split(Join(parts, sep), sep) == parts
    decreases |parts|
  {
    if |parts| > 1 {
      var p, rest := parts[0], Join(parts[1..], sep);
      var s := p + [sep] + rest;
      assert s == Join(parts, sep);
      assert s[..|p|] == p && s[|p| + 1..] == rest;
      IndexOfFirst(s, sep, |p|);
      SplitUnfold(s, sep);
      SplitJoin(parts[1..], sep);
    }
  }

  /** The first piece of a split, and the split of the rest. */
  lemma SplitUnfold(s: string, sep: char)
    requires sep in s
    ensures Split(s, sep) == [s[..IndexOf(s, sep)]] + Split(s[IndexOf(s, sep) + 1..], sep)
  {
  }

  /** `l` is what follows the last `sep` in `s`, or all of `s` when it holds none. */
  predicate IsLastPiece(s: string, sep: char, l: string)
  {
    && |l| <= |s| && s[|s| - |l|..] == l && sep !in l
    && (sep !in s ==> l == s)
    && (sep in s ==> |l| < |s| && s[|s| - |l| - 1] == sep)
  }

  /** What follows the last separator of the text after a separator is what
      follows the last separator of the whole. */
  lemma LastPieceAfterSeparator(s: string, sep: char, i: nat, l: string)
    requires i < |s| && s[i] == sep && IsLastPiece(s[i + 1..], sep, l)
    ensures IsLastPiece(s, sep, l)
  {
    var t := s[i + 1..];
    var off := |t| - |l|;
    assert s[i + 1 + off..] == t[off..];
    if sep in t {
      assert t[off - 1] == sep;
    } else {
      assert off == 0;
    }
    assert s[|s| - |l| - 1] == sep;
  }

  /** The last piece of `s.split(sep)`: what follows the last separator, or
      all of `s` when it holds none. */
  lemma {:induction false} SplitLast(s: string, sep: char)
    ensures IsLastPiece(s, sep, Last(Split(s, sep)))
    decreases |s|
  {
    if sep in s {
      var i := IndexOf(s, sep);
      SplitLast(s[i + 1..], sep);
      SplitUnfold(s, sep);
      LastPieceAfterSeparator(s, sep, i, Last(Split(s[i + 1..], sep)));
    }
  }

  /** Python's str.isspace() on a single character. */
  predicate IsSpace(c: char)
  {
    c == ' ' || c == '\t' || c == '\n' || c == '\r' || c == '\U{0B}' || c == '\U{0C}'
    || ('\U{1C}' <= c <= '\U{1F}') || c == '\U{85}' || c == '\U{A0}' || c == '\U{1680}'
    || ('\U{2000}' <= c <= '\U{200A}') || c == '\U{2028}' || c == '\U{2029}'
    || c == '\U{202F}' || c == '\U{205F}' || c == '\U{3000}'
  }

  /** Neither end of `s` is whitespace. */
  predicate Trimmed(s: string)
  {
    s == [] || (!IsSpace(s[0]) && !IsSpace(s[|s| - 1]))
  }

  /** Where `s` resumes after the whitespace run starting at `i`. */
  function SkipSpace(s: string, i: nat): (j: nat)
    requires i <= |s|
    ensures i <= j <= |s| && (j < |s| ==> !IsSpace(s[j]))
    decreases |s| - i
  {
    if i < |s| && IsSpace(s[i]) then SkipSpace(s, i + 1) else i
  }

  /** Where `s[a..j]` ends once its trailing whitespace is dropped. */
  function SkipSpaceBack(s: string, a: nat, j: nat): (e: nat)
    requires a <= j <= |s|
    ensures a <= e <= j && (a < e ==> !IsSpace(s[e - 1]))
    decreases j
  {
    if a < j && IsSpace(s[j - 1]) then SkipSpaceBack(s, a, j - 1) else j
  }

  /** `s.strip()`: `s` with its leading and trailing whitespace removed. */
  function Strip(s: string): (r: string)
    ensures Trimmed(r)
    ensures |r| <= |s|
  {
    var a := SkipSpace(s, 0);
    s[a..SkipSpaceBack(s, a, |s|)]
  }

  lemma {:induction false} SkipSpaceSkipsSpace(s: string, i: nat)
    requires i <= |s|
    ensures forall k :: i <= k < SkipSpace(s, i) ==> IsSpace(s[k])
    decreases |s| - i
  {
    if i < |s| && IsSpace(s[i]) {
      SkipSpaceSkipsSpace(s, i + 1);
    }
  }

  lemma {:induction false} SkipSpaceBackSkipsSpace(s: string, a: nat, j: nat)
    requires a <= j <= |s|
    ensures forall k :: SkipSpaceBack(s, a, j) <= k < j ==> IsSpace(s[k])
    decreases j
  {
    if a < j && IsSpace(s[j - 1]) {
      SkipSpaceBackSkipsSpace(s, a, j - 1);
    }
  }

  /** Stripping removes only whitespace, from the two ends. */
  lemma StripRemovesOnlyEnds(s: string) returns (a: nat, b: nat)
    ensures a <= b <= |s| && Strip(s) == s[a..b]
    ensures forall k :: 0 <= k < a ==> IsSpace(s[k])
    ensures forall k :: b <= k < |s| ==> IsSpace(s[k])
  {
    a := SkipSpace(s, 0);
    b := SkipSpaceBack(s, a, |s|);
    SkipSpaceSkipsSpace(s, 0);
    SkipSpaceBackSkipsSpace(s, a, |s|);
  }

  /** A trimmed string is its own strip; hence strip is idempotent. */
  lemma StripTrimmed(s: string)
    requires Trimmed(s)
    ensures Strip(s) == s
  {
  }

  lemma StripIdempotent(s: string)
    ensures Strip(Strip(s)) == Strip(s)
  {
    StripTrimmed(Strip(s));
  }

  /** The decimal digit character for `d`. */
  function Digit(d: nat): (c: char)
    requires d < 10
    ensures '0' <= c <= '9' && c as int - '0' as int == d
  {
    ('0' as int + d) as char
  }

  /** `str(n)` for a natural number: its decimal digits, no leading zero. */
  function NatToStr(n: nat): (s: string)
    ensures |s| >= 1 && forall k :: 0 <= k < |s| ==> '0' <= s[k] <= '9'
    ensures 1 < |s| ==> s[0] != '0'
  {
    if n < 10 then [Digit(n)] else NatToStr(n / 10) + [Digit(n % 10)]
  }

  /** `str(i)` for an int: a minus sign before the digits of a negative number. */
  function IntToStr(i: int): (s: string)
    ensures |s| >= 1
    ensures forall k :: 0 <= k < |s| ==> s[k] == '-' || '0' <= s[k] <= '9'
    ensures (i < 0) == (s[0] == '-')
  {
    if i < 0 then "-" + NatToStr(-i) else NatToStr(i)
  }

  /** The number a string of decimal digits denotes. */
  function DigitsValue(s: string): nat
    requires forall k :: 0 <= k < |s| ==> '0' <= s[k] <= '9'
  {
    if s == [] then 0
    else
      assert '0' <= s[|s| - 1];
      10 * DigitsValue(s[..|s| - 1]) + (s[|s| - 1] as int - '0' as int)
  }

  /** `int(s)` for what `str` printed. */
  function StrToInt(s: string): int
    requires |s| >= 1 && forall k :: 0 <= k < |s| ==> s[k] == '-' || '0' <= s[k] <= '9'
    requires forall k :: 1 <= k < |s| ==> '0' <= s[k] <= '9'
  {
    if s[0] == '-' then -(DigitsValue(s[1..]) as int) else DigitsValue(s)
  }

  lemma {:induction false} NatToStrValue(n: nat)
    ensures DigitsValue(NatToStr(n)) == n
  {
    if n >= 10 {
      var q, d := n / 10, n % 10;
      NatToStrValue(q);
      var s, p := NatToStr(n), NatToStr(q);
      assert s == p + [Digit(d)];
      assert s[..|s| - 1] == p;
      assert DigitsValue(s) == 10 * q + d;
    }
  }

  /** Reading back what `str(i)` printed gives `i`. */
  lemma IntToStrRoundTrip(i: int)
    ensures StrToInt(IntToStr(i)) == i
  {
    if i < 0 {
      NatToStrValue(-i);
      assert IntToStr(i)[1..] == NatToStr(-i);
    } else {
      NatToStrValue(i);
    }
  }

  /** A character that is neither the separator nor in any part is not in
      their join. */
  lemma {:induction false} NotInJoin(parts: seq<string>, sep: char, c: char)
    requires c != sep
    requires forall k :: 0 <= k < |parts| ==> c !in parts[k]
    ensures c !in Join(parts, sep)
    decreases |parts|
  {
    if |parts| > 1 {
      NotInJoin(parts[1..], sep, c);
    }
  }
}
