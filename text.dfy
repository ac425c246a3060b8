/** String helpers with the meaning JavaScript gives them. */
module Text {

  /** JavaScript's WhiteSpace and LineTerminator characters: the set that
      both `String.prototype.trim` and the regular-expression class `\s`
      use. */
  predicate IsJsSpace(c: char) {
    c == '\t' || c == '\n' || c == '\U{000B}' || c == '\U{000C}' || c == '\r'
    || c == ' ' || c == '\U{00A0}' || c == '\U{1680}'
    || ('\U{2000}' <= c <= '\U{200A}')
    || c == '\U{2028}' || c == '\U{2029}' || c == '\U{202F}' || c == '\U{205F}'
    || c == '\U{3000}' || c == '\U{FEFF}'
  }

  ghost predicate AllSpace(s: string) {
    forall k :: 0 <= k < |s| ==> IsJsSpace(s[k])
  }

  /** `s.startsWith(p)` */
  predicate StartsWith(s: string, p: string) {
    |p| <= |s| && s[..|p|] == p
  }

  /** `s.endsWith(t)` */
  predicate EndsWith(s: string, t: string) {
    |t| <= |s| && s[|s| - |t|..] == t
  }

  lemma StartsWithIff(s: string, p: string)
    ensures StartsWith(s, p) <==> exists rest :: s == p + rest
  {
    if StartsWith(s, p) {
      assert s == p + s[|p|..];
    }
  }

  lemma EndsWithIff(s: string, t: string)
    ensures EndsWith(s, t) <==> exists stem :: s == stem + t
  {
    if EndsWith(s, t) {
      assert s == s[..|s| - |t|] + t;
    }
    if exists stem :: s == stem + t {
      var stem :| s == stem + t;
      assert s[|s| - |t|..] == t;
    }
  }

  /** The first index at or after `i` that does not hold a space. */
  function SkipSpace(s: string, i: nat): (j: nat)
    requires i <= |s|
    ensures i <= j <= |s|
    ensures forall k :: i <= k < j ==> IsJsSpace(s[k])
    ensures j < |s| ==> !IsJsSpace(s[j])
    decreases |s| - i
  {
    if i < |s| && IsJsSpace(s[i]) then SkipSpace(s, i + 1) else i
  }

  /** The smallest index at or after `lo`, not beyond `j`, from which on
      everything up to `j` is space. */
  function SkipSpaceBack(s: string, lo: nat, j: nat): (r: nat)
    requires lo <= j <= |s|
    ensures lo <= r <= j
    ensures forall k :: r <= k < j ==> IsJsSpace(s[k])
    ensures lo < r ==> !IsJsSpace(s[r - 1])
    decreases j
  {
    if lo < j && IsJsSpace(s[j - 1]) then SkipSpaceBack(s, lo, j - 1) else j
  }

  /** `s[i..j]` is what remains of `s` once the leading and trailing spaces
      are removed. */
  ghost predicate TrimmedAt(s: string, i: nat, j: nat) {
    i <= j <= |s| && AllSpace(s[..i]) && AllSpace(s[j..])
    && (i < j ==> !IsJsSpace(s[i]) && !IsJsSpace(s[j - 1]))
  }

  ghost predicate IsTrimOf(s: string, r: string) {
    exists i: nat, j: nat :: TrimmedAt(s, i, j) && r == s[i..j]
  }

  /** `s.trim()` */
  function Trim(s: string): (r: string)
    ensures IsTrimOf(s, r)
    ensures r == [] <==> AllSpace(s)
  {
    var i := SkipSpace(s, 0);
    var j := SkipSpaceBack(s, i, |s|);
    assert AllSpace(s[..i]) && AllSpace(s[j..]);
    assert TrimmedAt(s, i, j);
    if i == j then
      AllSpaceSplit(s, i, j);
      s[i..j]
    else
      s[i..j]
  }

  /** There is only one trim of a string. */
  lemma TrimUnique(s: string, r1: string, r2: string)
    requires IsTrimOf(s, r1) && IsTrimOf(s, r2)
    ensures r1 == r2
  {
    var i1: nat, j1: nat :| TrimmedAt(s, i1, j1) && r1 == s[i1..j1];
    var i2: nat, j2: nat :| TrimmedAt(s, i2, j2) && r2 == s[i2..j2];
    TrimmedAtUnique(s, i1, j1, i2, j2);
  }

  lemma TrimmedAtUnique(s: string, i1: nat, j1: nat, i2: nat, j2: nat)
    requires TrimmedAt(s, i1, j1) && TrimmedAt(s, i2, j2)
    ensures s[i1..j1] == s[i2..j2]
  {
    if i1 < j1 && i2 < j2 {
      // each trim starts at the first non-space and ends after the last one
      assert i1 == i2;
      assert j1 == j2;
    } else if i1 < j1 {
      AllSpaceSplit(s, i2, j2);
    } else if i2 < j2 {
      AllSpaceSplit(s, i1, j1);
    }
  }

  lemma AllSpaceSplit(s: string, i: nat, j: nat)
    requires i <= j <= |s| && AllSpace(s[..i]) && AllSpace(s[j..]) && AllSpace(s[i..j])
    ensures AllSpace(s)
  {
    forall k | 0 <= k < |s| ensures IsJsSpace(s[k]) {
      if k < i { assert s[..i][k] == s[k]; }
      else if k < j { assert s[i..j][k - i] == s[k]; }
      else { assert s[j..][k - j] == s[k]; }
    }
  }

  function DigitChar(d: nat): char
    requires d < 10
  {
    "0123456789"[d]
  }

  function DigitValue(c: char): nat {
    if '0' <= c <= '9' then (c as int - '0' as int) as nat else 0
  }

  lemma DigitRoundTrip(d: nat)
    requires d < 10
    ensures DigitValue(DigitChar(d)) == d
  {
    match d
    case 0 => case 1 => case 2 => case 3 => case 4 =>
    case 5 => case 6 => case 7 => case 8 => case 9 =>
  }

  /** Decimal rendering of a non-negative integer, as `${n}` writes it. */
  function Decimal(n: nat): (r: string)
    ensures |r| >= 1
    ensures forall k :: 0 <= k < |r| ==> '0' <= r[k] <= '9'
    ensures |r| > 1 ==> r[0] != '0'
  {
    if n < 10 then [DigitChar(n)] else Decimal(n / 10) + [DigitChar(n % 10)]
  }

  /** The value of a string of decimal digits. */
  function DecimalValue(s: string): nat {
    if s == [] then 0 else DecimalValue(s[..|s| - 1]) * 10 + DigitValue(s[|s| - 1])
  }

  lemma {:induction false} DecimalRoundTrip(n: nat)
    ensures DecimalValue(Decimal(n)) == n
  {
    var r := Decimal(n);
    if n < 10 {
      DigitRoundTrip(n);
    } else {
      DecimalRoundTrip(n / 10);
      DigitRoundTrip(n % 10);
      assert r[..|r| - 1] == Decimal(n / 10);
      assert r[|r| - 1] == DigitChar(n % 10);
    }
  }
}
