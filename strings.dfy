/** Models of the JavaScript string built-ins the application relies on:
    `trim`, `toLowerCase` / `toUpperCase` (ASCII letters only), `includes`,
    `split('@')[0]`, `replace(/\./g, ' ')`, `replace(/\b\w/g, upper)`,
    `Number.prototype.toString` and `slice(-k)`. Strings are `seq<char>`. */
module Strings {

  // ---------------------------------------------------------------------
  // trim

  /** The characters `String.prototype.trim` removes: the ECMAScript
      WhiteSpace and LineTerminator code points. */
  predicate IsSpace(c: char) {
    || c == '\t' || c == '\n' || c == '\U{000B}' || c == '\U{000C}' || c == '\r'
    || c == ' ' || c == '\U{00A0}' || c == '\U{1680}'
    || ('\U{2000}' <= c <= '\U{200A}')
    || c == '\U{2028}' || c == '\U{2029}' || c == '\U{202F}' || c == '\U{205F}'
    || c == '\U{3000}' || c == '\U{FEFF}'
  }

  predicate AllSpace(s: string) {
    forall i :: 0 <= i < |s| ==> IsSpace(s[i])
  }

  /** Drops leading white space: the result is the longest suffix of `s`
      that does not start with white space. */
  function TrimStart(s: string): (r: string)
    ensures |r| <= |s| && r == s[|s| - |r|..]
    ensures AllSpace(s[..|s| - |r|])
    ensures r == [] || !IsSpace(r[0])
  {
    if s != [] && IsSpace(s[0]) then TrimStart(s[1..]) else s
  }

  /** Drops trailing white space: the result is the longest prefix of `s`
      that does not end with white space. */
  function TrimEnd(s: string): (r: string)
    ensures |r| <= |s| && r == s[..|r|]
    ensures AllSpace(s[|r|..])
    ensures r == [] || !IsSpace(r[|r| - 1])
  {
    if s != [] && IsSpace(s[|s| - 1]) then TrimEnd(s[..|s| - 1]) else s
  }

  /** `r` is `s` with a white-space prefix of length `lead` and a white-space
      suffix removed. */
  ghost predicate StrippedAt(s: string, r: string, lead: int) {
    && 0 <= lead && lead + |r| <= |s|
    && r == s[lead..lead + |r|]
    && AllSpace(s[..lead])
    && AllSpace(s[lead + |r|..])
  }

  /** `String.prototype.trim`: a slice of `s` whose removed ends are white
      space and whose own ends are not; empty exactly for blank input. */
  function Trim(s: string): (r: string)
    ensures exists lead :: StrippedAt(s, r, lead)
    ensures r == [] || (!IsSpace(r[0]) && !IsSpace(r[|r| - 1]))
    ensures r == [] <==> AllSpace(s)
  {
    TrimStartEnd(s);
    TrimEnd(TrimStart(s))
  }

  /** The facts about trimming both ends that `Trim` promises. */
  lemma TrimStartEnd(s: string)
    ensures StrippedAt(s, TrimEnd(TrimStart(s)), |s| - |TrimStart(s)|)
    ensures TrimEnd(TrimStart(s)) == [] <==> AllSpace(s)
  {
    var t := TrimStart(s);
    var r := TrimEnd(t);
    var lead := |s| - |t|;
    assert t == s[lead..];
    assert AllSpace(s[..lead]);
    assert t == [] || !IsSpace(t[0]);
    assert |r| <= |t| && r == t[..|r|];
    assert AllSpace(t[|r|..]);
    TrimSlices(s, t, r, lead);
    assert StrippedAt(s, r, lead);
  }

  lemma TrimSlices(s: string, t: string, r: string, lead: int)
    requires 0 <= lead <= |s| && t == s[lead..] && AllSpace(s[..lead])
    requires t == [] || !IsSpace(t[0])
    requires |r| <= |t| && r == t[..|r|] && AllSpace(t[|r|..])
    ensures StrippedAt(s, r, lead)
    ensures r == [] <==> AllSpace(s)
  {
    assert r == s[lead..lead + |r|];
    assert s[lead + |r|..] == t[|r|..];
    if r == [] {
      AllSpaceConcat(s[..lead], t);
      assert s == s[..lead] + t;
    }
  }

  lemma AllSpaceConcat(a: string, b: string)
    requires AllSpace(a) && AllSpace(b)
    ensures AllSpace(a + b)
  {
    forall i | 0 <= i < |a + b| ensures IsSpace((a + b)[i]) {
      if i < |a| { assert (a + b)[i] == a[i]; } else { assert (a + b)[i] == b[i - |a|]; }
    }
  }

  /** Trimming is idempotent. */
  lemma TrimIdempotent(s: string)
    ensures Trim(Trim(s)) == Trim(s)
  {
    var r := Trim(s);
    assert TrimStart(r) == r;
    assert TrimEnd(r) == r;
  }

  /** A string none of whose ends is white space is its own trim. */
  lemma TrimOfTrimmed(s: string)
    requires s == [] || (!IsSpace(s[0]) && !IsSpace(s[|s| - 1]))
    ensures Trim(s) == s
  {
    assert TrimStart(s) == s;
    assert TrimEnd(s) == s;
  }

  // ---------------------------------------------------------------------
  // length

  /** A character outside the Basic Multilingual Plane, which UTF-16 stores
      as a surrogate pair. */
  predicate IsAstral(c: char) { c as int >= 0x1_0000 }

  /** `String.prototype.length`: the number of UTF-16 code units, one per
      character of the Basic Multilingual Plane and two per astral
      character. */
  function Utf16Length(s: string): (n: nat)
    ensures |s| <= n <= 2 * |s|
    ensures (forall i :: 0 <= i < |s| ==> !IsAstral(s[i])) <==> n == |s|
  {
    if s == [] then 0
    else
      var n := (if IsAstral(s[0]) then 2 else 1) + Utf16Length(s[1..]);
      assert forall i :: 1 <= i < |s| ==> s[i] == s[1..][i - 1];
      n
  }

  // ---------------------------------------------------------------------
  // Case mapping (ASCII)

  predicate IsUpperAscii(c: char) { 'A' <= c <= 'Z' }
  predicate IsLowerAscii(c: char) { 'a' <= c <= 'z' }

  function LowerChar(c: char): (d: char)
    ensures !IsUpperAscii(d)
  {
    if IsUpperAscii(c) then (c as int + 32) as char else c
  }

  function UpperChar(c: char): (d: char)
    ensures !IsLowerAscii(d)
  {
    if IsLowerAscii(c) then (c as int - 32) as char else c
  }

  /** `toLowerCase`, restricted to ASCII letters: the same length, and each
      character is mapped on its own with no upper-case ASCII letter left. */
  function ToLower(s: string): (r: string)
    ensures |r| == |s|
    ensures forall i :: 0 <= i < |s| ==> r[i] == LowerChar(s[i]) && !IsUpperAscii(r[i])
  {
    seq(|s|, i requires 0 <= i < |s| => LowerChar(s[i]))
  }

  /** Lower-casing is idempotent. */
  lemma ToLowerIdempotent(s: string)
    ensures ToLower(ToLower(s)) == ToLower(s)
  {
  }

  /** Lower-casing keeps white space where it was, so it commutes with trim. */
  lemma {:induction false} ToLowerTrim(s: string)
    ensures ToLower(Trim(s)) == Trim(ToLower(s))
  {
    var l := ToLower(s);
    forall i | 0 <= i < |s| ensures IsSpace(l[i]) == IsSpace(s[i]) {}
    ToLowerTrimStart(s);
    var t := TrimStart(s);
    assert TrimStart(l) == ToLower(t);
    ToLowerTrimEnd(t);
  }

  /** Lower-casing maps white space to white space and nothing else to it. */
  lemma LowerCharSpace(c: char)
    ensures IsSpace(LowerChar(c)) == IsSpace(c)
  {
  }

  lemma {:induction false} ToLowerTrimStart(s: string)
    ensures TrimStart(ToLower(s)) == ToLower(TrimStart(s))
    decreases |s|
  {
    if s != [] {
      assert ToLower(s)[1..] == ToLower(s[1..]);
      LowerCharSpace(s[0]);
      if IsSpace(s[0]) {
        ToLowerTrimStart(s[1..]);
      }
    }
  }

  lemma {:induction false} ToLowerTrimEnd(s: string)
    ensures TrimEnd(ToLower(s)) == ToLower(TrimEnd(s))
    decreases |s|
  {
    if s != [] {
      assert ToLower(s)[..|s| - 1] == ToLower(s[..|s| - 1]);
      LowerCharSpace(s[|s| - 1]);
      if IsSpace(s[|s| - 1]) {
        ToLowerTrimEnd(s[..|s| - 1]);
      }
    }
  }

  // ---------------------------------------------------------------------
  // includes

  predicate StartsWith(s: string, p: string) {
    |p| <= |s| && s[..|p|] == p
  }

  /** `t` occurs in `s` starting at index `i`. */
  ghost predicate OccursAt(s: string, t: string, i: int) {
    0 <= i && i + |t| <= |s| && s[i..i + |t|] == t
  }

  /** `String.prototype.includes`, computed by trying each start position. */
  predicate Includes(s: string, t: string)
    decreases |s|
  {
    StartsWith(s, t) || (s != [] && Includes(s[1..], t))
  }

  /** `Includes` holds exactly when `t` occurs somewhere in `s`. */
  lemma {:induction false} IncludesIff(s: string, t: string)
    ensures Includes(s, t) <==> exists i :: OccursAt(s, t, i)
    decreases |s|
  {
    if StartsWith(s, t) {
      assert OccursAt(s, t, 0);
    } else if s == [] {
      assert forall i :: !OccursAt(s, t, i);
    } else {
      IncludesIff(s[1..], t);
      if exists i :: OccursAt(s[1..], t, i) {
        var i :| OccursAt(s[1..], t, i);
        assert s[1..][i..i + |t|] == s[i + 1..i + 1 + |t|];
        assert OccursAt(s, t, i + 1);
      }
      if exists j :: OccursAt(s, t, j) {
        var j :| OccursAt(s, t, j);
        if j == 0 {
          assert false;
        }
        assert s[1..][j - 1..j - 1 + |t|] == s[j..j + |t|];
        assert OccursAt(s[1..], t, j - 1);
      }
    }
  }

  /** Every string includes the empty string. */
  lemma IncludesEmpty(s: string)
    ensures Includes(s, [])
  {
    assert StartsWith(s, []);
  }

  // ---------------------------------------------------------------------
  // split('@')[0]

  /** `s.split('@')[0]`: the characters before the first '@', or all of `s`
      when it has none. */
  function BeforeFirstAt(s: string): (r: string)
    ensures StartsWith(s, r)
    ensures '@' !in r
    ensures |r| == |s| || s[|r|] == '@'
  {
    if s == [] || s[0] == '@' then [] else [s[0]] + BeforeFirstAt(s[1..])
  }

  // ---------------------------------------------------------------------
  // replace(/\./g, ' ')

  function DotToSpace(c: char): char { if c == '.' then ' ' else c }

  /** Every '.' becomes a space; the rest is kept in place. */
  function ReplaceDots(s: string): (r: string)
    ensures |r| == |s|
    ensures '.' !in r
    ensures forall i :: 0 <= i < |s| ==> r[i] == DotToSpace(s[i])
  {
    seq(|s|, i requires 0 <= i < |s| => DotToSpace(s[i]))
  }

  // ---------------------------------------------------------------------
  // replace(/\b\w/g, l => l.toUpperCase())

  /** The class `\w` of a JavaScript regular expression without the `u` flag. */
  predicate IsWordChar(c: char) {
    IsUpperAscii(c) || IsLowerAscii(c) || ('0' <= c <= '9') || c == '_'
  }

  /** `\b\w` matches at index `i`: a word character with no word character
      right before it. */
  predicate WordStart(s: string, i: int)
    requires 0 <= i < |s|
  {
    IsWordChar(s[i]) && (i == 0 || !IsWordChar(s[i - 1]))
  }

  /** The global replacement, as one left-to-right scan that remembers
      whether the previous character was a word character. */
  function CapitalizeFrom(s: string, afterWord: bool): (r: string)
    ensures |r| == |s|
    decreases |s|
  {
    if s == [] then []
    else
      var c := s[0];
      [if IsWordChar(c) && !afterWord then UpperChar(c) else c]
      + CapitalizeFrom(s[1..], IsWordChar(c))
  }

  function CapitalizeWords(s: string): (r: string)
    ensures |r| == |s|
  {
    CapitalizeFrom(s, false)
  }

  /** The scan upper-cases exactly the characters at which `\b\w` matches. */
  lemma {:induction false} CapitalizeWordsAt(s: string, i: int)
    requires 0 <= i < |s|
    ensures CapitalizeWords(s)[i] == if WordStart(s, i) then UpperChar(s[i]) else s[i]
  {
    CapitalizeFromAt(s, false, i);
  }

  lemma {:induction false} CapitalizeFromAt(s: string, afterWord: bool, i: int)
    requires 0 <= i < |s|
    ensures CapitalizeFrom(s, afterWord)[i]
         == if IsWordChar(s[i]) && !(if i == 0 then afterWord else IsWordChar(s[i - 1]))
            then UpperChar(s[i]) else s[i]
    decreases |s|
  {
    if i > 0 {
      CapitalizeFromAt(s[1..], IsWordChar(s[0]), i - 1);
      assert s[1..][i - 1] == s[i];
      if i > 1 { assert s[1..][i - 2] == s[i - 1]; }
    }
  }

  // ---------------------------------------------------------------------
  // Number.prototype.toString and slice(-k)

  function DigitChar(d: nat): (c: char)
    requires d < 10
    ensures '0' <= c <= '9'
  {
    ('0' as int + d) as char
  }

  /** The value of one decimal digit; any other character reads as 0. */
  function DigitValue(c: char): (d: nat)
    ensures d < 10
  {
    if '0' <= c <= '9' then c as int - '0' as int else 0
  }

  /** The number a string of decimal digits denotes, read from the left. */
  function DecimalValue(r: string): nat {
    if r == [] then 0 else DecimalValue(r[..|r| - 1]) * 10 + DigitValue(r[|r| - 1])
  }

  /** The decimal numeral of `n`, without leading zeros. */
  function NatToString(n: nat): (r: string)
    ensures |r| >= 1
    ensures forall i :: 0 <= i < |r| ==> '0' <= r[i] <= '9'
    ensures |r| > 1 ==> r[0] != '0'
    ensures DecimalValue(r) == n
  {
    if n < 10 then
      var r := [DigitChar(n)];
      assert r[..0] == [];
      r
    else
      var p := NatToString(n / 10);
      var r := p + [DigitChar(n % 10)];
      assert r[..|r| - 1] == p;
      r
  }

  function Pow10(k: nat): (p: nat)
    ensures p >= 1
  {
    if k == 0 then 1 else 10 * Pow10(k - 1)
  }

  /** The last `k` digits of a numeral denote its value modulo `10^k`. */
  lemma {:induction false} DecimalSuffix(r: string, k: nat)
    requires k <= |r|
    ensures DecimalValue(r[|r| - k..]) == DecimalValue(r) % Pow10(k)
  {
    if k == 0 {
      assert r[|r|..] == [];
    } else {
      var init := r[..|r| - 1];
      var tail := r[|r| - k..];
      DecimalSuffix(init, k - 1);
      assert tail[..|tail| - 1] == init[|init| - (k - 1)..];
      assert tail[|tail| - 1] == r[|r| - 1];
      ShiftMod(DecimalValue(init), DigitValue(r[|r| - 1]), Pow10(k - 1));
    }
  }

  lemma {:induction false} Pow10Mono(i: nat, j: nat)
    requires i <= j
    ensures Pow10(i) <= Pow10(j)
    decreases j
  {
    if i < j {
      Pow10Mono(i, j - 1);
    }
  }

  /** `n.toString().slice(-k)` denotes the last `k` decimal digits of `n`,
      that is `n` modulo `10^k`. */
  lemma LastDigitsValue(n: nat, k: nat)
    ensures DecimalValue(LastChars(NatToString(n), k)) == n % Pow10(k)
  {
    var r := NatToString(n);
    if |r| <= k {
      NumeralBound(n);
      Pow10Mono(|r|, k);
      ModUnique(n, Pow10(k), 0, n);
    } else {
      DecimalSuffix(r, k);
    }
  }

  /** A numeral of `d` digits denotes a number below `10^d`. */
  lemma NumeralBound(n: nat)
    ensures n < Pow10(|NatToString(n)|)
  {
    var r := NatToString(n);
    DecimalSuffix(r, |r|);
    assert r[|r| - |r|..] == r;
  }

  /** Appending a digit `d` in base ten: `(a % m) * 10 + d == (a * 10 + d) % (10 * m)`. */
  lemma ShiftMod(a: nat, d: nat, m: nat)
    requires d < 10 && m >= 1
    ensures (a % m) * 10 + d == (a * 10 + d) % (10 * m)
  {
    var q, rem := a / m, a % m;
    assert a == q * m + rem;
    assert a * 10 + d == q * (10 * m) + (rem * 10 + d);
    assert 0 <= rem * 10 + d < 10 * m;
    ModUnique(a * 10 + d, 10 * m, q, rem * 10 + d);
  }

  /** The remainder is determined by any decomposition with a remainder in range. */
  lemma ModUnique(x: nat, m: nat, q: nat, rem: nat)
    requires m >= 1 && rem < m && x == q * m + rem
    ensures x % m == rem
  {
    var q2, r2 := x / m, x % m;
    assert x == q2 * m + r2 && r2 < m;
    if q2 < q {
      MulMono(q2 + 1, q, m);
    } else if q2 > q {
      MulMono(q + 1, q2, m);
    }
  }

  lemma MulMono(a: nat, b: nat, m: nat)
    requires a <= b
    ensures a * m <= b * m
  {
    assert b * m == a * m + (b - a) * m;
  }

  /** `s.slice(-k)` for `k > 0`: the last `k` characters, or all of `s`
      when it is shorter. */
  function LastChars(s: string, k: nat): (r: string)
    ensures |r| == if |s| < k then |s| else k
    ensures r == s[|s| - |r|..]
  {
    if |s| <= k then s else s[|s| - k..]
  }

  /** `s.substring(start, end)` for `start <= end`: both ends clamped to the
      length of `s`. */
  function Substring(s: string, start: nat, end: nat): (r: string)
    requires start <= end
    ensures |r| <= end - start
    ensures start <= |s| ==> StartsWith(s[start..], r)
    ensures end <= |s| ==> r == s[start..end]
    ensures start >= |s| ==> r == []
    ensures start <= |s| <= end ==> r == s[start..]
  {
    var e := if end < |s| then end else |s|;
    var b := if start < e then start else e;
    s[b..e]
  }
}
