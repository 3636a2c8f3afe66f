/**
 * The few Python string built-ins the core relies on: `str.strip()` with no
 * argument, `str.lower()` and the decimal rendering of a positive `int` in an
 * f-string.
 */
module Text {

  /** Python's `str.isspace()` for one character: the characters `str.strip()` removes. */
  predicate IsSpace(c: char) {
    var n := c as int;
    || 9 <= n <= 13          // \t \n \v \f \r
    || 28 <= n <= 32         // file, group, record and unit separators, space
    || n == 0x85 || n == 0xA0 || n == 0x1680
    || 0x2000 <= n <= 0x200A
    || n == 0x2028 || n == 0x2029 || n == 0x202F || n == 0x205F || n == 0x3000
  }

  /** True when `s` neither starts nor ends with whitespace. */
  predicate Trimmed(s: string) {
    s == [] || (!IsSpace(s[0]) && !IsSpace(s[|s| - 1]))
  }

  /** The first index at or after `i` whose character is not whitespace, or `|s|`. */
  function SkipSpaces(s: string, i: nat): (k: nat)
    requires i <= |s|
    ensures i <= k <= |s|
    decreases |s| - i
  {
    if i < |s| && IsSpace(s[i]) then SkipSpaces(s, i + 1) else i
  }

  /** The end of `s[lo..e]` once its trailing whitespace is dropped. */
  function SkipSpacesBack(s: string, lo: nat, e: nat): (k: nat)
    requires lo <= e <= |s|
    ensures lo <= k <= e
  {
    if e > lo && IsSpace(s[e - 1]) then SkipSpacesBack(s, lo, e - 1) else e
  }

  /** `SkipSpaces` stops at a character that is not whitespace, or at the end. */
  lemma {:induction false} SkipSpacesStops(s: string, i: nat)
    requires i <= |s|
    ensures SkipSpaces(s, i) < |s| ==> !IsSpace(s[SkipSpaces(s, i)])
    decreases |s| - i
  {
    if i < |s| && IsSpace(s[i]) {
      SkipSpacesStops(s, i + 1);
    }
  }

  /** `SkipSpacesBack` stops after a character that is not whitespace, or at `lo`. */
  lemma {:induction false} SkipSpacesBackStops(s: string, lo: nat, e: nat)
    requires lo <= e <= |s|
    ensures SkipSpacesBack(s, lo, e) > lo ==> !IsSpace(s[SkipSpacesBack(s, lo, e) - 1])
  {
    if e > lo && IsSpace(s[e - 1]) {
      SkipSpacesBackStops(s, lo, e - 1);
    }
  }

  /** `SkipSpaces` passes over whitespace only. */
  lemma {:induction false} SkipSpacesSkipsSpaces(s: string, i: nat, j: nat)
    requires i <= |s| && i <= j < SkipSpaces(s, i)
    ensures IsSpace(s[j])
    decreases |s| - i
  {
    if j > i {
      SkipSpacesSkipsSpaces(s, i + 1, j);
    }
  }

  /** `SkipSpacesBack` passes over whitespace only. */
  lemma {:induction false} SkipSpacesBackSkipsSpaces(s: string, lo: nat, e: nat, j: nat)
    requires lo <= e <= |s| && SkipSpacesBack(s, lo, e) <= j < e
    ensures IsSpace(s[j])
  {
    if j < e - 1 {
      SkipSpacesBackSkipsSpaces(s, lo, e - 1, j);
    }
  }

  /**
   * `r` occurs in `s` at offset `k`, and every character of `s` before or
   * after that occurrence is whitespace.
   */
  predicate PaddedInfix(s: string, r: string, k: nat) {
    && k + |r| <= |s|
    && s[k..k + |r|] == r
    && (forall i :: 0 <= i < k ==> IsSpace(s[i]))
    && (forall i :: k + |r| <= i < |s| ==> IsSpace(s[i]))
  }

  /**
   * Python's `s.strip()`: the part of `s` between its leading and its
   * trailing whitespace.
   */
  function Strip(s: string): (r: string)
    ensures |r| <= |s|
  {
    var a := SkipSpaces(s, 0);
    s[a..SkipSpacesBack(s, a, |s|)]
  }

  /** What `Strip` returns neither starts nor ends with whitespace. */
  lemma StripTrimmed(s: string)
    ensures Trimmed(Strip(s))
  {
    var a := SkipSpaces(s, 0);
    SkipSpacesStops(s, 0);
    SkipSpacesBackStops(s, a, |s|);
  }

  /** What `Strip` removes is whitespace only, from both ends, and nothing else. */
  lemma StripPadded(s: string)
    ensures exists k :: PaddedInfix(s, Strip(s), k)
  {
    var a := SkipSpaces(s, 0);
    var b := SkipSpacesBack(s, a, |s|);
    forall j | 0 <= j < a ensures IsSpace(s[j]) {
      SkipSpacesSkipsSpaces(s, 0, j);
    }
    forall j | b <= j < |s| ensures IsSpace(s[j]) {
      SkipSpacesBackSkipsSpaces(s, a, |s|, j);
    }
    assert PaddedInfix(s, Strip(s), a);
  }

  /** Stripping twice is stripping once: what `Strip` returns has nothing left to strip. */
  lemma {:induction false} StripIdempotent(s: string)
    ensures Strip(Strip(s)) == Strip(s)
  {
    var r := Strip(s);
    StripTrimmed(s);
    assert SkipSpaces(r, 0) == 0;
    assert SkipSpacesBack(r, 0, |r|) == |r|;
  }

  /**
   * Python's `str.lower()` on one character, for the letters a Serbian bill
   * label can hold: ASCII, Latin-1, the Serbian Latin letters and the Cyrillic
   * block U+0400..U+042F. Other characters are returned unchanged.
   */
  function LowerChar(c: char): char {
    var n := c as int;
    if 'A' as int <= n <= 'Z' as int then (n + 32) as char
    else if 0xC0 <= n <= 0xDE && n != 0xD7 then (n + 32) as char
    else if n == 0x106 || n == 0x10C || n == 0x110 || n == 0x160 || n == 0x17D then (n + 1) as char
    else if 0x410 <= n <= 0x42F then (n + 32) as char
    else if 0x400 <= n <= 0x40F then (n + 80) as char
    else c
  }

  /** Python's `s.lower()`, character by character. */
  function Lower(s: string): (r: string)
    ensures |r| == |s|
  {
    seq(|s|, i requires 0 <= i < |s| => LowerChar(s[i]))
  }

  /** The character of decimal digit `d`. */
  function DigitChar(d: nat): (c: char)
    requires d < 10
  {
    ('0' as int + d) as char
  }

  /** Python's `f'{n}'` for a natural number: its decimal digits, no leading zero. */
  function NatToString(n: nat): (r: string)
    ensures |r| >= 1
    ensures forall i :: 0 <= i < |r| ==> '0' <= r[i] <= '9'
  {
    if n < 10 then [DigitChar(n)] else NatToString(n / 10) + [DigitChar(n % 10)]
  }

  /** Different numbers are rendered differently. */
  lemma {:induction false} NatToStringInjective(a: nat, b: nat)
    requires NatToString(a) == NatToString(b)
    ensures a == b
  {
    var sa, sb := NatToString(a), NatToString(b);
    if a < 10 && b < 10 {
      assert sa[0] == sb[0];
    } else if a >= 10 && b >= 10 {
      assert sa[|sa| - 1] == sb[|sb| - 1];
      assert a % 10 == b % 10;
      assert sa[..|sa| - 1] == NatToString(a / 10);
      assert sb[..|sb| - 1] == NatToString(b / 10);
      NatToStringInjective(a / 10, b / 10);
    }
  }
}
