/**
 * The JavaScript string operations the core relies on, over `string` (a sequence of UTF-16 code
 * units is approximated by a sequence of characters):
 *   - `String.prototype.trim` and the white space that `trim` and `parseInt` skip,
 *   - `replace` with a global regular expression that is a plain literal,
 *   - `indexOf` and the second piece of `split`,
 *   - `parseInt` without a radix, and the decimal rendering used in template literals,
 *   - `toLowerCase` restricted to ASCII letters.
 */
module JsText {
  import opened Wrappers

  /** WhiteSpace and LineTerminator code points of ECMAScript, the set `trim` and `parseInt` strip. */
  predicate IsSpace(c: char) {
    c == '\t' || c == '\n' || c == '\U{000B}' || c == '\U{000C}' || c == '\r' || c == ' ' ||
    c == '\U{00A0}' || c == '\U{1680}' || ('\U{2000}' <= c <= '\U{200A}') ||
    c == '\U{2028}' || c == '\U{2029}' || c == '\U{202F}' || c == '\U{205F}' ||
    c == '\U{3000}' || c == '\U{FEFF}'
  }

  /** Leading white space removed. */
  function TrimStart(s: string): (r: string)
    ensures |r| <= |s| && r == s[|s| - |r|..]
    ensures forall k :: 0 <= k < |s| - |r| ==> IsSpace(s[k])
    ensures r != [] ==> !IsSpace(r[0])
  {
    if s != [] && IsSpace(s[0]) then
      var r := TrimStart(s[1..]);
      assert s[1..][|s| - 1 - |r|..] == s[|s| - |r|..];
      assert forall k :: 1 <= k < |s| ==> s[1..][k - 1] == s[k];
      r
    else s
  }

  /** Trailing white space removed. */
  function TrimEnd(s: string): (r: string)
    ensures |r| <= |s| && r == s[..|r|]
    ensures forall k :: |r| <= k < |s| ==> IsSpace(s[k])
    ensures r != [] ==> !IsSpace(r[|r| - 1])
  {
    if s != [] && IsSpace(s[|s| - 1]) then
      var r := TrimEnd(s[..|s| - 1]);
      assert s[..|s| - 1][..|r|] == s[..|r|];
      assert forall k :: 0 <= k < |s| - 1 ==> s[..|s| - 1][k] == s[k];
      r
    else s
  }

  /** `s.trim()`. */
  function Trim(s: string): (r: string)
    ensures r != [] ==> !IsSpace(r[0]) && !IsSpace(r[|r| - 1])
    ensures forall c :: c in r ==> c in s
  {
    var t := TrimStart(s);
    var r := TrimEnd(t);
    SliceChars(s, |s| - |t|, |s|);
    SliceChars(t, 0, |r|);
    r
  }

  lemma SliceChars(s: string, i: int, j: int)
    requires 0 <= i <= j <= |s|
    ensures forall c :: c in s[i..j] ==> c in s
  {
    forall c | c in s[i..j] ensures c in s {
      var k :| 0 <= k < j - i && s[i..j][k] == c;
      assert s[i + k] == c;
    }
  }

  /** `Trim(s)` is the slice of `s` that starts after its leading white space. */
  lemma TrimIsSlice(s: string)
    ensures var lead := |s| - |TrimStart(s)|;
            lead + |Trim(s)| <= |s| && Trim(s) == s[lead..lead + |Trim(s)|]
  {
  }

  /** Trimming removes exactly the padding around a word that has none of its own. */
  lemma {:induction false} TrimPadding(pre: string, w: string, post: string)
    requires forall k :: 0 <= k < |pre| ==> IsSpace(pre[k])
    requires forall k :: 0 <= k < |post| ==> IsSpace(post[k])
    requires w != [] ==> !IsSpace(w[0]) && !IsSpace(w[|w| - 1])
    ensures Trim(pre + w + post) == w
  {
    assert pre + w + post == pre + (w + post);
    if w == [] {
      assert w + post == post;
      TrimStartPadding(pre + post, []);
      assert pre + post + [] == pre + post;
    } else {
      TrimStartPadding(pre, w + post);
      TrimEndPadding(w, post);
    }
  }

  lemma {:induction false} TrimStartPadding(pre: string, s: string)
    requires forall k :: 0 <= k < |pre| ==> IsSpace(pre[k])
    requires s != [] ==> !IsSpace(s[0])
    ensures TrimStart(pre + s) == s
  {
    if pre != [] {
      assert (pre + s)[1..] == pre[1..] + s;
      TrimStartPadding(pre[1..], s);
    }
  }

  lemma {:induction false} TrimEndPadding(s: string, post: string)
    requires forall k :: 0 <= k < |post| ==> IsSpace(post[k])
    requires s != [] ==> !IsSpace(s[|s| - 1])
    ensures TrimEnd(s + post) == s
  {
    if post != [] {
      assert (s + post)[..|s + post| - 1] == s + post[..|post| - 1];
      TrimEndPadding(s, post[..|post| - 1]);
    } else {
      assert s + post == s;
    }
  }

  /** Text with no white space at either end is its own trim. */
  lemma TrimUnpadded(s: string)
    requires s != [] ==> !IsSpace(s[0]) && !IsSpace(s[|s| - 1])
    ensures Trim(s) == s
  {
    assert TrimStart(s) == s;
    assert TrimEnd(s) == s;
  }

  /** `pat` occurs in `s` at index `i`. */
  predicate At(s: string, i: int, pat: string) {
    0 <= i && i + |pat| <= |s| && s[i..i + |pat|] == pat
  }

  predicate Occurs(s: string, pat: string) {
    exists i :: 0 <= i <= |s| && At(s, i, pat)
  }

  /** A one-character pattern occurs exactly when the character does. */
  lemma OccursChar(s: string, c: char)
    ensures Occurs(s, [c]) <==> c in s
  {
    if c in s {
      var i :| 0 <= i < |s| && s[i] == c;
      assert At(s, i, [c]);
    }
    if Occurs(s, [c]) {
      var i :| 0 <= i <= |s| && At(s, i, [c]);
      assert s[i] == s[i..i + 1][0];
    }
  }

  /**
   * `s.replace(/pat/g, rep)` for a pattern that is a literal: every occurrence, scanning left to
   * right, that does not overlap an occurrence already replaced.
   */
  function ReplaceAll(s: string, pat: string, rep: string): (r: string)
    requires pat != []
    ensures forall c :: c in r ==> c in s || c in rep
    decreases |s|
  {
    if |s| < |pat| then s
    else if s[..|pat|] == pat then rep + ReplaceAll(s[|pat|..], pat, rep)
    else [s[0]] + ReplaceAll(s[1..], pat, rep)
  }

  /** Replacing a one-character pattern removes every copy of that character. */
  lemma {:induction false} ReplaceAllRemovesChar(s: string, c: char, rep: string)
    requires c !in rep
    ensures c !in ReplaceAll(s, [c], rep)
    decreases |s|
  {
    if |s| >= 1 {
      if s[..1] == [c] {
        ReplaceAllRemovesChar(s[1..], c, rep);
      } else {
        assert s[0] != c by { assert s[..1][0] == s[0]; }
        ReplaceAllRemovesChar(s[1..], c, rep);
      }
    }
  }

  /** With no occurrence of the pattern there is nothing to replace. */
  lemma {:induction false} ReplaceAllAbsent(s: string, pat: string, rep: string)
    requires pat != [] && !Occurs(s, pat)
    ensures ReplaceAll(s, pat, rep) == s
  {
    if |s| >= |pat| {
      assert !At(s, 0, pat);
      forall i | At(s[1..], i, pat) ensures At(s, i + 1, pat) {
        assert s[1..][i..i + |pat|] == s[i + 1..i + 1 + |pat|];
      }
      ReplaceAllAbsent(s[1..], pat, rep);
    }
  }

  /** The index of the first occurrence of `pat` in `s` at or after `from`. */
  function IndexOfFrom(s: string, pat: string, from: nat): (r: Option<nat>)
    ensures r.Some? ==> from <= r.value && At(s, r.value, pat)
    ensures forall i :: from <= i && (r.None? || i < r.value) ==> !At(s, i, pat)
    decreases |s| - from
  {
    if from + |pat| > |s| then None
    else if s[from..from + |pat|] == pat then Some(from)
    else IndexOfFrom(s, pat, from + 1)
  }

  /** `s.indexOf(pat)`, with `None` for -1. */
  function IndexOf(s: string, pat: string): (r: Option<nat>)
    ensures r.Some? ==> At(s, r.value, pat)
    ensures r.None? <==> !Occurs(s, pat)
    ensures r.Some? ==> forall i :: 0 <= i < r.value ==> !At(s, i, pat)
  {
    IndexOfFrom(s, pat, 0)
  }

  /**
   * `s.split(sep)[1]`: the text between the first and the second occurrence of `sep` (or the end),
   * `None` (JavaScript's `undefined`) when `sep` does not occur.
   */
  function SecondPiece(s: string, sep: string): (r: Option<string>)
    requires sep != []
    ensures r.None? <==> !Occurs(s, sep)
    ensures r.Some? ==> IndexOf(s, sep).Some? && PieceFrom(s, IndexOf(s, sep).value + |sep|, r.value, sep)
    ensures r.Some? ==> !Occurs(r.value, sep)
  {
    match IndexOf(s, sep)
    case None => None
    case Some(i) =>
      var start := i + |sep|;
      var piece := UpToFirst(s[start..], sep);
      PieceInPlace(s, start, sep);
      assert PieceFrom(s, start, piece, sep);
      Some(piece)
  }

  /**
   * `piece` is the text of `s` from `start` up to the next occurrence of `sep` or the end: it sits
   * there, no occurrence starts inside it, and one starts right after it unless `s` ends there.
   */
  predicate PieceFrom(s: string, start: nat, piece: string, sep: string) {
    start + |piece| <= |s| && piece == s[start..start + |piece|] &&
    (forall k :: start <= k < start + |piece| ==> !At(s, k, sep)) &&
    (start + |piece| == |s| || At(s, start + |piece|, sep))
  }

  /** The piece cut from a suffix of `s` sits in `s` itself, ended by `sep` or by the end of `s`. */
  lemma PieceInPlace(s: string, start: nat, sep: string)
    requires sep != [] && start <= |s|
    ensures PieceFrom(s, start, UpToFirst(s[start..], sep), sep)
  {
    var piece := UpToFirst(s[start..], sep);
    assert piece == s[start..start + |piece|];
    if start + |piece| < |s| {
      AtShifted(s, start, |piece|, sep);
    }
    forall k | start <= k < start + |piece| ensures !At(s, k, sep) {
      AtShifted(s, start, k - start, sep);
    }
  }

  /** The text of `s` before the first occurrence of `sep`, or all of it. */
  function UpToFirst(s: string, sep: string): (r: string)
    requires sep != []
    ensures |r| <= |s| && r == s[..|r|]
    ensures |r| < |s| ==> At(s, |r|, sep)
    ensures forall k :: 0 <= k < |r| ==> !At(s, k, sep)
    ensures !Occurs(r, sep)
  {
    match IndexOf(s, sep)
    case None => assert s[..|s|] == s; s
    case Some(j) => PrefixAvoids(s, j, sep); s[..j]
  }

  /** The text before the first occurrence of `sep` holds no occurrence of it. */
  lemma PrefixAvoids(s: string, j: nat, sep: string)
    requires sep != [] && j <= |s| && forall i :: 0 <= i < j ==> !At(s, i, sep)
    ensures !Occurs(s[..j], sep)
  {
    forall k | 0 <= k <= j && At(s[..j], k, sep) ensures false {
      assert s[..j][k..k + |sep|] == s[k..k + |sep|];
      assert At(s, k, sep);
    }
  }

  /** Occurrences in a suffix of `s` are the occurrences in `s`, shifted by where the suffix starts. */
  lemma AtShifted(s: string, start: nat, j: nat, sep: string)
    requires start <= |s|
    ensures At(s[start..], j, sep) <==> At(s, start + j, sep)
  {
    if start + j + |sep| <= |s| {
      assert s[start..][j..j + |sep|] == s[start + j..start + j + |sep|];
    }
  }

  predicate IsDigit(c: char) { '0' <= c <= '9' }

  predicate IsHexDigit(c: char) { IsDigit(c) || 'a' <= c <= 'f' || 'A' <= c <= 'F' }

  function DigitValue(c: char): (d: nat)
    requires IsHexDigit(c)
    ensures d < 16 && (IsDigit(c) ==> d < 10)
  {
    if IsDigit(c) then c as int - '0' as int
    else if 'a' <= c <= 'f' then c as int - 'a' as int + 10
    else c as int - 'A' as int + 10
  }

  /** The longest prefix of `s` whose characters are digits of the given radix (10 or 16). */
  function DigitPrefix(s: string, hex: bool): (r: string)
    ensures |r| <= |s| && r == s[..|r|]
    ensures forall k :: 0 <= k < |r| ==> if hex then IsHexDigit(r[k]) else IsDigit(r[k])
    ensures |r| < |s| ==> !(if hex then IsHexDigit(s[|r|]) else IsDigit(s[|r|]))
  {
    if s != [] && (if hex then IsHexDigit(s[0]) else IsDigit(s[0]))
    then [s[0]] + DigitPrefix(s[1..], hex)
    else []
  }

  /** The number a string of digits denotes, most significant digit first. */
  function DigitsValue(d: string, base: nat): nat
    requires base == 10 || base == 16
    requires forall k :: 0 <= k < |d| ==> if base == 16 then IsHexDigit(d[k]) else IsDigit(d[k])
  {
    if d == [] then 0 else DigitsValue(d[..|d| - 1], base) * base + DigitValue(d[|d| - 1])
  }

  /**
   * The number at the start of `u`, after any sign: a `0x`/`0X` prefix switches to radix 16, then
   * the longest run of digits is read; no digit at all is NaN.
   */
  function ParseUnsigned(u: string): (r: Option<nat>)
    ensures r.Some? ==> exists k :: 0 <= k < |u| && IsHexDigit(u[k])
  {
    var hex := |u| >= 2 && u[0] == '0' && (u[1] == 'x' || u[1] == 'X');
    var digits := DigitPrefix(if hex then u[2..] else u, hex);
    if digits == [] then None
    else
      assert IsHexDigit(u[if hex then 2 else 0]);
      Some(DigitsValue(digits, if hex then 16 else 10))
  }

  /**
   * `parseInt(s)` with no radix, `None` standing for NaN: leading white space is skipped, then an
   * optional sign, then the number.
   */
  function ParseInt(s: string): (r: Option<int>)
    ensures TrimStart(s) == [] ==> r.None?
  {
    var t := TrimStart(s);
    var signed := t != [] && (t[0] == '-' || t[0] == '+');
    match ParseUnsigned(if signed then t[1..] else t)
    case None => None
    case Some(m) =>
      var magnitude: int := m;
      Some(if signed && t[0] == '-' then -magnitude else magnitude)
  }

  /** The decimal numeral of `n`, as `${n}` renders an integer. */
  function Decimal(n: nat): (r: string)
    ensures r != [] && forall k :: 0 <= k < |r| ==> IsDigit(r[k])
    ensures n > 0 ==> r[0] != '0'
  {
    if n < 10 then ['0' + n as char]
    else Decimal(n / 10) + ['0' + (n % 10) as char]
  }

  /** Reading a rendered numeral gives the number back. */
  lemma {:induction false} DecimalValue(n: nat)
    ensures DigitsValue(Decimal(n), 10) == n
  {
    var d := Decimal(n);
    if n >= 10 {
      DecimalValue(n / 10);
      assert d[..|d| - 1] == Decimal(n / 10);
    }
  }

  /** The digit run read from a numeral followed by a non-digit is the numeral itself. */
  lemma {:induction false} DigitPrefixOfNumeral(d: string, rest: string)
    requires forall k :: 0 <= k < |d| ==> IsDigit(d[k])
    requires rest == [] || !IsDigit(rest[0])
    ensures DigitPrefix(d + rest, false) == d
  {
    if d != [] {
      assert (d + rest)[1..] == d[1..] + rest;
      DigitPrefixOfNumeral(d[1..], rest);
    } else {
      assert d + rest == rest;
    }
  }

  /** `parseInt` reads back a positive numeral followed by anything that does not start with a digit. */
  lemma ParseIntDecimal(n: nat, rest: string)
    requires n > 0
    requires rest == [] || !IsDigit(rest[0])
    ensures ParseInt(Decimal(n) + rest) == Some(n)
  {
    var d := Decimal(n);
    var s := d + rest;
    assert s[0] == d[0] && IsDigit(s[0]);
    TrimStartUnpadded(s);
    ParseUnsignedDecimal(n, rest);
  }

  lemma TrimStartUnpadded(s: string)
    requires s != [] && IsDigit(s[0])
    ensures TrimStart(s) == s
  {
  }

  lemma ParseUnsignedDecimal(n: nat, rest: string)
    requires n > 0
    requires rest == [] || !IsDigit(rest[0])
    ensures ParseUnsigned(Decimal(n) + rest) == Some(n)
  {
    var d := Decimal(n);
    assert (d + rest)[0] == d[0];
    DigitPrefixOfNumeral(d, rest);
    DecimalValue(n);
  }

  function ToLowerAscii(c: char): (r: char)
    ensures 'A' <= c <= 'Z' ==> 'a' <= r <= 'z'
    ensures !('A' <= c <= 'Z') ==> r == c
  {
    if 'A' <= c <= 'Z' then c - 'A' + 'a' else c
  }

  /** `s.toLowerCase()` for the letters A to Z (see README for the rest of Unicode). */
  function ToLower(s: string): (r: string)
    ensures |r| == |s| && forall k :: 0 <= k < |s| ==> r[k] == ToLowerAscii(s[k])
  {
    seq(|s|, k requires 0 <= k < |s| => ToLowerAscii(s[k]))
  }
}
