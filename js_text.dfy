/** The JavaScript string built-ins the core relies on: `trim`, `toLowerCase`, `includes`,
    `startsWith`, `replace` with a string pattern, and `parseInt`. Strings are sequences of
    characters; JavaScript's UTF-16 code units are not distinguished from characters. */
module JsText {
  import opened Wrappers

  /** The characters `String.prototype.trim` removes: ECMAScript's WhiteSpace (tab, vertical
      tab, form feed, space, no-break space, the byte-order mark and the space separators of
      Unicode category Zs) and LineTerminator (line feed, carriage return, U+2028, U+2029). */
  predicate IsWhite(c: char) {
    c == '\t' || c == '\n' || c == '\U{000B}' || c == '\U{000C}' || c == '\r' || c == ' '
    || c == '\U{00A0}' || c == '\U{1680}' || ('\U{2000}' <= c <= '\U{200A}')
    || c == '\U{2028}' || c == '\U{2029}' || c == '\U{202F}' || c == '\U{205F}'
    || c == '\U{3000}' || c == '\U{FEFF}'
  }

  /** `s.trimStart()`. */
  function TrimStart(s: string): string {
    if s != [] && IsWhite(s[0]) then TrimStart(s[1..]) else s
  }

  /** `s.trimEnd()`. */
  function TrimEnd(s: string): string {
    if s != [] && IsWhite(s[|s| - 1]) then TrimEnd(s[..|s| - 1]) else s
  }

  /** `trimStart` drops a run of white space from the front and stops at the first other
      character. */
  lemma {:induction false} TrimStartShape(s: string)
    ensures var r := TrimStart(s);
      && |r| <= |s| && r == s[|s| - |r|..]
      && (r == [] || !IsWhite(r[0]))
      && forall i :: 0 <= i < |s| - |r| ==> IsWhite(s[i])
  {
    if s != [] && IsWhite(s[0]) {
      var t := s[1..];
      var r := TrimStart(t);
      TrimStartShape(t);
      assert t[|t| - |r|..] == s[|s| - |r|..];
      assert forall i :: 0 < i < |s| ==> s[i] == t[i - 1];
    }
  }

  /** `trimEnd` drops a run of white space from the back and stops at the last other character. */
  lemma {:induction false} TrimEndShape(s: string)
    ensures var r := TrimEnd(s);
      && |r| <= |s| && r == s[..|r|]
      && (r == [] || !IsWhite(r[|r| - 1]))
      && forall i :: |r| <= i < |s| ==> IsWhite(s[i])
  {
    if s != [] && IsWhite(s[|s| - 1]) {
      var t := s[..|s| - 1];
      var r := TrimEnd(t);
      TrimEndShape(t);
      assert t[..|r|] == s[..|r|];
      assert forall i :: 0 <= i < |t| ==> s[i] == t[i];
    }
  }

  /** `s.trim()`. */
  function Trim(s: string): string {
    TrimEnd(TrimStart(s))
  }

  /** `!s.trim()`: the text is all white space, so nothing is left once it is trimmed
      (`BlankIffTrimmedEmpty`). */
  predicate IsBlank(s: string) {
    forall i :: 0 <= i < |s| ==> IsWhite(s[i])
  }

  lemma {:induction false} AllWhiteTrimStart(s: string)
    requires forall i :: 0 <= i < |s| ==> IsWhite(s[i])
    ensures TrimStart(s) == []
  {
    if s != [] {
      AllWhiteTrimStart(s[1..]);
    }
  }

  /** A string is blank exactly when trimming it leaves nothing. */
  lemma BlankIffTrimmedEmpty(s: string)
    ensures IsBlank(s) <==> Trim(s) == []
  {
    if IsBlank(s) {
      AllWhiteTrimStart(s);
    }
    if Trim(s) == [] {
      var t := TrimStart(s);
      TrimStartShape(s);
      TrimEndShape(t);
      assert t == [];
    }
  }

  /** Trimming keeps a contiguous slice of the text, so it never lengthens it. */
  lemma TrimSlice(s: string)
    ensures exists i, j :: 0 <= i <= j <= |s| && Trim(s) == s[i..j]
    ensures |Trim(s)| <= |s|
  {
    var t := TrimStart(s);
    var r := TrimEnd(t);
    TrimStartShape(s);
    TrimEndShape(t);
    var i := |s| - |t|;
    assert r == s[i..][..|r|] == s[i..i + |r|];
  }

  /** A trimmed text starts and ends on a character that is not white space. */
  lemma TrimEndsNonWhite(s: string)
    ensures Trim(s) == [] || (!IsWhite(Trim(s)[0]) && !IsWhite(Trim(s)[|Trim(s)| - 1]))
  {
    var t := TrimStart(s);
    var r := TrimEnd(t);
    TrimStartShape(s);
    TrimEndShape(t);
    if r != [] {
      assert r[0] == t[0];
    }
  }

  /** Trimming twice is trimming once. */
  lemma TrimIdempotent(s: string)
    ensures Trim(Trim(s)) == Trim(s)
  {
    var r := Trim(s);
    TrimEndsNonWhite(s);
    assert TrimStart(r) == r;
    assert TrimEnd(r) == r;
  }

  function LowerChar(c: char): (r: char)
    ensures 'A' <= c <= 'Z' ==> 'a' <= r <= 'z'
    ensures !('A' <= c <= 'Z') ==> r == c
  {
    if 'A' <= c <= 'Z' then (c as int - 'A' as int + 'a' as int) as char else c
  }

  /** `s.toLowerCase()` on the ASCII letters. */
  function ToLower(s: string): (r: string)
    ensures |r| == |s|
    ensures forall i :: 0 <= i < |s| ==> r[i] == LowerChar(s[i])
  {
    seq(|s|, i requires 0 <= i < |s| => LowerChar(s[i]))
  }

  lemma ToLowerIdempotent(s: string)
    ensures ToLower(ToLower(s)) == ToLower(s)
  {
  }

  /** `s.startsWith(p)`. */
  predicate StartsWith(s: string, p: string) {
    |p| <= |s| && s[..|p|] == p
  }

  /** `s.includes(sub)`, searched left to right. */
  predicate Includes(s: string, sub: string)
    decreases |s|
  {
    StartsWith(s, sub) || (s != [] && Includes(s[1..], sub))
  }

  /** `sub` occurs in `s` at position `i`. */
  predicate OccursAt(s: string, sub: string, i: int) {
    0 <= i && i + |sub| <= |s| && s[i..i + |sub|] == sub
  }

  /** `includes` holds exactly when the pattern occurs at some position. */
  lemma {:induction false} IncludesIffOccurs(s: string, sub: string)
    ensures Includes(s, sub) <==> exists i :: OccursAt(s, sub, i)
    decreases |s|
  {
    if StartsWith(s, sub) {
      assert OccursAt(s, sub, 0);
    } else if s != [] {
      IncludesIffOccurs(s[1..], sub);
      if Includes(s[1..], sub) {
        var i :| OccursAt(s[1..], sub, i);
        OccursShift(s, sub, i);
      }
      forall i | OccursAt(s, sub, i) ensures Includes(s[1..], sub) {
        OccursShift(s, sub, i - 1);
      }
    }
  }

  /** `s.replace(pat, rep)` with a string pattern: only the first occurrence is replaced. */
  function ReplaceFirst(s: string, pat: string, rep: string): string
    decreases |s|
  {
    if StartsWith(s, pat) then rep + s[|pat|..]
    else if s == [] then s
    else [s[0]] + ReplaceFirst(s[1..], pat, rep)
  }

  /** Occurrences in the tail of `s` are the occurrences in `s` one position further on. */
  lemma OccursShift(s: string, sub: string, j: int)
    requires s != [] && j >= 0
    ensures OccursAt(s[1..], sub, j) <==> OccursAt(s, sub, j + 1)
  {
    if j + |sub| <= |s| - 1 {
      assert s[1..][j..j + |sub|] == s[j + 1..j + 1 + |sub|];
    }
  }

  /** When the first occurrence of `pat` is at `i`, the replacement cuts exactly there. */
  lemma {:induction false} ReplaceFirstAt(s: string, pat: string, rep: string, i: nat)
    requires OccursAt(s, pat, i)
    requires forall j :: 0 <= j < i ==> !OccursAt(s, pat, j)
    ensures ReplaceFirst(s, pat, rep) == s[..i] + rep + s[i + |pat|..]
    decreases |s|
  {
    if i == 0 {
      assert StartsWith(s, pat);
    } else {
      assert !OccursAt(s, pat, 0);
      forall j | 0 <= j < i - 1 ensures !OccursAt(s[1..], pat, j) {
        OccursShift(s, pat, j);
      }
      OccursShift(s, pat, i - 1);
      ReplaceFirstAt(s[1..], pat, rep, i - 1);
      calc {
        ReplaceFirst(s, pat, rep);
        [s[0]] + ReplaceFirst(s[1..], pat, rep);
        [s[0]] + (s[1..][..i - 1] + rep + s[1..][i - 1 + |pat|..]);
        { assert [s[0]] + s[1..][..i - 1] == s[..i]; assert s[1..][i - 1 + |pat|..] == s[i + |pat|..]; }
        s[..i] + rep + s[i + |pat|..];
      }
    }
  }

  /** When `pat` does not occur, the string comes back unchanged. */
  lemma {:induction false} ReplaceFirstAbsent(s: string, pat: string, rep: string)
    requires !Includes(s, pat)
    ensures ReplaceFirst(s, pat, rep) == s
    decreases |s|
  {
    if s != [] {
      ReplaceFirstAbsent(s[1..], pat, rep);
    }
  }

  // ---------------------------------------------------------------- parseInt

  predicate IsDigit(c: char) { '0' <= c <= '9' }

  function DigitValue(c: char): (d: nat)
    requires IsDigit(c)
    ensures d < 10
  {
    c as int - '0' as int
  }

  function DigitChar(d: nat): (c: char)
    requires d < 10
    ensures IsDigit(c) && DigitValue(c) == d
  {
    ('0' as int + d) as char
  }

  /** `c` read as a digit of base 36: 0-9, then the letters a-z in either case for 10-35. */
  function LetterDigit(c: char): (d: Option<nat>)
    ensures d.Some? ==> d.value < 36
    ensures IsDigit(c) ==> d == Some(DigitValue(c))
    ensures d.Some? && d.value < 10 ==> IsDigit(c)
  {
    if IsDigit(c) then Some(DigitValue(c))
    else if 'a' <= c <= 'z' then Some(c as int - 'a' as int + 10)
    else if 'A' <= c <= 'Z' then Some(c as int - 'A' as int + 10)
    else None
  }

  predicate IsDigitIn(c: char, radix: nat) {
    LetterDigit(c).Some? && LetterDigit(c).value < radix
  }

  predicate AllDigitsIn(ds: string, radix: nat) {
    forall i :: 0 <= i < |ds| ==> IsDigitIn(ds[i], radix)
  }

  /** Length of the run of base-`radix` digits that starts `s`. */
  function DigitRun(s: string, radix: nat): (n: nat)
    ensures n <= |s|
    ensures forall i :: 0 <= i < n ==> IsDigitIn(s[i], radix)
    ensures n < |s| ==> !IsDigitIn(s[n], radix)
  {
    if s != [] && IsDigitIn(s[0], radix) then 1 + DigitRun(s[1..], radix) else 0
  }

  /** The value of a string of base-`radix` digits, most significant first. */
  function DigitsValue(ds: string, radix: nat): nat
    requires forall i :: 0 <= i < |ds| ==> IsDigitIn(ds[i], radix)
  {
    if ds == [] then 0
    else
      var init, last := ds[..|ds| - 1], ds[|ds| - 1];
      assert forall i :: 0 <= i < |init| ==> init[i] == ds[i];
      assert IsDigitIn(last, radix);
      var high := DigitsValue(init, radix);
      ProductNonNegative(radix, high);
      radix * high + LetterDigit(last).value
  }


  lemma ProductNonNegative(a: nat, b: nat)
    ensures a * b >= 0
  {
  }

  /** `parseInt(s)` without a radix: leading white space, an optional sign, then either "0x" or
      "0X" and the longest run of hexadecimal digits, or the longest run of decimal digits;
      `None` is `NaN`, the result when no digit follows. */
  function ParseInt(s: string): Option<int> {
    var t := TrimStart(s);
    var neg := t != [] && t[0] == '-';
    var body := if t != [] && (t[0] == '-' || t[0] == '+') then t[1..] else t;
    var hex := |body| >= 2 && body[0] == '0' && (body[1] == 'x' || body[1] == 'X');
    var radix := if hex then 16 else 10;
    var digits := if hex then body[2..] else body;
    var n := DigitRun(digits, radix);
    if n == 0 then None
    else if neg then Some(-(DigitsValue(digits[..n], radix) as int))
    else Some(DigitsValue(digits[..n], radix))
  }

  /** `parseInt(s) || 0`: `NaN` (and zero) read as 0. */
  function ParseIntOrZero(s: string): int {
    match ParseInt(s)
    case Some(v) => v
    case None => 0
  }

  /** The decimal text of a natural number, as `String(n)` writes it. */
  function NatText(n: nat): (r: string)
    ensures r != [] && forall i :: 0 <= i < |r| ==> IsDigit(r[i])
  {
    if n < 10 then [DigitChar(n)] else NatText(n / 10) + [DigitChar(n % 10)]
  }

  lemma {:induction false} NatTextValue(n: nat)
    ensures DigitsValue(NatText(n), 10) == n
  {
    if n >= 10 {
      var r := NatText(n);
      assert r[..|r| - 1] == NatText(n / 10);
      NatTextValue(n / 10);
    }
  }

  /** `parseInt` reads back the number a decimal text was written from, whatever non-digit text
      follows it (the `%` of a stored discount such as "20%", for instance), unless the text is
      "0" and an `x` follows, which starts a hexadecimal number. */
  lemma ParseIntNatText(n: nat, suffix: string)
    requires suffix == [] || (!IsDigit(suffix[0]) && (n != 0 || (suffix[0] != 'x' && suffix[0] != 'X')))
    ensures ParseInt(NatText(n) + suffix) == Some(n)
    ensures ParseIntOrZero(NatText(n) + suffix) == n
  {
    var s := NatText(n) + suffix;
    var k := |NatText(n)|;
    assert !(|s| >= 2 && s[0] == '0' && (s[1] == 'x' || s[1] == 'X')) by {
      if n >= 10 {
        assert k >= 2 && IsDigit(s[1]);
      } else if n != 0 {
        assert s[0] == DigitChar(n);
      }
    }
    assert s[..k] == NatText(n);
    ParseIntDecimal(s, k);
    NatTextValue(n);
  }

  /** A text that starts with a run of `k` decimal digits, and not with "0x" or "0X", is read
      as the value of those digits. */
  lemma ParseIntDecimal(s: string, k: nat)
    requires 0 < k <= |s|
    requires forall i :: 0 <= i < k ==> IsDigit(s[i])
    requires k == |s| || !IsDigit(s[k])
    requires !(|s| >= 2 && s[0] == '0' && (s[1] == 'x' || s[1] == 'X'))
    ensures forall i :: 0 <= i < k ==> IsDigitIn(s[..k][i], 10)
    ensures ParseInt(s) == Some(DigitsValue(s[..k], 10))
  {
    assert !IsWhite(s[0]) && s[0] != '-' && s[0] != '+' by { assert IsDigit(s[0]); }
    assert TrimStart(s) == s;
    DigitRunOf(s, k, 10);
  }

  /** Without a radix, "0x" or "0X" switches `parseInt` to hexadecimal: a text that starts with
      the prefix and then a run of `k` hexadecimal digits is read as the value of those digits,
      and as `NaN` when the run is empty. */
  lemma ParseIntHexDigits(s: string, k: nat)
    requires |s| >= 2 + k && s[0] == '0' && (s[1] == 'x' || s[1] == 'X')
    requires forall i :: 2 <= i < 2 + k ==> IsDigitIn(s[i], 16)
    requires 2 + k == |s| || !IsDigitIn(s[2 + k], 16)
    ensures AllDigitsIn(s[2..2 + k], 16)
    ensures ParseInt(s) == if k == 0 then None else Some(DigitsValue(s[2..2 + k], 16))
  {
    assert TrimStart(s) == s by { assert !IsWhite(s[0]); }
    DigitRunOf(s[2..], k, 16);
    assert s[2..][..k] == s[2..2 + k];
  }

  lemma {:induction false} DigitRunOf(s: string, k: nat, radix: nat)
    requires k <= |s|
    requires forall i :: 0 <= i < k ==> IsDigitIn(s[i], radix)
    requires k == |s| || !IsDigitIn(s[k], radix)
    ensures DigitRun(s, radix) == k
  {
    if k > 0 {
      DigitRunOf(s[1..], k - 1, radix);
    }
  }
}
