/**
 * The JavaScript string and number behaviour the dashboard code relies on:
 * truthiness of optional strings, `split`/`join`, `trim`, `toUpperCase`,
 * `Number.prototype.toString` on naturals and `padStart`.
 */
module JsText {
  import opened Wrappers

  /** JavaScript truthiness of a value typed `string | undefined | null`:
      only a present, non-empty string is truthy. */
  predicate Truthy(s: Option<string>)
    ensures Truthy(s) <==> s != None && s != Some("")
  {
    s.Some? && s.value != ""
  }

  /** `a || b` on optional strings: `a` when it is truthy, else `b` as it is. */
  function Or(a: Option<string>, b: Option<string>): (r: Option<string>)
    ensures r == a || r == b
    ensures Truthy(r) <==> Truthy(a) || Truthy(b)
    ensures Truthy(a) ==> r == a
  {
    if Truthy(a) then a else b
  }

  /** `s.startsWith(prefix)`: `s` is `prefix` followed by something. */
  predicate StartsWith(s: string, prefix: string)
    ensures StartsWith(s, prefix) <==> |prefix| <= |s| && s == prefix + s[|prefix|..]
  {
    |prefix| <= |s| && s[..|prefix|] == prefix
  }

  // ---------------------------------------------------------------------------
  // split / join

  /** `s.split(sep)` for a one-character separator: the pieces between
      separators, including empty ones, and always at least one piece. */
  function Split(s: string, sep: char): (pieces: seq<string>)
    ensures |pieces| >= 1
    ensures forall i :: 0 <= i < |pieces| ==> sep !in pieces[i]
    decreases |s|
  {
    if s == [] then [""]
    else if s[0] == sep then [""] + Split(s[1..], sep)
    else
      var rest := Split(s[1..], sep);
      [[s[0]] + rest[0]] + rest[1..]
  }

  /** `pieces.join(sep)`. */
  function Join(pieces: seq<string>, sep: string): (r: string)
    ensures |pieces| == 0 ==> r == ""
    ensures |pieces| >= 1 ==> StartsWith(r, pieces[0])
  {
    if |pieces| == 0 then ""
    else if |pieces| == 1 then pieces[0]
    else pieces[0] + sep + Join(pieces[1..], sep)
  }

  lemma JoinConsPrefix(c: char, pieces: seq<string>, sep: string)
    requires |pieces| >= 1
    ensures Join([[c] + pieces[0]] + pieces[1..], sep) == [c] + Join(pieces, sep)
  {
    var ps := [[c] + pieces[0]] + pieces[1..];
    assert ps[1..] == pieces[1..];
  }

  /** Splitting loses nothing: joining the pieces with the separator gives the string back. */
  lemma {:induction false} JoinSplit(s: string, sep: char)
    ensures Join(Split(s, sep), [sep]) == s
    decreases |s|
  {
    if s == [] {
    } else if s[0] == sep {
      JoinSplit(s[1..], sep);
      var ps := [""] + Split(s[1..], sep);
      assert ps[1..] == Split(s[1..], sep);
      assert s == [sep] + s[1..];
    } else {
      JoinSplit(s[1..], sep);
      JoinConsPrefix(s[0], Split(s[1..], sep), [sep]);
      assert s == [s[0]] + s[1..];
    }
  }

  // ---------------------------------------------------------------------------
  // trim

  /** The characters ECMAScript's `String.prototype.trim` removes: WhiteSpace
      (TAB, VT, FF, SP, NBSP, ZWNBSP and the Unicode space separators U+1680,
      U+2000 to U+200A, U+202F, U+205F, U+3000) and LineTerminator (LF, CR,
      LS, PS). */
  predicate IsWhiteSpace(c: char)
  {
    || c == '\t' || c == '\U{000B}' || c == '\U{000C}' || c == ' '
    || c == '\U{00A0}' || c == '\U{FEFF}' || c == '\U{1680}'
    || ('\U{2000}' <= c <= '\U{200A}')
    || c == '\U{202F}' || c == '\U{205F}' || c == '\U{3000}'
    || c == '\n' || c == '\r' || c == '\U{2028}' || c == '\U{2029}'
  }

  predicate IsBlank(s: string)
  {
    forall i :: 0 <= i < |s| ==> IsWhiteSpace(s[i])
  }

  function TrimStart(s: string): (r: string)
    ensures |r| <= |s| && r == s[|s| - |r|..]
    ensures r == [] || !IsWhiteSpace(r[0])
    ensures IsBlank(s[..|s| - |r|])
    decreases |s|
  {
    if s != [] && IsWhiteSpace(s[0]) then
      var tail := s[1..];
      var r := TrimStart(tail);
      BlankCons(s[0], tail[..|tail| - |r|]);
      assert s[..|s| - |r|] == [s[0]] + tail[..|tail| - |r|];
      assert r == s[|s| - |r|..];
      r
    else s
  }

  function TrimEnd(s: string): (r: string)
    ensures |r| <= |s| && r == s[..|r|]
    ensures r == [] || !IsWhiteSpace(r[|r| - 1])
    ensures IsBlank(s[|r|..])
    decreases |s|
  {
    if s != [] && IsWhiteSpace(s[|s| - 1]) then
      var init := s[..|s| - 1];
      var r := TrimEnd(init);
      BlankAppend(init[|r|..], s[|s| - 1]);
      assert s[|r|..] == init[|r|..] + [s[|s| - 1]];
      assert r == s[..|r|];
      r
    else s
  }

  lemma BlankCons(c: char, a: string)
    requires IsWhiteSpace(c) && IsBlank(a)
    ensures IsBlank([c] + a)
  {
    assert forall i :: 1 <= i < |a| + 1 ==> ([c] + a)[i] == a[i - 1];
  }

  lemma BlankAppend(a: string, c: char)
    requires IsBlank(a) && IsWhiteSpace(c)
    ensures IsBlank(a + [c])
  {
  }

  /** `s.trim()`: white space cut from the start, then from the end. What is
      left neither starts nor ends with white space. */
  function Trim(s: string): (r: string)
    ensures |r| <= |s|
    ensures r == [] || (!IsWhiteSpace(r[0]) && !IsWhiteSpace(r[|r| - 1]))
  {
    var t := TrimStart(s);
    var e := TrimEnd(t);
    assert e != [] ==> e[0] == t[0];
    e
  }

  /** `!s.trim()` holds exactly when every character of `s` is white space. */
  lemma TrimEmptyIffBlank(s: string)
    ensures Trim(s) == "" <==> IsBlank(s)
  {
    var t := TrimStart(s);
    assert s == s[..|s| - |t|] + t;
    if Trim(s) == "" {
      assert t[0..] == t;
    }
  }

  // ---------------------------------------------------------------------------
  // toUpperCase (ASCII letters)

  predicate IsLower(c: char)
  {
    'a' <= c <= 'z'
  }

  function UpperChar(c: char): char
  {
    if IsLower(c) then (c as int - 32) as char else c
  }

  /** `s.toUpperCase()` on a string: every ASCII lower-case letter becomes its
      capital, everything else is kept. */
  function ToUpper(s: string): (r: string)
    ensures |r| == |s|
    ensures forall i :: 0 <= i < |s| ==> r[i] == UpperChar(s[i])
    ensures forall i :: 0 <= i < |r| ==> !IsLower(r[i])
  {
    seq(|s|, i requires 0 <= i < |s| => UpperChar(s[i]))
  }

  // ---------------------------------------------------------------------------
  // Decimal numerals

  predicate IsDigit(c: char)
  {
    '0' <= c <= '9'
  }

  predicate IsDigits(s: string)
  {
    forall i :: 0 <= i < |s| ==> IsDigit(s[i])
  }

  function DigitChar(d: nat): (c: char)
    requires d < 10
    ensures IsDigit(c)
  {
    (48 + d) as char
  }

  function DigitValue(c: char): nat
  {
    if IsDigit(c) then c as int - 48 else 0
  }

  /** `String(n)` for a natural number: its decimal digits, with no leading zero. */
  function NatToDecimal(n: nat): (s: string)
    ensures |s| >= 1 && IsDigits(s)
    ensures |s| > 1 ==> s[0] != '0'
  {
    if n < 10 then [DigitChar(n)] else NatToDecimal(n / 10) + [DigitChar(n % 10)]
  }

  /** The value of a string of decimal digits (`parseInt(s, 10)` on such a string). */
  function ParseDecimal(s: string): nat
  {
    if s == [] then 0 else ParseDecimal(s[..|s| - 1]) * 10 + DigitValue(s[|s| - 1])
  }

  /** The decimal numeral of `n` reads back as `n`. */
  lemma {:induction false} ParseNatToDecimal(n: nat)
    ensures ParseDecimal(NatToDecimal(n)) == n
  {
    var s := NatToDecimal(n);
    if n < 10 {
      assert s[..|s| - 1] == [];
    } else {
      ParseNatToDecimal(n / 10);
      assert s[..|s| - 1] == NatToDecimal(n / 10);
    }
  }

  /** `s.padStart(width, c)`: `s` unchanged when it is at least `width` long,
      otherwise `s` preceded by enough copies of `c` to reach `width`. */
  function PadStart(s: string, width: nat, c: char): (r: string)
    ensures |r| == if |s| >= width then |s| else width
    ensures r[|r| - |s|..] == s
    ensures forall i :: 0 <= i < |r| - |s| ==> r[i] == c
  {
    if |s| >= width then s else seq(width - |s|, _ => c) + s
  }

  /** `String(i).padStart(2, '0')` for 0 <= i < 100: the tens digit, then the units digit. */
  function TwoDigits(i: nat): string
    requires i < 100
  {
    PadStart(NatToDecimal(i), 2, '0')
  }

  lemma TwoDigitsShape(i: nat)
    requires i < 100
    ensures TwoDigits(i) == [DigitChar(i / 10), DigitChar(i % 10)]
  {
    if i >= 10 {
      assert NatToDecimal(i / 10) == [DigitChar(i / 10)];
    }
  }

  lemma DigitValueOfChar(d: nat)
    requires d < 10
    ensures DigitValue(DigitChar(d)) == d
  {
  }

  /** The two-digit numeral of `i` has length 2 and reads back as `i`. */
  lemma TwoDigitsRoundTrip(i: nat)
    requires i < 100
    ensures |TwoDigits(i)| == 2 && IsDigits(TwoDigits(i))
    ensures ParseDecimal(TwoDigits(i)) == i
  {
    TwoDigitsShape(i);
    var q, u := i / 10, i % 10;
    DigitValueOfChar(q);
    DigitValueOfChar(u);
    var s := [DigitChar(q), DigitChar(u)];
    assert s[..1] == [DigitChar(q)] && s[..1][..0] == [];
    assert ParseDecimal(s[..1]) == q;
    assert ParseDecimal(s) == ParseDecimal(s[..1]) * 10 + DigitValue(s[1]);
    assert i == q * 10 + u;
  }
}
