/**
 * The JavaScript string operations the application relies on, over Dafny
 * strings (sequences of Unicode scalar values): startsWith is the sequence
 * prefix relation `<=`; this module adds includes, trim, split, Number(),
 * number formatting with padStart, case mapping, the code-unit order used by
 * Array.prototype.sort() and encodeURIComponent.
 */
module JsStrings {
  import opened Wrappers
  import Seqs

  // ---------------------------------------------------------------------------
  // Whitespace and trim

  /**
   * The characters matched by `\s` in a regular expression, which are also
   * the ones String.prototype.trim removes (WhiteSpace and LineTerminator).
   */
  predicate IsWhiteSpace(c: char)
  {
    var n := c as int;
    || n == 0x09 || n == 0x0A || n == 0x0B || n == 0x0C || n == 0x0D
    || n == 0x20 || n == 0xA0 || n == 0x1680 || (0x2000 <= n <= 0x200A)
    || n == 0x2028 || n == 0x2029 || n == 0x202F || n == 0x205F
    || n == 0x3000 || n == 0xFEFF
  }

  /** Length of the whitespace run at the start of `s`. */
  function LeadingWhiteSpace(s: string): (n: nat)
    ensures n <= |s|
    ensures forall k :: 0 <= k < n ==> IsWhiteSpace(s[k])
    ensures n < |s| ==> !IsWhiteSpace(s[n])
  {
    if s == [] || !IsWhiteSpace(s[0]) then 0 else 1 + LeadingWhiteSpace(s[1..])
  }

  /** Length of the whitespace run at the end of `s`. */
  function TrailingWhiteSpace(s: string): (n: nat)
    ensures n <= |s|
    ensures forall k :: |s| - n <= k < |s| ==> IsWhiteSpace(s[k])
    ensures n < |s| ==> !IsWhiteSpace(s[|s| - 1 - n])
  {
    if s == [] || !IsWhiteSpace(s[|s| - 1]) then 0 else 1 + TrailingWhiteSpace(s[..|s| - 1])
  }

  /** `r` is `s[i..j]` and everything outside `i..j` is whitespace. */
  ghost predicate TrimmedAt(s: string, r: string, i: nat, j: nat)
  {
    && i <= j <= |s| && r == s[i..j]
    && (forall k :: 0 <= k < i ==> IsWhiteSpace(s[k]))
    && (forall k :: j <= k < |s| ==> IsWhiteSpace(s[k]))
  }

  /**
   * `s.trim()`: `s` without its leading and trailing whitespace. The result
   * is a contiguous piece of `s`, everything cut away is whitespace, and the
   * result neither starts nor ends with whitespace.
   */
  function Trim(s: string): (r: string)
    ensures exists i: nat, j: nat :: TrimmedAt(s, r, i, j)
    ensures r != [] ==> !IsWhiteSpace(r[0]) && !IsWhiteSpace(r[|r| - 1])
  {
    var i := LeadingWhiteSpace(s);
    var t := s[i..];
    var n := TrailingWhiteSpace(t);
    var j := |t| - n;
    assert t[..j] == s[i..i + j];
    assert forall k :: i + j <= k < |s| ==> s[k] == t[k - i];
    assert TrimmedAt(s, t[..j], i, i + j);
    t[..j]
  }

  lemma TrimIdempotent(s: string)
    ensures Trim(Trim(s)) == Trim(s)
  {
    var r := Trim(s);
    if r != [] {
      assert LeadingWhiteSpace(r) == 0;
      assert TrailingWhiteSpace(r) == 0;
      assert r[0..] == r;
    }
  }

  /** A string trims to "" exactly when it is all whitespace. */
  lemma TrimEmptyIff(s: string)
    ensures Trim(s) == "" <==> forall k :: 0 <= k < |s| ==> IsWhiteSpace(s[k])
  {
    var i := LeadingWhiteSpace(s);
    var t := s[i..];
    if i < |s| {
      assert !IsWhiteSpace(t[0]);
      assert TrailingWhiteSpace(t) < |t|;
      assert Trim(s) != "";
    }
    if forall k :: 0 <= k < |s| ==> IsWhiteSpace(s[k]) {
      assert i == |s|;
    }
  }

  // ---------------------------------------------------------------------------
  // includes

  /** `t` occurs in `s` starting at index `i`. */
  predicate OccursAt(s: string, t: string, i: nat)
  {
    i + |t| <= |s| && s[i..i + |t|] == t
  }

  /** `s.includes(t)`: `t` occurs in `s` at some position. */
  function Includes(s: string, t: string): (b: bool)
    ensures b <==> exists i: nat :: OccursAt(s, t, i)
  {
    if |t| <= |s| && s[..|t|] == t then
      assert s[0..|t|] == t;
      assert OccursAt(s, t, 0);
      true
    else if s == [] then false
    else
      var b := Includes(s[1..], t);
      assert forall i: nat :: OccursAt(s, t, i + 1) <==> OccursAt(s[1..], t, i) by {
        forall i: nat ensures OccursAt(s, t, i + 1) <==> OccursAt(s[1..], t, i) {
          if i + 1 + |t| <= |s| {
            assert s[i + 1..i + 1 + |t|] == s[1..][i..i + |t|];
          }
        }
      }
      assert |t| <= |s| ==> s[0..|t|] == s[..|t|];
      assert forall i: nat :: OccursAt(s, t, i) ==> i == 0 || OccursAt(s[1..], t, i - 1);
      b
  }

  // ---------------------------------------------------------------------------
  // Case mapping (ASCII and Latin-1 letters)

  /** `toLowerCase` of one character, for A-Z and the Latin-1 capitals. */
  function LowerChar(c: char): char
  {
    var n := c as int;
    if ('A' as int <= n <= 'Z' as int) || (0xC0 <= n <= 0xDE && n != 0xD7) then (n + 32) as char else c
  }

  function ToLowerCase(s: string): (r: string)
    ensures |r| == |s|
    ensures forall k :: 0 <= k < |s| ==> r[k] == LowerChar(s[k])
  {
    if s == [] then [] else [LowerChar(s[0])] + ToLowerCase(s[1..])
  }

  /**
   * `toUpperCase` of one character, for a-z and the Latin-1 small letters:
   * 'ß' becomes "SS", 'ÿ' becomes U+0178 and 'µ' becomes U+039C.
   */
  function UpperChar(c: char): string
  {
    var n := c as int;
    if ('a' as int <= n <= 'z' as int) || (0xE0 <= n <= 0xFE && n != 0xF7) then [(n - 32) as char]
    else if n == 0xDF then "SS"
    else if n == 0xFF then [0x178 as char]
    else if n == 0xB5 then [0x39C as char]
    else [c]
  }

  function ToUpperCase(s: string): string
  {
    if s == [] then [] else UpperChar(s[0]) + ToUpperCase(s[1..])
  }

  lemma LowerCaseIdempotent(s: string)
    ensures ToLowerCase(ToLowerCase(s)) == ToLowerCase(s)
  {
  }

  // ---------------------------------------------------------------------------
  // split and join on a one-character separator

  function IndexOf(s: string, c: char): (r: Option<nat>)
    ensures r.Some? ==> r.value < |s| && s[r.value] == c && c !in s[..r.value]
    ensures r.None? ==> c !in s
  {
    Seqs.FindIndex(s, x => x == c)
  }

  /** `s.split(sep)` for a one-character separator. */
  function Split(s: string, sep: char): (parts: seq<string>)
    ensures |parts| >= 1
    ensures forall k :: 0 <= k < |parts| ==> sep !in parts[k]
    decreases |s|
  {
    match IndexOf(s, sep)
    case None => [s]
    case Some(k) => [s[..k]] + Split(s[k + 1..], sep)
  }

  /** `parts.join(sep)`. */
  function Join(parts: seq<string>, sep: char): string
    requires |parts| >= 1
  {
    if |parts| == 1 then parts[0] else parts[0] + [sep] + Join(parts[1..], sep)
  }

  /** Joining what split returned gives back the string. */
  lemma {:induction false} SplitJoin(s: string, sep: char)
    ensures Join(Split(s, sep), sep) == s
    decreases |s|
  {
    match IndexOf(s, sep)
    case None =>
    case Some(k) =>
      SplitJoin(s[k + 1..], sep);
      assert s == s[..k] + [sep] + s[k + 1..];
  }

  /** The first piece of a split is the text before the first separator. */
  lemma SplitHead(s: string, sep: char)
    ensures Split(s, sep)[0] <= s
    ensures sep !in Split(s, sep)[0]
    ensures |Split(s, sep)[0]| < |s| ==> s[|Split(s, sep)[0]|] == sep
    ensures sep !in s ==> Split(s, sep) == [s]
  {
  }

  /** Splitting `a + sep + b` where `a` has no separator. */
  lemma SplitAt(a: string, b: string, sep: char)
    requires sep !in a
    ensures Split(a + [sep] + b, sep) == [a] + Split(b, sep)
  {
    var s := a + [sep] + b;
    var k := IndexOf(s, sep);
    assert s[|a|] == sep;
    assert s[..|a|] == a && s[|a| + 1..] == b;
  }

  // ---------------------------------------------------------------------------
  // Decimal numerals: toString, padStart and Number()

  predicate IsDigit(c: char)
  {
    '0' <= c <= '9'
  }

  predicate AllDigits(s: string)
  {
    forall k :: 0 <= k < |s| ==> IsDigit(s[k])
  }

  /** The value of a string of decimal digits ("" counts as 0). */
  function DigitsValue(s: string): nat
    requires AllDigits(s)
  {
    if s == [] then 0 else DigitsValue(s[..|s| - 1]) * 10 + (s[|s| - 1] as int - '0' as int)
  }

  function DigitChar(d: nat): (c: char)
    requires d < 10
    ensures IsDigit(c) && c as int - '0' as int == d
  {
    (d + '0' as int) as char
  }

  /** `n.toString()` for a non-negative integer. */
  function NatToString(n: nat): (s: string)
    ensures AllDigits(s) && |s| >= 1
    ensures n < 10 ==> |s| == 1
    ensures 10 <= n < 100 ==> |s| == 2
  {
    if n < 10 then [DigitChar(n)] else NatToString(n / 10) + [DigitChar(n % 10)]
  }

  /** `i.toString()` for any integer. */
  function IntToString(i: int): string
  {
    if i < 0 then "-" + NatToString(-i) else NatToString(i)
  }

  /** `s.padStart(2, '0')`. */
  function PadStart2(s: string): (r: string)
    ensures |r| == if |s| >= 2 then |s| else 2
  {
    if |s| >= 2 then s else if |s| == 1 then "0" + s else "00"
  }

  lemma {:induction false} NatToStringValue(n: nat)
    ensures DigitsValue(NatToString(n)) == n
  {
    if n >= 10 {
      NatToStringValue(n / 10);
      var s := NatToString(n);
      assert s[..|s| - 1] == NatToString(n / 10);
    }
  }

  lemma {:induction false} LeadingZeroValue(s: string)
    requires AllDigits(s)
    ensures AllDigits("0" + s) && DigitsValue("0" + s) == DigitsValue(s)
    decreases |s|
  {
    if s != [] {
      var t := "0" + s;
      assert t[..|t| - 1] == "0" + s[..|s| - 1];
      LeadingZeroValue(s[..|s| - 1]);
    }
  }

  /**
   * `Number(s)` for the strings the time helpers meet: surrounding whitespace
   * is ignored, a blank string is 0, a run of decimal digits is its value,
   * anything else is NaN (None).
   */
  function JsNumber(s: string): (r: Option<int>)
    ensures r.Some? ==> r.value >= 0
  {
    var t := Trim(s);
    if AllDigits(t) then Some(DigitsValue(t)) else None
  }

  /** Number() parses back a zero-padded non-negative numeral. */
  lemma PaddedNumeralValue(n: nat)
    ensures JsNumber(PadStart2(NatToString(n))) == Some(n)
  {
    var s := NatToString(n);
    NatToStringValue(n);
    var p := PadStart2(s);
    if |s| == 1 {
      LeadingZeroValue(s);
    }
    assert AllDigits(p);
    TrimDigits(p);
  }

  /** A numeral has no whitespace to trim. */
  lemma TrimDigits(s: string)
    requires AllDigits(s)
    ensures Trim(s) == s
  {
    if s != [] {
      assert !IsWhiteSpace(s[0]);
      assert LeadingWhiteSpace(s) == 0;
      assert s[0..] == s;
      assert !IsWhiteSpace(s[|s| - 1]);
      assert TrailingWhiteSpace(s) == 0;
    }
  }

  // ---------------------------------------------------------------------------
  // The default order of Array.prototype.sort(): by UTF-16 code units

  /** The UTF-16 code units of `s`. */
  function Utf16(s: string): seq<int>
  {
    if s == [] then []
    else
      var n := s[0] as int;
      (if n < 0x10000 then [n] else [0xD800 + (n - 0x10000) / 0x400, 0xDC00 + (n - 0x10000) % 0x400])
      + Utf16(s[1..])
  }

  /** `s.length`: the number of UTF-16 code units. */
  function JsLength(s: string): (n: nat)
    ensures |s| <= n <= 2 * |s|
    ensures n == |Utf16(s)|
  {
    if s == [] then 0 else (if s[0] as int < 0x10000 then 1 else 2) + JsLength(s[1..])
  }

  /** Lexicographic order on code-unit sequences (a prefix comes first). */
  predicate LexLe(a: seq<int>, b: seq<int>)
  {
    a == [] || (b != [] && (a[0] < b[0] || (a[0] == b[0] && LexLe(a[1..], b[1..]))))
  }

  predicate CodeUnitLe(a: string, b: string)
  {
    LexLe(Utf16(a), Utf16(b))
  }

  lemma {:induction false} LexLeTotal(a: seq<int>, b: seq<int>)
    ensures LexLe(a, b) || LexLe(b, a)
  {
    if a != [] && b != [] && a[0] == b[0] {
      LexLeTotal(a[1..], b[1..]);
    }
  }

  lemma {:induction false} LexLeTrans(a: seq<int>, b: seq<int>, c: seq<int>)
    requires LexLe(a, b) && LexLe(b, c)
    ensures LexLe(a, c)
  {
    if a != [] && a[0] == b[0] && b[0] == c[0] {
      LexLeTrans(a[1..], b[1..], c[1..]);
    }
  }

  /** The sort order on strings is a total preorder, so sorting by it is meaningful. */
  lemma CodeUnitLeTotalPreorder()
    ensures Seqs.TotalPreorder(CodeUnitLe)
  {
    forall a, b ensures CodeUnitLe(a, b) || CodeUnitLe(b, a) {
      LexLeTotal(Utf16(a), Utf16(b));
    }
    forall a, b, c | CodeUnitLe(a, b) && CodeUnitLe(b, c) ensures CodeUnitLe(a, c) {
      LexLeTrans(Utf16(a), Utf16(b), Utf16(c));
    }
  }

  // ---------------------------------------------------------------------------
  // encodeURIComponent

  /** The characters encodeURIComponent leaves alone. */
  predicate IsUriUnreserved(c: char)
  {
    ('A' <= c <= 'Z') || ('a' <= c <= 'z') || ('0' <= c <= '9')
    || c == '-' || c == '_' || c == '.' || c == '!' || c == '~' || c == '*' || c == '\'' || c == '(' || c == ')'
  }

  /** The UTF-8 bytes of a Unicode scalar value. */
  function Utf8(n: int): (bytes: seq<int>)
    requires 0 <= n < 0x110000
    ensures 1 <= |bytes| <= 4
    ensures forall k :: 0 <= k < |bytes| ==> 0 <= bytes[k] < 256
  {
    if n < 0x80 then [n]
    else if n < 0x800 then [0xC0 + n / 0x40, 0x80 + n % 0x40]
    else if n < 0x10000 then [0xE0 + n / 0x1000, 0x80 + (n / 0x40) % 0x40, 0x80 + n % 0x40]
    else [0xF0 + n / 0x40000, 0x80 + (n / 0x1000) % 0x40, 0x80 + (n / 0x40) % 0x40, 0x80 + n % 0x40]
  }

  function HexDigit(d: int): (c: char)
    requires 0 <= d < 16
    ensures IsUriUnreserved(c)
  {
    "0123456789ABCDEF"[d]
  }

  function PercentEncode(bytes: seq<int>): (r: string)
    requires forall k :: 0 <= k < |bytes| ==> 0 <= bytes[k] < 256
    ensures |r| == 3 * |bytes|
    ensures forall k :: 0 <= k < |r| ==> r[k] == '%' || IsUriUnreserved(r[k])
  {
    if bytes == [] then []
    else ['%', HexDigit(bytes[0] / 16), HexDigit(bytes[0] % 16)] + PercentEncode(bytes[1..])
  }

  /**
   * `encodeURIComponent(s)`: unreserved characters stay, every other
   * character becomes the percent-escapes of its UTF-8 bytes, in upper-case
   * hexadecimal. The result contains nothing but unreserved characters and
   * '%', so it cannot break out of a query-string value.
   */
  function EncodeURIComponent(s: string): (r: string)
    ensures forall k :: 0 <= k < |r| ==> r[k] == '%' || IsUriUnreserved(r[k])
    ensures (forall k :: 0 <= k < |s| ==> IsUriUnreserved(s[k])) ==> r == s
  {
    if s == [] then []
    else
      (if IsUriUnreserved(s[0]) then [s[0]] else PercentEncode(Utf8(s[0] as int)))
      + EncodeURIComponent(s[1..])
  }

}
