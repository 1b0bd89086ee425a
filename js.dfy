/** The JavaScript string and number behaviour that the route handlers and the
    pages depend on: `trim`, `slice`, `split(":")`, `toLowerCase`, rendering an
    integer in decimal, and `parseInt(s, 16)`. */
module Js {

  import opened Wrappers

  /** The characters `String.prototype.trim` removes: ECMAScript WhiteSpace and
      LineTerminator code points. */
  predicate IsWhite(c: char) {
    || ('\t' <= c <= '\r')  // tab, line feed, vertical tab, form feed, carriage return
    || c == ' ' || c == '\U{A0}' || c == '\U{1680}'
    || ('\U{2000}' <= c <= '\U{200A}')
    || c == '\U{2028}' || c == '\U{2029}' || c == '\U{202F}' || c == '\U{205F}'
    || c == '\U{3000}' || c == '\U{FEFF}'
  }

  predicate AllWhite(s: string) {
    forall i :: 0 <= i < |s| ==> IsWhite(s[i])
  }

  /** How many white characters `s` starts with. */
  function LeadingWhite(s: string): (n: nat)
    ensures n <= |s|
    ensures forall i :: 0 <= i < n ==> IsWhite(s[i])
    ensures n < |s| ==> !IsWhite(s[n])
  {
    if |s| > 0 && IsWhite(s[0]) then 1 + LeadingWhite(s[1..]) else 0
  }

  /** How many white characters `s` ends with. */
  function TrailingWhite(s: string): (n: nat)
    ensures n <= |s|
    ensures forall i :: |s| - n <= i < |s| ==> IsWhite(s[i])
    ensures n < |s| ==> !IsWhite(s[|s| - n - 1])
  {
    if |s| > 0 && IsWhite(s[|s| - 1]) then 1 + TrailingWhite(s[..|s| - 1]) else 0
  }

  /** `s.trimStart()`: drops the leading white characters and nothing else. */
  function TrimStart(s: string): (r: string)
    ensures r == [] || !IsWhite(r[0])
  {
    s[LeadingWhite(s)..]
  }

  /** `s.trim()`: the part of `s` between its leading and trailing white
      characters; it is empty exactly when `s` is all white. */
  function Trim(s: string): (r: string)
    ensures LeadingWhite(s) + |r| <= |s|
    ensures forall i :: 0 <= i < |r| ==> r[i] == s[LeadingWhite(s) + i]
    ensures forall i :: LeadingWhite(s) + |r| <= i < |s| ==> IsWhite(s[i])
    ensures r == [] || (!IsWhite(r[0]) && !IsWhite(r[|r| - 1]))
    ensures r == [] <==> AllWhite(s)
  {
    var t := TrimStart(s);
    t[..|t| - TrailingWhite(t)]
  }

  /** The index `String.prototype.slice` computes from a relative position:
      a negative position counts from the end; the result is clamped to
      `0..len`. */
  function RelativeIndex(len: nat, k: int): (r: nat)
    ensures r <= len
    ensures 0 <= k <= len ==> r == k
    ensures k < 0 && len + k >= 0 ==> r == len + k
  {
    if k < 0 then (if len + k < 0 then 0 else len + k) else if k > len then len else k
  }

  /** `s.slice(start, end)`. */
  function Slice(s: string, start: int, end: int): (r: string)
    ensures |r| <= |s|
    ensures RelativeIndex(|s|, start) < RelativeIndex(|s|, end) ==>
              r == s[RelativeIndex(|s|, start)..RelativeIndex(|s|, end)]
    ensures RelativeIndex(|s|, end) <= RelativeIndex(|s|, start) ==> r == []
  {
    var from, to := RelativeIndex(|s|, start), RelativeIndex(|s|, end);
    if from < to then s[from..to] else []
  }

  /** `s.slice(start)`. */
  function SliceFrom(s: string, start: int): (r: string)
    ensures r == s[RelativeIndex(|s|, start)..]
  {
    Slice(s, start, |s|)
  }

  // ---------------------------------------------------------------------------
  // split

  /** Joins the parts with `sep` between neighbours (`parts.join(sep)`). */
  function Join(parts: seq<string>, sep: char): string
    requires |parts| >= 1
  {
    if |parts| == 1 then parts[0] else parts[0] + [sep] + Join(parts[1..], sep)
  }

  /** `s.split(sep)` for a one-character separator: at least one part, no part
      holds the separator, and joining the parts gives back `s`. */
  function Split(s: string, sep: char): (r: seq<string>)
    ensures |r| >= 1
    ensures forall i :: 0 <= i < |r| ==> sep !in r[i]
    ensures Join(r, sep) == s
  {
    if |s| == 0 then [""]
    else
      var rest := Split(s[1..], sep);
      if s[0] == sep then
        [""] + rest
      else
        assert rest[1..] == rest[1..] && |rest| >= 1;
        JoinConsFirst(rest, s[0], sep);
        [[s[0]] + rest[0]] + rest[1..]
  }

  lemma JoinConsFirst(parts: seq<string>, c: char, sep: char)
    requires |parts| >= 1
    ensures Join([[c] + parts[0]] + parts[1..], sep) == [c] + Join(parts, sep)
  {
    var q := [[c] + parts[0]] + parts[1..];
    assert q[1..] == parts[1..];
  }

  /** Splitting a join of separator-free parts gives back exactly those parts;
      so a string has only one split. */
  lemma {:induction false} SplitJoin(parts: seq<string>, sep: char)
    requires |parts| >= 1
    requires forall i :: 0 <= i < |parts| ==> sep !in parts[i]
    ensures Split(Join(parts, sep), sep) == parts
  {
    if |parts| == 1 {
      SplitNoSep(parts[0], sep);
    } else {
      var tail := Join(parts[1..], sep);
      SplitJoin(parts[1..], sep);
      SplitPrefix(parts[0], tail, sep);
      assert [parts[0]] + parts[1..] == parts;
    }
  }

  lemma {:induction false} SplitNoSep(s: string, sep: char)
    requires sep !in s
    ensures Split(s, sep) == [s]
  {
    if |s| > 0 {
      SplitNoSep(s[1..], sep);
      assert [s[0]] + s[1..] == s;
    }
  }

  lemma {:induction false} SplitPrefix(w: string, t: string, sep: char)
    requires sep !in w
    ensures Split(w + [sep] + t, sep) == [w] + Split(t, sep)
  {
    if |w| == 0 {
      assert w + [sep] + t == [sep] + t;
      assert ([sep] + t)[1..] == t;
    } else {
      var s := w + [sep] + t;
      assert s[1..] == w[1..] + [sep] + t;
      SplitPrefix(w[1..], t, sep);
      assert [w[0]] + w[1..] == w;
    }
  }

  // ---------------------------------------------------------------------------
  // case

  /** Lower-cases an ASCII capital letter and keeps every other character. */
  function LowerChar(c: char): (r: char)
    ensures 'A' <= c <= 'Z' ==> r as int == c as int + 32
    ensures !('A' <= c <= 'Z') ==> r == c
  {
    if 'A' <= c <= 'Z' then (c as int + 32) as char else c
  }

  /** `s.toLowerCase()` on ASCII letters. */
  function ToLower(s: string): (r: string)
    ensures |r| == |s|
    ensures forall i :: 0 <= i < |s| ==> r[i] == LowerChar(s[i])
  {
    seq(|s|, i requires 0 <= i < |s| => LowerChar(s[i]))
  }

  /** Lower-casing twice is lower-casing once. */
  lemma ToLowerIdempotent(s: string)
    ensures ToLower(ToLower(s)) == ToLower(s)
  {
  }

  // ---------------------------------------------------------------------------
  // decimal

  predicate IsDigit(c: char) {
    '0' <= c <= '9'
  }

  function DigitChar(d: nat): (c: char)
    requires d < 10
    ensures IsDigit(c) && (c as int) - ('0' as int) == d
  {
    ('0' as int + d) as char
  }

  /** The decimal digits of `n` with no leading zero (`String(n)`). */
  function NatToString(n: nat): (r: string)
    ensures |r| >= 1
    ensures forall i :: 0 <= i < |r| ==> IsDigit(r[i])
    ensures |r| > 1 ==> r[0] != '0'
  {
    if n < 10 then [DigitChar(n)] else NatToString(n / 10) + [DigitChar(n % 10)]
  }

  /** `String(i)` and `i.toString()` for an integer (also a bigint). */
  function IntToString(i: int): (r: string)
    ensures |r| >= 1
    ensures i >= 0 ==> r == NatToString(i)
    ensures i < 0 ==> r == "-" + NatToString(-i)
  {
    if i < 0 then "-" + NatToString(-i) else NatToString(i)
  }

  /** The value of a string of decimal digits. */
  function DecimalValue(s: string): nat
    requires forall i :: 0 <= i < |s| ==> IsDigit(s[i])
  {
    if |s| == 0 then 0
    else
      assert IsDigit(s[|s| - 1]);
      10 * DecimalValue(s[..|s| - 1]) + ((s[|s| - 1] as int) - ('0' as int))
  }

  /** Reading the decimal rendering back gives the number. */
  lemma {:induction false} DecimalRoundTrip(n: nat)
    ensures DecimalValue(NatToString(n)) == n
  {
    if n >= 10 {
      var s := NatToString(n);
      assert s[..|s| - 1] == NatToString(n / 10);
      DecimalRoundTrip(n / 10);
    }
  }

  /** Distinct numbers have distinct decimal renderings. */
  lemma NatToStringInjective(m: nat, n: nat)
    requires NatToString(m) == NatToString(n)
    ensures m == n
  {
    DecimalRoundTrip(m);
    DecimalRoundTrip(n);
  }

  /** The value an integer's rendering stands for: an optional minus sign and
      decimal digits. */
  function SignedDecimalValue(s: string): int
    requires |s| >= 1
    requires s[0] == '-' ==> forall i :: 1 <= i < |s| ==> IsDigit(s[i])
    requires s[0] != '-' ==> forall i :: 0 <= i < |s| ==> IsDigit(s[i])
  {
    if s[0] == '-' then -(DecimalValue(s[1..]) as int) else DecimalValue(s)
  }

  /** Reading `IntToString(i)` back as a signed decimal gives `i`. */
  lemma IntToStringRoundTrip(i: int)
    ensures SignedDecimalValue(IntToString(i)) == i
  {
    if i < 0 {
      assert IntToString(i)[1..] == NatToString(-i);
      DecimalRoundTrip(-i);
    } else {
      DecimalRoundTrip(i);
    }
  }

  // ---------------------------------------------------------------------------
  // hexadecimal: parseInt(s, 16)

  /** The value of a hexadecimal digit (either case), or None. */
  function HexDigitValue(c: char): (r: Option<nat>)
    ensures r.Some? ==> r.value < 16
    ensures r.Some? <==> (IsDigit(c) || 'a' <= c <= 'f' || 'A' <= c <= 'F')
  {
    if IsDigit(c) then Some(c as int - '0' as int)
    else if 'a' <= c <= 'f' then Some(c as int - 'a' as int + 10)
    else if 'A' <= c <= 'F' then Some(c as int - 'A' as int + 10)
    else None
  }

  predicate IsHexDigit(c: char) {
    HexDigitValue(c).Some?
  }

  predicate AllHex(s: string) {
    forall i :: 0 <= i < |s| ==> IsHexDigit(s[i])
  }

  /** The longest prefix of `s` made of hexadecimal digits. */
  function HexPrefix(s: string): (r: string)
    ensures |r| <= |s| && r == s[..|r|]
    ensures AllHex(r)
    ensures |r| < |s| ==> !IsHexDigit(s[|r|])
  {
    if |s| > 0 && IsHexDigit(s[0]) then
      var t := HexPrefix(s[1..]);
      assert [s[0]] + t == s[..1 + |t|];
      [s[0]] + t
    else []
  }

  /** The value of a string of hexadecimal digits, most significant first. */
  function HexValue(s: string): nat
    requires AllHex(s)
  {
    if |s| == 0 then 0
    else 16 * HexValue(s[..|s| - 1]) + HexDigitValue(s[|s| - 1]).value
  }

  /** `parseInt(s, 16)`: leading white space, an optional sign, an optional
      `0x`/`0X` prefix, then the longest run of hexadecimal digits; `None`
      stands for `NaN` (no digit at all). */
  function ParseHexInt(s: string): (r: Option<int>)
    ensures r.Some? <==> |HexPrefix(StripHexPrefix(StripSign(TrimStart(s)).1))| > 0
  {
    var (negative, unsigned) := StripSign(TrimStart(s));
    var digits := HexPrefix(StripHexPrefix(unsigned));
    if |digits| == 0 then None
    else if negative then Some(-(HexValue(digits) as int))
    else Some(HexValue(digits))
  }

  function StripSign(s: string): (r: (bool, string))
    ensures r.0 <==> (|s| > 0 && s[0] == '-')
    ensures r.1 == if |s| > 0 && (s[0] == '-' || s[0] == '+') then s[1..] else s
  {
    if |s| > 0 && s[0] == '-' then (true, s[1..])
    else if |s| > 0 && s[0] == '+' then (false, s[1..])
    else (false, s)
  }

  function StripHexPrefix(s: string): (r: string)
    ensures r == if |s| >= 2 && s[0] == '0' && (s[1] == 'x' || s[1] == 'X') then s[2..] else s
  {
    if |s| >= 2 && s[0] == '0' && (s[1] == 'x' || s[1] == 'X') then s[2..] else s
  }

  /** Lower-case hexadecimal digit for `d < 16`. */
  function HexChar(d: nat): (c: char)
    requires d < 16
    ensures HexDigitValue(c) == Some(d)
  {
    if d < 10 then DigitChar(d) else ('a' as int + d - 10) as char
  }

  /** The lower-case hexadecimal digits of `n` (`n.toString(16)`). */
  function ToHex(n: nat): (r: string)
    ensures |r| >= 1 && AllHex(r)
  {
    if n < 16 then [HexChar(n)] else ToHex(n / 16) + [HexChar(n % 16)]
  }

  /** Reading the hexadecimal rendering back gives the number. */
  lemma {:induction false} HexValueOfToHex(n: nat)
    ensures HexValue(ToHex(n)) == n
  {
    if n >= 16 {
      var s := ToHex(n);
      assert s[..|s| - 1] == ToHex(n / 16);
      HexValueOfToHex(n / 16);
    }
  }

  lemma {:induction false} HexPrefixOfAllHex(s: string)
    requires AllHex(s)
    ensures HexPrefix(s) == s
  {
    if |s| > 0 {
      HexPrefixOfAllHex(s[1..]);
      assert [s[0]] + s[1..] == s;
    }
  }

  /** `k` zero digits. */
  function Zeros(k: nat): (r: string)
    ensures |r| == k && AllHex(r)
  {
    seq(k, _ => '0')
  }

  lemma {:induction false} HexValueOfZeros(k: nat)
    ensures HexValue(Zeros(k)) == 0
  {
    if k > 0 {
      assert Zeros(k)[..k - 1] == Zeros(k - 1);
      HexValueOfZeros(k - 1);
    }
  }

  /** Leading zero digits do not change a hexadecimal value. */
  lemma {:induction false} HexValueLeadingZeros(k: nat, s: string)
    requires AllHex(s)
    ensures AllHex(Zeros(k) + s) && HexValue(Zeros(k) + s) == HexValue(s)
  {
    var t := Zeros(k) + s;
    assert forall i :: 0 <= i < |t| ==> IsHexDigit(t[i]) by {
      forall i | 0 <= i < |t| ensures IsHexDigit(t[i]) {
        if i < k { assert t[i] == Zeros(k)[i]; } else { assert t[i] == s[i - k]; }
      }
    }
    if |s| == 0 {
      assert t == Zeros(k);
      HexValueOfZeros(k);
    } else {
      assert t[..|t| - 1] == Zeros(k) + s[..|s| - 1];
      assert t[|t| - 1] == s[|s| - 1];
      HexValueLeadingZeros(k, s[..|s| - 1]);
    }
  }

  /** `parseInt("0x" + "0".repeat(k) + n.toString(16), 16)` is `n`: a token
      id written as zero-padded hexadecimal reads back as its number. */
  lemma ParseHexIntOfPaddedHex(k: nat, n: nat)
    ensures ParseHexInt("0x" + Zeros(k) + ToHex(n)) == Some(n)
  {
    var digits := Zeros(k) + ToHex(n);
    var s := "0x" + Zeros(k) + ToHex(n);
    assert s == "0x" + digits;
    assert TrimStart(s) == s;
    assert StripSign(s) == (false, s);
    assert StripHexPrefix(s) == digits;
    HexValueLeadingZeros(k, ToHex(n));
    HexPrefixOfAllHex(digits);
    HexValueOfToHex(n);
  }
}
