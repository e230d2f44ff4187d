/**
  The JavaScript built-ins the application relies on, stated in Dafny's terms:
  the optional, error and number values a JS program passes around, the string
  operations `substring`, `slice` and `startsWith`, and the base-16 conversions
  `Number.prototype.toString(16)` and `parseInt(s, 16)`.
 */
module Js {

  datatype Option<+T> = None | Some(value: T)

  /** A thrown JS error: an optional numeric `code` (as wallet RPC errors carry)
      and an optional `message` (None stands for `undefined`). */
  datatype JsError = JsError(code: Option<int>, message: Option<string>)

  /** The settled value of an awaited call: a value, or the error it threw. */
  datatype Result<+T> = Ok(value: T) | Err(error: JsError)

  /** The settled state of an awaited call that yields nothing useful. */
  datatype Outcome = Done | Failed(error: JsError)

  /** `new Error(message)` */
  function Error(message: string): (e: JsError)
    ensures e.code.None? && e.message == Some(message)
  {
    JsError(None, Some(message))
  }

  /** `err.message || fallback`: the error's message when it has a non-empty
      one, otherwise the fallback text. */
  function MessageOr(e: JsError, fallback: string): (m: string)
    ensures Truthy(e.message) ==> m == e.message.value
    ensures !Truthy(e.message) ==> m == fallback
  {
    if e.message.Some? && e.message.value != "" then e.message.value else fallback
  }

  /** A JS number as far as this application produces one: an integer, or NaN. */
  datatype Number = Int(value: int) | NaN

  function Min(a: int, b: int): int { if a <= b then a else b }
  function Max(a: int, b: int): int { if a <= b then b else a }

  /** An index argument clamped into [0, len], as `substring` does. */
  function Clamp(i: int, len: nat): (r: nat)
    ensures r <= len
    ensures 0 <= i <= len ==> r == i
    ensures i < 0 ==> r == 0
    ensures len < i ==> r == len
  {
    if i < 0 then 0 else if i > len then len else i
  }

  /** `s.substring(start, end)`: both indices clamped into [0, |s|], swapped if
      out of order. */
  function Substring(s: string, start: int, end: int): (r: string)
    ensures |r| <= |s|
    ensures 0 <= start <= end <= |s| ==> r == s[start..end]
    ensures end <= start && start <= |s| && 0 <= end ==> r == s[end..start]
    ensures var a, b := Clamp(start, |s|), Clamp(end, |s|);
            r == s[Min(a, b)..Max(a, b)]
  {
    var a, b := Clamp(start, |s|), Clamp(end, |s|);
    if a <= b then s[a..b] else s[b..a]
  }

  /** `s.substring(start)` */
  function SubstringFrom(s: string, start: int): (r: string)
    ensures r == s[Clamp(start, |s|)..]
  {
    Substring(s, start, |s|)
  }

  /** A `slice` index: a negative one counts from the end; the result is in [0, len]. */
  function SliceIndex(i: int, len: nat): (r: nat)
    ensures r <= len
    ensures 0 <= i <= len ==> r == i
    ensures i < 0 && 0 <= len + i ==> r == len + i
  {
    if i < 0 then Max(len + i, 0) else Min(i, len)
  }

  /** `s.slice(start, end)` on a string or an array: negative indices count
      from the end; empty when the start lies at or after the end. */
  function Slice<T>(s: seq<T>, start: int, end: int): (r: seq<T>)
    ensures |r| <= |s|
    ensures SliceIndex(start, |s|) <= SliceIndex(end, |s|) ==>
              r == s[SliceIndex(start, |s|)..SliceIndex(end, |s|)]
    ensures SliceIndex(end, |s|) < SliceIndex(start, |s|) ==> r == []
  {
    var a, b := SliceIndex(start, |s|), SliceIndex(end, |s|);
    if a < b then s[a..b] else []
  }

  /** `s.slice(start)` */
  function SliceFrom<T>(s: seq<T>, start: int): (r: seq<T>)
    ensures r == s[SliceIndex(start, |s|)..]
  {
    Slice(s, start, |s|)
  }

  /** `!!s` for a string that may be null: present and non-empty. */
  predicate Truthy(s: Option<string>)
    ensures Truthy(s) <==> s != None && s != Some("")
  {
    s.Some? && s.value != ""
  }

  /** `s.startsWith(prefix)` */
  predicate StartsWith(s: string, prefix: string)
    ensures StartsWith(s, prefix) <==> exists rest :: s == prefix + rest
  {
    if |prefix| <= |s| && s[..|prefix|] == prefix then
      assert s == prefix + s[|prefix|..];
      true
    else
      assert forall rest :: (prefix + rest)[..|prefix|] == prefix;
      false
  }

  // ---------------------------------------------------------------------------
  // Base 16

  const LowerHexDigits: string := "0123456789abcdef"

  /** The value of a radix-16 digit as `parseInt` reads it (either case). */
  function DigitValue(c: char): (d: int)
    ensures -1 <= d < 16
  {
    if '0' <= c <= '9' then c as int - '0' as int
    else if 'a' <= c <= 'f' then c as int - 'a' as int + 10
    else if 'A' <= c <= 'F' then c as int - 'A' as int + 10
    else -1
  }

  predicate IsHexDigit(c: char) { DigitValue(c) >= 0 }

  /** The value of a string of hex digits, most significant first. */
  function HexValue(s: string): (v: nat)
    requires forall i :: 0 <= i < |s| ==> IsHexDigit(s[i])
    decreases |s|
  {
    if s == [] then 0
    else
      assert IsHexDigit(s[|s| - 1]);
      HexValue(s[..|s| - 1]) * 16 + DigitValue(s[|s| - 1])
  }

  /** `n.toString(16)` for a non-negative integer: lower-case digits, no
      padding, "0" for zero. */
  function ToHexString(n: nat): (r: string)
    ensures |r| >= 1
    ensures forall i :: 0 <= i < |r| ==> r[i] in LowerHexDigits
    ensures n > 0 ==> r[0] != '0'
    ensures n == 0 ==> r == "0"
    decreases n
  {
    if n < 16 then [LowerHexDigits[n]]
    else ToHexString(n / 16) + [LowerHexDigits[n % 16]]
  }

  /** The whitespace that `parseInt` skips before the number. */
  predicate IsJsSpace(c: char)
  {
    c == ' ' || c == '\t' || c == '\n' || c == '\r' || c == '\U{B}' || c == '\U{C}'
    || c == '\U{A0}' || c == '\U{1680}' || ('\U{2000}' <= c <= '\U{200A}')
    || c == '\U{2028}' || c == '\U{2029}' || c == '\U{202F}' || c == '\U{205F}'
    || c == '\U{3000}' || c == '\U{FEFF}'
  }

  /** `s` with its leading whitespace removed. */
  function TrimStart(s: string): (r: string)
    ensures |r| <= |s| && r == s[|s| - |r|..]
    ensures r == [] || !IsJsSpace(r[0])
    decreases |s|
  {
    if s != [] && IsJsSpace(s[0]) then TrimStart(s[1..]) else s
  }

  /** The length of the longest prefix of `s` made of hex digits. */
  function HexRun(s: string): (n: nat)
    ensures n <= |s|
    ensures forall i :: 0 <= i < n ==> IsHexDigit(s[i])
    ensures n < |s| ==> !IsHexDigit(s[n])
    decreases |s|
  {
    if s != [] && IsHexDigit(s[0]) then 1 + HexRun(s[1..]) else 0
  }

  /** `t` without a leading sign character. */
  function StripSign(t: string): string
  {
    if t != [] && (t[0] == '-' || t[0] == '+') then t[1..] else t
  }

  /** `u` without a leading `0x` or `0X`. */
  function StripHexPrefix(u: string): string
  {
    if |u| >= 2 && u[0] == '0' && (u[1] == 'x' || u[1] == 'X') then u[2..] else u
  }

  /** `parseInt(s, 16)`: skip leading whitespace, take an optional sign, drop
      an optional `0x`/`0X` prefix, then read the longest run of hex digits;
      NaN when that run is empty. (JS would answer -0 for "-0"; here it is 0.) */
  function ParseIntHex(s: string): (r: Number)
    ensures r.NaN? <==> HexRun(StripHexPrefix(StripSign(TrimStart(s)))) == 0
    ensures r.Int? && r.value < 0 ==> TrimStart(s)[0] == '-'
  {
    var t := TrimStart(s);
    var v := StripHexPrefix(StripSign(t));
    var n := HexRun(v);
    var digits := v[..n];
    if n == 0 then NaN
    else if t[0] == '-' then Int(-(HexValue(digits) as int))
    else Int(HexValue(digits))
  }

  /** Every character `toString(16)` produces is one `parseInt` reads as a digit
      of the same value. */
  lemma LowerHexDigitValue(d: nat)
    requires d < 16
    ensures DigitValue(LowerHexDigits[d]) == d
  {
  }

  /** Reading the digits of `n.toString(16)` gives back `n`. */
  lemma {:induction false} HexValueOfToHexString(n: nat)
    ensures forall i :: 0 <= i < |ToHexString(n)| ==> IsHexDigit(ToHexString(n)[i])
    ensures HexValue(ToHexString(n)) == n
    decreases n
  {
    var r := ToHexString(n);
    forall i | 0 <= i < |r| ensures IsHexDigit(r[i]) {
      var k :| 0 <= k < 16 && LowerHexDigits[k] == r[i];
      LowerHexDigitValue(k);
    }
    if n < 16 {
      LowerHexDigitValue(n);
      assert r[..0] == [];
    } else {
      var prefix := ToHexString(n / 16);
      HexValueOfToHexString(n / 16);
      assert r[..|r| - 1] == prefix;
      LowerHexDigitValue(n % 16);
    }
  }

  /** A string made only of hex digits is read to its end. */
  lemma {:induction false} HexRunOfDigits(s: string)
    requires forall i :: 0 <= i < |s| ==> IsHexDigit(s[i])
    ensures HexRun(s) == |s|
    decreases |s|
  {
    if s != [] {
      assert IsHexDigit(s[0]);
      HexRunOfDigits(s[1..]);
    }
  }

  /** The round trip the wallet handlers rely on: `parseInt("0x" + n.toString(16), 16)`
      is `n` for every non-negative integer `n`. */
  lemma HexRoundTrip(n: nat)
    ensures ParseIntHex("0x" + ToHexString(n)) == Int(n)
  {
    var h := ToHexString(n);
    var s := "0x" + h;
    HexValueOfToHexString(n);
    HexRunOfDigits(h);
    assert s[0] == '0';
    assert TrimStart(s) == s;
    assert StripSign(s) == s;
    assert StripHexPrefix(s) == h by { assert s[1] == 'x' && s[2..] == h; }
    assert h[..HexRun(h)] == h;
  }
}
