/**
 * Shared vocabulary: optional values (JavaScript's `undefined`), the string
 * operations the controllers use (`split`, `join`, `toLowerCase`, `startsWith`),
 * the lower-case hexadecimal encoding of `Buffer.toString("hex")` and the
 * truncating integer division of `parseInt(x / d, 10)`.
 */
module Common {

  /** A value that may be `undefined`. */
  datatype Option<T> = None | Some(value: T)

  /** JavaScript truthiness of an optional string: defined and not empty. */
  predicate Truthy(s: Option<string>) {
    s.Some? && s.value != ""
  }

  /** `a || b` on optional strings. */
  function Or(a: Option<string>, b: Option<string>): (r: Option<string>)
    ensures Truthy(a) ==> r == a
    ensures !Truthy(a) ==> r == b
  {
    if Truthy(a) then a else b
  }

  /** `s.startsWith(prefix)`. */
  predicate StartsWith(s: string, prefix: string) {
    |prefix| <= |s| && s[..|prefix|] == prefix
  }

  // ---------------------------------------------------------------------------
  // split / join
  // ---------------------------------------------------------------------------

  /** `s.split(sep)` for a one-character separator: the pieces between separators,
      empty pieces included, and one piece for a string without separator. */
  function Split(s: string, sep: char): (parts: seq<string>)
    ensures |parts| >= 1
    ensures forall i :: 0 <= i < |parts| ==> sep !in parts[i]
    ensures |parts| - 1 == Occurrences(s, sep)
    decreases |s|
  {
    if s == [] then [""]
    else
      var rest := Split(s[1..], sep);
      if s[0] == sep then [""] + rest
      else [[s[0]] + rest[0]] + rest[1..]
  }

  /** Number of occurrences of `c` in `s`. */
  function Occurrences(s: string, c: char): nat {
    if s == [] then 0 else (if s[0] == c then 1 else 0) + Occurrences(s[1..], c)
  }

  /** `parts.join(sep)` for a one-character separator. */
  function Join(parts: seq<string>, sep: char): string {
    if |parts| == 0 then ""
    else if |parts| == 1 then parts[0]
    else parts[0] + [sep] + Join(parts[1..], sep)
  }

  /** `parts.join(sep)` for a separator of any length. */
  function JoinWith(parts: seq<string>, sep: string): string {
    if |parts| == 0 then ""
    else if |parts| == 1 then parts[0]
    else parts[0] + sep + JoinWith(parts[1..], sep)
  }

  /** Every occurrence of `from` replaced by `to`, everything else kept. */
  function ReplaceChar(s: string, from: char, to: char): (r: string)
    ensures |r| == |s|
    ensures forall i :: 0 <= i < |s| ==> r[i] == (if s[i] == from then to else s[i])
  {
    seq(|s|, i requires 0 <= i < |s| => if s[i] == from then to else s[i])
  }

  /** `s.split(from).join(to)` replaces every `from` by `to`. */
  lemma {:induction false} SplitJoin(s: string, from: char, to: char)
    ensures Join(Split(s, from), to) == ReplaceChar(s, from, to)
    decreases |s|
  {
    if s != [] {
      SplitJoin(s[1..], from, to);
      var rest := Split(s[1..], from);
      assert ReplaceChar(s, from, to) == [if s[0] == from then to else s[0]] + ReplaceChar(s[1..], from, to);
      if s[0] != from && |rest| > 1 {
        assert Join(rest, to) == rest[0] + [to] + Join(rest[1..], to);
        assert [[s[0]] + rest[0]] + rest[1..] == [[s[0]] + rest[0]] + rest[1..];
        assert ([[s[0]] + rest[0]] + rest[1..])[1..] == rest[1..];
      }
    }
  }

  /** Splitting at the first separator: the text before it is the first piece
      and the pieces of the rest follow. */
  lemma {:induction false} SplitAtSeparator(a: string, sep: char, b: string)
    requires sep !in a
    ensures Split(a + [sep] + b, sep) == [a] + Split(b, sep)
    decreases |a|
  {
    if a == [] {
      assert a + [sep] + b == [sep] + b;
      assert ([sep] + b)[1..] == b;
    } else {
      var s := a + [sep] + b;
      assert s[0] == a[0];
      assert s[1..] == a[1..] + [sep] + b;
      SplitAtSeparator(a[1..], sep, b);
      assert [a[0]] + a[1..] == a;
    }
  }

  /** A text without the separator is one piece. */
  lemma {:induction false} SplitWithoutSeparator(s: string, sep: char)
    requires sep !in s
    ensures Split(s, sep) == [s]
    decreases |s|
  {
    if s != [] {
      SplitWithoutSeparator(s[1..], sep);
      assert [s[0]] + s[1..] == s;
    }
  }

  /** Splitting and joining back with the same separator gives the string back. */
  lemma SplitJoinInverse(s: string, sep: char)
    ensures Join(Split(s, sep), sep) == s
  {
    SplitJoin(s, sep, sep);
    assert ReplaceChar(s, sep, sep) == s;
  }

  // ---------------------------------------------------------------------------
  // collections
  // ---------------------------------------------------------------------------

  /** The position of the first element that satisfies `p`, in the order the
      elements are stored (`findOne` without a sort). */
  function FirstMatch<T>(xs: seq<T>, p: T -> bool): (r: Option<nat>)
    ensures r.Some? ==> r.value < |xs| && p(xs[r.value])
    ensures r.Some? ==> forall j :: 0 <= j < r.value ==> !p(xs[j])
    ensures r.None? <==> forall j :: 0 <= j < |xs| ==> !p(xs[j])
  {
    if xs == [] then None
    else if p(xs[0]) then Some(0)
    else match FirstMatch(xs[1..], p)
      case None => None
      case Some(k) => Some(k + 1)
  }

  // ---------------------------------------------------------------------------
  // lower case, word characters
  // ---------------------------------------------------------------------------

  /** `toLowerCase` on ASCII letters. */
  function LowerChar(c: char): (r: char)
    ensures !('A' <= r <= 'Z')
  {
    if 'A' <= c <= 'Z' then (c as int + 32) as char else c
  }

  function ToLower(s: string): (r: string)
    ensures |r| == |s|
    ensures forall i :: 0 <= i < |s| ==> r[i] == LowerChar(s[i])
  {
    seq(|s|, i requires 0 <= i < |s| => LowerChar(s[i]))
  }

  /** Lower-casing twice changes nothing more. */
  lemma ToLowerIdempotent(s: string)
    ensures ToLower(ToLower(s)) == ToLower(s)
  {
  }

  /** A regular-expression word character `[A-Za-z0-9_]` (what `\b` separates). */
  predicate IsWordChar(c: char) {
    'a' <= c <= 'z' || 'A' <= c <= 'Z' || '0' <= c <= '9' || c == '_'
  }

  // ---------------------------------------------------------------------------
  // bytes and hexadecimal text
  // ---------------------------------------------------------------------------

  newtype byte = x: int | 0 <= x < 256

  predicate IsHexDigit(c: char) {
    '0' <= c <= '9' || 'a' <= c <= 'f'
  }

  /** The lower-case hexadecimal digit of a nibble. */
  function HexDigit(n: nat): (c: char)
    requires n < 16
    ensures IsHexDigit(c)
  {
    if n < 10 then (n + '0' as int) as char else (n - 10 + 'a' as int) as char
  }

  function HexValue(c: char): (n: nat)
    requires IsHexDigit(c)
    ensures n < 16 && HexDigit(n) == c
  {
    if '0' <= c <= '9' then c as int - '0' as int else c as int - 'a' as int + 10
  }

  /** `buffer.toString("hex")`: two lower-case hexadecimal digits per byte,
      high nibble first. */
  function HexEncode(bs: seq<byte>): (r: string)
    ensures |r| == 2 * |bs|
    ensures forall i :: 0 <= i < |r| ==> IsHexDigit(r[i])
  {
    if bs == [] then ""
    else [HexDigit(bs[0] as int / 16), HexDigit(bs[0] as int % 16)] + HexEncode(bs[1..])
  }

  function HexDecode(s: string): seq<byte>
    requires |s| % 2 == 0
    requires forall i :: 0 <= i < |s| ==> IsHexDigit(s[i])
  {
    if s == "" then []
    else [(HexValue(s[0]) * 16 + HexValue(s[1])) as byte] + HexDecode(s[2..])
  }

  /** The hexadecimal text determines the bytes: decoding gives them back. */
  lemma {:induction false} HexRoundTrip(bs: seq<byte>)
    ensures HexDecode(HexEncode(bs)) == bs
  {
    if bs != [] {
      HexRoundTrip(bs[1..]);
      var s := HexEncode(bs);
      var b := bs[0] as int;
      assert HexValue(HexDigit(b / 16)) == b / 16;
      assert HexValue(HexDigit(b % 16)) == b % 16;
      assert (HexValue(s[0]) * 16 + HexValue(s[1])) as byte == bs[0];
      assert s[2..] == HexEncode(bs[1..]);
    }
  }

  // ---------------------------------------------------------------------------
  // numbers
  // ---------------------------------------------------------------------------

  /** `parseInt(a / d, 10)`: JavaScript divides exactly and `parseInt` drops the
      fraction, which truncates toward zero (Dafny's `/` is Euclidean). */
  function TruncDiv(a: int, d: nat): (q: int)
    requires d > 0
    ensures a >= 0 ==> 0 <= q && q * d <= a < q * d + d
    ensures a < 0 ==> q <= 0 && q * d - d < a <= q * d
  {
    if a >= 0 then a / d else -((-a) / d)
  }

  predicate IsDigits(s: string) {
    |s| > 0 && forall i :: 0 <= i < |s| ==> '0' <= s[i] <= '9'
  }

  /** The value of a string of decimal digits. */
  function DigitsValue(s: string): nat
    requires forall i :: 0 <= i < |s| ==> '0' <= s[i] <= '9'
  {
    if s == [] then 0 else DigitsValue(s[..|s| - 1]) * 10 + (s[|s| - 1] as int - '0' as int)
  }

  /** The decimal text of a natural number, without leading zeros. */
  function NatToString(n: nat): (s: string)
    ensures IsDigits(s)
  {
    if n < 10 then [(n + '0' as int) as char]
    else NatToString(n / 10) + [(n % 10 + '0' as int) as char]
  }

  /** Reading back the decimal text of a number gives the number. */
  lemma {:induction false} NatToStringRoundTrip(n: nat)
    ensures DigitsValue(NatToString(n)) == n
  {
    if n >= 10 {
      NatToStringRoundTrip(n / 10);
      var s := NatToString(n);
      assert s[..|s| - 1] == NatToString(n / 10);
    }
  }
}
