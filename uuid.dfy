/// The text form of a UUID: what `format!("{}", id)` prints in
/// `AuthUser::get_id` and what Postgres's `id::text` yields, lower-case
/// hexadecimal grouped 8-4-4-4-12 with hyphens.
module Uuid {
  /// 16^k.
  function Pow16(k: nat): (r: nat)
    ensures r >= 1
  {
    if k == 0 then 1 else 16 * Pow16(k - 1)
  }

  /// A 128-bit identifier.
  type Uuid = n: nat | n < Pow16(32) witness 0

  const HEX_DIGITS := "0123456789abcdef"

  function HexChar(d: nat): (c: char)
    requires d < 16
    ensures HexValue(c) == d
  {
    HEX_DIGITS[d]
  }

  /// The value of a lower-case hexadecimal digit (0 for any other character).
  function HexValue(c: char): (d: nat)
    ensures d < 16
  {
    if '0' <= c <= '9' then (c - '0') as nat
    else if 'a' <= c <= 'f' then (c - 'a') as nat + 10
    else 0
  }

  /// The k low hexadecimal digits of n, most significant first.
  function HexDigits(n: nat, k: nat): (s: string)
    ensures |s| == k
  {
    if k == 0 then [] else HexDigits(n / 16, k - 1) + [HexChar(n % 16)]
  }

  /// The number a string of hexadecimal digits denotes.
  function ParseHex(s: string): nat
  {
    if s == [] then 0 else ParseHex(s[..|s| - 1]) * 16 + HexValue(s[|s| - 1])
  }

  lemma {:induction false} ParseHexDigits(n: nat, k: nat)
    requires n < Pow16(k)
    ensures ParseHex(HexDigits(n, k)) == n
  {
    if k > 0 {
      var s := HexDigits(n, k);
      var q, d := n / 16, n % 16;
      assert s == HexDigits(q, k - 1) + [HexChar(d)];
      assert s[..|s| - 1] == HexDigits(q, k - 1);
      assert HexValue(s[|s| - 1]) == d;
      assert q < Pow16(k - 1) by {
        assert n == q * 16 + d;
      }
      ParseHexDigits(q, k - 1);
      assert ParseHex(s) == q * 16 + d;
    }
  }

  /// The 32 hexadecimal digits split 8-4-4-4-12 by hyphens.
  function Hyphenate(h: string): (t: string)
    requires |h| == 32
    ensures |t| == 36
  {
    h[..8] + "-" + h[8..12] + "-" + h[12..16] + "-" + h[16..20] + "-" + h[20..]
  }

  /// The 32 digits of a 36-character hyphenated text.
  function Unhyphenate(t: string): (h: string)
    requires |t| == 36
    ensures |h| == 32
  {
    t[..8] + t[9..13] + t[14..18] + t[19..23] + t[24..]
  }

  lemma UnhyphenateHyphenate(h: string)
    requires |h| == 32
    ensures Unhyphenate(Hyphenate(h)) == h
  {
    var t := Hyphenate(h);
    assert t[..8] == h[..8];
    assert t[9..13] == h[8..12];
    assert t[14..18] == h[12..16];
    assert t[19..23] == h[16..20];
    assert t[24..] == h[20..];
    assert h == h[..8] + h[8..12] + h[12..16] + h[16..20] + h[20..];
  }

  /// `Display for Uuid`.
  function ToText(u: Uuid): (t: string)
    ensures |t| == 36
  {
    Hyphenate(HexDigits(u, 32))
  }

  /// Reads a hyphenated text back as a number.
  function FromText(t: string): nat
    requires |t| == 36
  {
    ParseHex(Unhyphenate(t))
  }

  /// The text form loses nothing: parsing it gives the identifier back.
  lemma TextRoundTrip(u: Uuid)
    ensures FromText(ToText(u)) == u
  {
    UnhyphenateHyphenate(HexDigits(u, 32));
    ParseHexDigits(u, 32);
  }

  /// Hence distinct identifiers have distinct texts.
  lemma TextInjective(a: Uuid, b: Uuid)
    ensures ToText(a) == ToText(b) <==> a == b
  {
    TextRoundTrip(a);
    TextRoundTrip(b);
  }
}
