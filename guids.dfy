/**
 * `System.Guid` as the modelled code uses it: 32 hexadecimal digits,
 * `Guid.Empty`, `ToString()` in the hyphenated "D" layout and `Guid.TryParse`
 * of that layout.
 */
module Guids {
  import opened Wrappers

  type Nibble = n: nat | n < 16

  /** A Guid as its 32 hexadecimal digits, most significant first. */
  type Guid = s: seq<Nibble> | |s| == 32 witness Zeros(32)

  /** `Guid.Empty`: all digits zero. */
  const Empty: Guid := Zeros(32)

  function Zeros(n: nat): (s: seq<Nibble>)
    ensures |s| == n
  {
    if n == 0 then [] else [0] + Zeros(n - 1)
  }

  function HexChar(d: Nibble): char {
    "0123456789abcdef"[d]
  }

  /** The digit a hexadecimal character stands for, in either case. */
  function HexValue(ch: char): (r: Option<Nibble>)
    ensures r.Some? <==> ('0' <= ch <= '9' || 'a' <= ch <= 'f' || 'A' <= ch <= 'F')
  {
    if '0' <= ch <= '9' then Some((ch - '0') as nat)
    else if 'a' <= ch <= 'f' then Some((ch - 'a') as nat + 10)
    else if 'A' <= ch <= 'F' then Some((ch - 'A') as nat + 10)
    else None
  }

  /** Lower-case hexadecimal rendering of a digit sequence. */
  function Hex(ds: seq<Nibble>): (s: string)
    ensures |s| == |ds|
    ensures forall i :: 0 <= i < |ds| ==> s[i] == HexChar(ds[i])
  {
    seq(|ds|, i requires 0 <= i < |ds| => HexChar(ds[i]))
  }

  /** Reads a string of hexadecimal characters; `None` if any character is not one. */
  function ParseHex(s: string): (r: Option<seq<Nibble>>)
    ensures r.Some? ==> |r.value| == |s|
  {
    if s == [] then Some([])
    else match HexValue(s[0])
      case None => None
      case Some(d) =>
        match ParseHex(s[1..])
        case None => None
        case Some(rest) => Some([d] + rest)
  }

  lemma {:induction false} ParseHexRoundTrip(ds: seq<Nibble>)
    ensures ParseHex(Hex(ds)) == Some(ds)
  {
    if ds != [] {
      var s := Hex(ds);
      assert s[1..] == Hex(ds[1..]);
      ParseHexRoundTrip(ds[1..]);
      assert HexValue(HexChar(ds[0])) == Some(ds[0]);
      assert ds == [ds[0]] + ds[1..];
    }
  }

  /** `Guid.ToString()`: "xxxxxxxx-xxxx-xxxx-xxxx-xxxxxxxxxxxx" in lower case. */
  function ToString(g: Guid): (s: string)
    ensures |s| == 36
  {
    var h := Hex(g);
    h[..8] + "-" + h[8..12] + "-" + h[12..16] + "-" + h[16..20] + "-" + h[20..]
  }

  /** The digit characters of a 36-character "D" layout string, hyphens removed. */
  function DigitsOf(s: string): string
    requires |s| == 36
  {
    s[..8] + s[9..13] + s[14..18] + s[19..23] + s[24..]
  }

  /** `Guid.TryParse` of the "D" layout: 36 characters, hyphens at 8, 13, 18, 23, hex elsewhere. */
  function TryParse(s: string): (r: Option<Guid>)
    ensures r.Some? ==> |s| == 36 && s[8] == '-' && s[13] == '-' && s[18] == '-' && s[23] == '-'
  {
    if |s| == 36 && s[8] == '-' && s[13] == '-' && s[18] == '-' && s[23] == '-' then
      match ParseHex(DigitsOf(s))
      case None => None
      case Some(ds) => Some(ds)
    else None
  }

  /** Every Guid survives `ToString` followed by `TryParse`. */
  lemma TryParseToString(g: Guid)
    ensures TryParse(ToString(g)) == Some(g)
  {
    var h := Hex(g);
    var s := ToString(g);
    assert s[8] == '-' && s[13] == '-' && s[18] == '-' && s[23] == '-';
    assert s[..8] == h[..8];
    assert s[9..13] == h[8..12];
    assert s[14..18] == h[12..16];
    assert s[19..23] == h[16..20];
    assert s[24..] == h[20..];
    assert DigitsOf(s) == h;
    ParseHexRoundTrip(g);
  }

  /** Consequently `ToString` is injective. */
  lemma ToStringInjective(g1: Guid, g2: Guid)
    requires ToString(g1) == ToString(g2)
    ensures g1 == g2
  {
    TryParseToString(g1);
    TryParseToString(g2);
  }
}
