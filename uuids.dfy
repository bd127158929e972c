/** `java.util.UUID` as a 128-bit value with its canonical text form
    (`toString`: 32 lower-case hex digits grouped 8-4-4-4-12) and the parser
    `UUID.fromString` for 36-char dashed text. */
module Uuids {
  import opened Outcomes

  function Pow16(k: nat): (r: nat)
    ensures r >= 1
  {
    if k == 0 then 1 else 16 * Pow16(k - 1)
  }

  const UuidSpace: nat := Pow16(32)

  type Uuid = n: nat | n < UuidSpace witness 0

  function HexChar(d: nat): char
    requires d < 16
  {
    if d < 10 then (48 + d) as char else (87 + d) as char
  }

  /** Value of a hex digit, in either case; None for any other char. */
  function HexValue(c: char): (r: Option<nat>)
    ensures r.Some? ==> r.value < 16
  {
    if '0' <= c <= '9' then Some(c as int - 48)
    else if 'a' <= c <= 'f' then Some(c as int - 87)
    else if 'A' <= c <= 'F' then Some(c as int - 55)
    else None
  }

  lemma HexValueOfHexChar(d: nat)
    requires d < 16
    ensures HexValue(HexChar(d)) == Some(d)
  {
  }

  /** The `width` low hex digits of `n`, most significant first. */
  function Hex(n: nat, width: nat): (s: string)
    ensures |s| == width
  {
    if width == 0 then [] else Hex(n / 16, width - 1) + [HexChar(n % 16)]
  }

  /** Value of a string of hex digits; None when any char is not one. */
  function ParseHex(s: string): (r: Option<nat>)
    ensures r.Some? ==> r.value < Pow16(|s|)
  {
    if s == [] then Some(0)
    else
      match (ParseHex(s[..|s| - 1]), HexValue(s[|s| - 1]))
      case (Some(h), Some(d)) => Some(h * 16 + d)
      case _ => None
  }

  lemma {:induction false} ParseHexOfHex(n: nat, width: nat)
    requires n < Pow16(width)
    ensures ParseHex(Hex(n, width)) == Some(n)
  {
    if width > 0 {
      var s := Hex(n, width);
      assert s[..|s| - 1] == Hex(n / 16, width - 1);
      assert n / 16 < Pow16(width - 1);
      ParseHexOfHex(n / 16, width - 1);
      HexValueOfHexChar(n % 16);
    }
  }

  /** `uuid.toString()`. */
  function ToString(u: Uuid): (s: string)
    ensures |s| == 36
    ensures s[8] == '-' && s[13] == '-' && s[18] == '-' && s[23] == '-'
  {
    var h := Hex(u, 32);
    h[..8] + "-" + h[8..12] + "-" + h[12..16] + "-" + h[16..20] + "-" + h[20..]
  }

  /** The 32 digit chars of a dashed 36-char UUID text. */
  function DigitsOf(s: string): (d: string)
    requires |s| == 36
    ensures |d| == 32
  {
    s[..8] + s[9..13] + s[14..18] + s[19..23] + s[24..]
  }

  /** `UUID.fromString(s)`; None stands for the IllegalArgumentException it
      throws on text that is not a dashed UUID. */
  function FromString(s: string): (r: Option<Uuid>)
    ensures r.Some? ==> |s| == 36 && s[8] == '-' && s[13] == '-' && s[18] == '-' && s[23] == '-'
  {
    if |s| == 36 && s[8] == '-' && s[13] == '-' && s[18] == '-' && s[23] == '-' then
      match ParseHex(DigitsOf(s))
      case Some(n) => Some(n)
      case None => None
    else None
  }

  /** Reading back the text of a UUID gives the same UUID. */
  lemma {:induction false} FromStringOfToString(u: Uuid)
    ensures FromString(ToString(u)) == Some(u)
  {
    var h := Hex(u, 32);
    var s := ToString(u);
    assert DigitsOf(s) == h by {
      assert s[..8] == h[..8];
      assert s[9..13] == h[8..12];
      assert s[14..18] == h[12..16];
      assert s[19..23] == h[16..20];
      assert s[24..] == h[20..];
      assert h == h[..8] + h[8..12] + h[12..16] + h[16..20] + h[20..];
    }
    ParseHexOfHex(u, 32);
  }

  /** Distinct UUIDs have distinct texts. */
  lemma ToStringInjective(u: Uuid, v: Uuid)
    ensures ToString(u) == ToString(v) ==> u == v
  {
    FromStringOfToString(u);
    FromStringOfToString(v);
  }
}
