/** MongoDB ObjectIds as the core sees them: twelve-byte values that travel in
    links and queries as 24 hexadecimal digits. `findById` casts the query text
    back to an ObjectId, and a text that is not 24 hex digits makes the cast
    throw. */
module ObjectIds {
  import opened Wrappers

  function Pow16(k: nat): (p: nat)
    ensures p >= 1
  {
    if k == 0 then 1 else 16 * Pow16(k - 1)
  }

  /** Number of hex digits in the text form of an ObjectId. */
  const IdDigits: nat := 24

  /** Twelve bytes, that is 16^24 = 2^96 possible ids. */
  type ObjectId = n: nat | n < Pow16(IdDigits)

  predicate IsLowerHexDigit(c: char) {
    '0' <= c <= '9' || 'a' <= c <= 'f'
  }

  predicate IsHexDigit(c: char) {
    '0' <= c <= '9' || 'a' <= c <= 'f' || 'A' <= c <= 'F'
  }

  function HexDigit(d: nat): (c: char)
    requires d < 16
    ensures IsLowerHexDigit(c)
  {
    if d < 10 then '0' + d as char else 'a' + (d - 10) as char
  }

  function DigitValue(c: char): (d: nat)
    requires IsHexDigit(c)
    ensures d < 16
  {
    if '0' <= c <= '9' then (c - '0') as nat
    else if 'a' <= c <= 'f' then (c - 'a') as nat + 10
    else (c - 'A') as nat + 10
  }

  lemma DigitRoundTrip(d: nat)
    requires d < 16
    ensures DigitValue(HexDigit(d)) == d
  {
  }

  /** `n` written with exactly `width` lower-case hex digits, most significant
      first, zero-padded on the left. */
  function Hex(n: nat, width: nat): (s: string)
    ensures |s| == width
    ensures forall i :: 0 <= i < |s| ==> IsLowerHexDigit(s[i])
  {
    if width == 0 then "" else Hex(n / 16, width - 1) + [HexDigit(n % 16)]
  }

  /** Reads hex digits (either case), most significant first; None when any
      character is not a hex digit. */
  function ParseHex(s: string): (r: Option<nat>)
    ensures r.Some? <==> forall i :: 0 <= i < |s| ==> IsHexDigit(s[i])
    ensures r.Some? ==> r.value < Pow16(|s|)
  {
    if |s| == 0 then Some(0)
    else
      var last := s[|s| - 1];
      if !IsHexDigit(last) then None
      else
        match ParseHex(s[..|s| - 1])
        case None => None
        case Some(v) => Some(v * 16 + DigitValue(last))
  }

  /** Reading back what `Hex` wrote gives the number, when it fits. */
  lemma {:induction false} HexRoundTrip(n: nat, width: nat)
    requires n < Pow16(width)
    ensures ParseHex(Hex(n, width)) == Some(n)
  {
    if width > 0 {
      var s := Hex(n, width);
      var front := Hex(n / 16, width - 1);
      assert s[..|s| - 1] == front && s[|s| - 1] == HexDigit(n % 16);
      assert n / 16 < Pow16(width - 1);
      HexRoundTrip(n / 16, width - 1);
      DigitRoundTrip(n % 16);
      assert ParseHex(s) == Some(n / 16 * 16 + n % 16);
    }
  }

  /** `ObjectId.toString()`: 24 lower-case hex digits. */
  function IdText(id: ObjectId): (s: string)
    ensures |s| == IdDigits
    ensures forall i :: 0 <= i < |s| ==> IsLowerHexDigit(s[i])
  {
    Hex(id, IdDigits)
  }

  /** The cast Mongoose applies to an id given as text: exactly 24 hex digits
      in either case; anything else is a cast failure. */
  function CastId(s: string): (r: Option<ObjectId>)
    ensures r.Some? <==> |s| == IdDigits && forall i :: 0 <= i < |s| ==> IsHexDigit(s[i])
  {
    if |s| != IdDigits then None
    else
      match ParseHex(s)
      case None => None
      case Some(v) => Some(v)
  }

  /** The text of an id casts back to the same id. */
  lemma CastIdText(id: ObjectId)
    ensures CastId(IdText(id)) == Some(id)
  {
    HexRoundTrip(id, IdDigits);
  }

  /** Different ids have different texts. */
  lemma IdTextInjective(a: ObjectId, b: ObjectId)
    ensures IdText(a) == IdText(b) <==> a == b
  {
    CastIdText(a);
    CastIdText(b);
  }
}
