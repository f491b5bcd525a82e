/**
 * The upload filename format `fmt.Sprintf("%d_%08x%s", ts, r, ext)` of
 * `handleImageUpload`, with a parser that recovers its three parts.
 */
module Naming {
  import opened Wrappers
  import opened GoTypes

  /** The lower-case hexadecimal digit for `d`: '0'..'9', then 'a'..'f'. */
  function DigitChar(d: nat): char
    requires d < 16
  {
    if d < 10 then ('0' as int + d) as char else ('a' as int + d - 10) as char
  }

  /** The value of a lower-case hexadecimal digit, or -1 for any other character. */
  function DigitValue(c: char): (v: int)
    ensures -1 <= v < 16
  {
    if '0' <= c <= '9' then c as int - '0' as int
    else if 'a' <= c <= 'f' then c as int - 'a' as int + 10
    else -1
  }

  lemma DigitValueOfChar(d: nat)
    requires d < 16
    ensures DigitValue(DigitChar(d)) == d
  {
  }

  /** `%d` of a non-negative number: its decimal digits, without leading zeros. */
  function Decimal(n: nat): (s: string)
    ensures |s| >= 1
    ensures forall i :: 0 <= i < |s| ==> 0 <= DigitValue(s[i]) < 10
    ensures |s| > 1 ==> s[0] != '0'
  {
    if n < 10 then [DigitChar(n)] else Decimal(n / 10) + [DigitChar(n % 10)]
  }

  /** `%d` of an integer: a '-' before the digits of a negative one. */
  function FormatInt(n: int): (s: string)
    ensures |s| >= 1
    ensures forall i :: 0 <= i < |s| ==> s[i] == '-' || 0 <= DigitValue(s[i]) < 10
  {
    if n < 0 then "-" + Decimal(-n) else Decimal(n)
  }

  /** 16 to the power `k`. */
  function Pow16(k: nat): (p: nat)
    ensures p >= 1
  {
    if k == 0 then 1 else 16 * Pow16(k - 1)
  }

  /** `%0*x`: the lowest `width` hexadecimal digits of `x`, zero-padded, lower case. */
  function HexPad(x: nat, width: nat): (s: string)
    ensures |s| == width
    ensures forall i :: 0 <= i < |s| ==> 0 <= DigitValue(s[i]) < 16
  {
    if width == 0 then [] else HexPad(x / 16, width - 1) + [DigitChar(x % 16)]
  }

  /** `%08x` of a uint32: always exactly eight lower-case hexadecimal digits. */
  function Hex8(x: Uint32): (s: string)
    ensures |s| == 8
    ensures forall i :: 0 <= i < 8 ==> 0 <= DigitValue(s[i]) < 16
  {
    HexPad(x, 8)
  }

  /** Reads digits of the given base, most significant first; None on any other character. */
  function ParseDigits(s: string, base: nat): Option<nat>
    requires 2 <= base <= 16
  {
    if s == [] then Some(0)
    else
      match ParseDigits(s[..|s| - 1], base)
      case None => None
      case Some(v) =>
        var d := DigitValue(s[|s| - 1]);
        if 0 <= d < base then Some(v * base + d) else None
  }

  /** Reads a decimal number with at least one digit. */
  function ParseNat(s: string): Option<nat>
  {
    if s == [] then None else ParseDigits(s, 10)
  }

  function Negate(v: Option<nat>): Option<int>
  {
    match v
    case None => None
    case Some(x) => Some(0 - x)
  }

  /** Reads an optionally negative decimal integer with at least one digit. */
  function ParseInt(s: string): Option<int>
  {
    var negative := s != [] && s[0] == '-';
    var magnitude := ParseNat(if negative then s[1..] else s);
    if negative then Negate(magnitude)
    else match magnitude
      case None => None
      case Some(v) => Some(v)
  }

  lemma {:induction false} DecimalRoundTrip(n: nat)
    ensures ParseDigits(Decimal(n), 10) == Some(n)
  {
    var s := Decimal(n);
    if n < 10 {
      assert s[..0] == [];
      DigitValueOfChar(n);
    } else {
      DecimalRoundTrip(n / 10);
      assert s[..|s| - 1] == Decimal(n / 10);
      DigitValueOfChar(n % 10);
    }
  }

  lemma ParseIntNegative(s: string, v: nat)
    requires |s| >= 2 && s[0] == '-' && ParseNat(s[1..]) == Some(v)
    ensures ParseInt(s) == Some(-(v as int))
  {
  }

  lemma ParseIntNonNegative(digits: string, v: nat)
    requires |digits| >= 1 && digits[0] != '-' && ParseDigits(digits, 10) == Some(v)
    ensures ParseInt(digits) == Some(v)
  {
    assert ParseNat(digits) == Some(v);
  }

  /** `%d` is read back by ParseInt. */
  lemma FormatIntRoundTrip(n: int)
    ensures ParseInt(FormatInt(n)) == Some(n)
  {
    if n < 0 {
      NegativeRoundTrip(-n);
    } else {
      NonNegativeRoundTrip(n);
    }
  }

  lemma NegativeRoundTrip(m: nat)
    requires m > 0
    ensures ParseInt(FormatInt(-(m as int))) == Some(-(m as int))
  {
    var s := FormatInt(-(m as int));
    assert s == "-" + Decimal(m);
    assert s[1..] == Decimal(m);
    DecimalRoundTrip(m);
    ParseIntNegative(s, m);
  }

  lemma NonNegativeRoundTrip(n: nat)
    ensures ParseInt(FormatInt(n)) == Some(n)
  {
    var digits := Decimal(n);
    assert DigitValue(digits[0]) >= 0;
    DecimalRoundTrip(n);
    ParseIntNonNegative(digits, n);
  }

  /** Zero-padded hexadecimal is read back when the value fits in the width. */
  lemma {:induction false} HexPadRoundTrip(x: nat, width: nat)
    requires x < Pow16(width)
    ensures ParseDigits(HexPad(x, width), 16) == Some(x)
  {
    var s := HexPad(x, width);
    if width > 0 {
      HexPadRoundTrip(x / 16, width - 1);
      assert s[..|s| - 1] == HexPad(x / 16, width - 1);
      DigitValueOfChar(x % 16);
    }
  }

  /** The name a stored upload gets: `<decimal ts>_<8 hex digits of r><ext>`. */
  function Filename(ts: Int64, r: Uint32, ext: string): (name: string)
    ensures |name| == |FormatInt(ts)| + 9 + |ext|
    ensures forall i :: 0 <= i < |FormatInt(ts)| ==> name[i] != '_'
    ensures name[|FormatInt(ts)|] == '_'
  {
    FormatInt(ts) + "_" + Hex8(r) + ext
  }

  /** The three parts a filename is made of. */
  datatype Parts = Parts(timestamp: int, random: nat, ext: string)

  /** The position of the first `c` in `s`, if any. */
  function IndexOf(s: string, c: char): (k: Option<nat>)
    ensures k.Some? ==> k.value < |s| && s[k.value] == c && forall i :: 0 <= i < k.value ==> s[i] != c
    ensures k.None? ==> forall i :: 0 <= i < |s| ==> s[i] != c
  {
    if s == [] then None
    else if s[0] == c then Some(0)
    else
      match IndexOf(s[1..], c)
      case None => None
      case Some(k) => Some(k + 1)
  }

  /**
   * Splits a filename at its first '_' into a decimal timestamp, eight
   * hexadecimal digits and the rest (the extension).
   */
  function ParseFilename(name: string): Option<Parts>
  {
    match IndexOf(name, '_')
    case None => None
    case Some(k) =>
      if |name| < k + 9 then None
      else
        match (ParseInt(name[..k]), ParseDigits(name[k + 1..k + 9], 16))
        case (Some(ts), Some(r)) => Some(Parts(ts, r, name[k + 9..]))
        case _ => None
  }

  /** Every filename parses back to the timestamp, random value and extension it was built from. */
  lemma FilenameRoundTrip(ts: Int64, r: Uint32, ext: string)
    ensures ParseFilename(Filename(ts, r, ext)) == Some(Parts(ts, r, ext))
  {
    var name := Filename(ts, r, ext);
    var k := |FormatInt(ts)|;
    assert IndexOf(name, '_') == Some(k);
    assert name[..k] == FormatInt(ts);
    assert name[k + 1..k + 9] == Hex8(r);
    assert name[k + 9..] == ext;
    FormatIntRoundTrip(ts);
    assert Pow16(8) == 0x1_0000_0000;
    HexPadRoundTrip(r, 8);
  }

  /** Two distinct (timestamp, random, extension) triples never yield the same filename. */
  lemma FilenameInjective(ts: Int64, r: Uint32, ext: string, ts': Int64, r': Uint32, ext': string)
    requires Filename(ts, r, ext) == Filename(ts', r', ext')
    ensures ts == ts' && r == r' && ext == ext'
  {
    FilenameRoundTrip(ts, r, ext);
    FilenameRoundTrip(ts', r', ext');
  }
}
