/**
 * `hexToRgba(hex, alpha)` (web/utils.ts): a `#rrggbb` colour string and an alpha become an
 * RGBA tuple with channels in [0, 1]. Each channel is JavaScript's `parseInt(pair, 16) / 255`,
 * so this module also models `parseInt` with radix 16 on the strings it can receive.
 */
module Hex {
  import opened Wrappers

  /** A JavaScript number as `hexToRgba` can produce it: a finite value or `NaN`. */
  datatype JsNumber = Finite(x: real) | NaN

  /** `[r, g, b, alpha]`. */
  datatype Rgba = Rgba(r: JsNumber, g: JsNumber, b: JsNumber, a: real)

  const LengthError := "hex string must have 7 characters"

  predicate IsHexDigit(c: char) {
    '0' <= c <= '9' || 'a' <= c <= 'f' || 'A' <= c <= 'F'
  }

  function DigitValue(c: char): (d: nat)
    requires IsHexDigit(c)
    ensures d < 16
  {
    if '0' <= c <= '9' then c as int - '0' as int
    else if 'a' <= c <= 'f' then c as int - 'a' as int + 10
    else c as int - 'A' as int + 10
  }

  /** The white space and line terminators `parseInt` skips before the number. */
  predicate IsSpace(c: char) {
    c == ' ' || c == '\t' || c == '\n' || c == '\U{B}' || c == '\U{C}' || c == '\r'
    || c == '\U{A0}' || c == '\U{1680}' || '\U{2000}' <= c <= '\U{200A}' || c == '\U{2028}' || c == '\U{2029}'
    || c == '\U{202F}' || c == '\U{205F}' || c == '\U{3000}' || c == '\U{FEFF}'
  }

  /** `s` without its leading white space: a suffix of `s` that starts with no white space. */
  function TrimStart(s: string): (t: string)
    ensures |t| <= |s| && t == s[|s| - |t|..]
    ensures t != [] ==> !IsSpace(t[0])
  {
    if s != [] && IsSpace(s[0]) then TrimStart(s[1..]) else s
  }

  /** The longest prefix of `s` made of hex digits. */
  function HexPrefix(s: string): (p: string)
    ensures |p| <= |s| && p == s[..|p|]
    ensures forall i | 0 <= i < |p| :: IsHexDigit(p[i])
    ensures |p| < |s| ==> !IsHexDigit(s[|p|])
  {
    if s == [] || !IsHexDigit(s[0]) then [] else [s[0]] + HexPrefix(s[1..])
  }

  /** The value of a string of hex digits, most significant first. */
  function DigitsValue(ds: string): nat
    requires forall i | 0 <= i < |ds| :: IsHexDigit(ds[i])
  {
    if ds == [] then 0 else DigitsValue(ds[..|ds| - 1]) * 16 + DigitValue(ds[|ds| - 1])
  }

  function Pow16(n: nat): (p: nat)
    ensures p >= 1
  {
    if n == 0 then 1 else 16 * Pow16(n - 1)
  }

  lemma {:induction false} Pow16Monotone(m: nat, n: nat)
    requires m <= n
    ensures Pow16(m) <= Pow16(n)
    decreases n
  {
    if m < n {
      Pow16Monotone(m, n - 1);
    }
  }

  /** `n` hex digits are worth less than `16^n`. */
  lemma {:induction false} DigitsBelow(ds: string)
    requires forall i | 0 <= i < |ds| :: IsHexDigit(ds[i])
    ensures DigitsValue(ds) < Pow16(|ds|)
  {
    if ds != [] {
      var init := ds[..|ds| - 1];
      DigitsBelow(init);
      assert DigitsValue(init) * 16 <= (Pow16(|init|) - 1) * 16;
    }
  }

  /**
   * `parseInt(s, 16)`: leading white space is skipped, then one `+` or `-`, then a `0x` or
   * `0X` prefix; the number is the longest run of hex digits that follows, and `NaN` when
   * that run is empty. Anything after the run is ignored.
   */
  function ParseInt16(s: string): (r: JsNumber)
    ensures (forall i | 0 <= i < |s| :: !IsHexDigit(s[i])) ==> r.NaN?
    ensures s != [] && IsHexDigit(s[0]) && !(|s| >= 2 && s[0] == '0' && (s[1] == 'x' || s[1] == 'X')) ==>
              r.Finite? && r.x >= 0.0
  {
    var t := TrimStart(s);
    var negative := t != [] && t[0] == '-';
    var u := if t != [] && (t[0] == '-' || t[0] == '+') then t[1..] else t;
    var w := if |u| >= 2 && u[0] == '0' && (u[1] == 'x' || u[1] == 'X') then u[2..] else u;
    var digits := HexPrefix(w);
    assert digits != [] ==> IsHexDigit(s[|s| - |w|]) by {
      if digits != [] {
        assert w[0] == digits[0];
        assert w == s[|s| - |w|..];
      }
    }
    if digits == [] then NaN
    else if negative then Finite(-(DigitsValue(digits) as real))
    else Finite(DigitsValue(digits) as real)
  }

  /** A number read from `s` is smaller in magnitude than `16^|s|`. */
  lemma ParseInt16Below(s: string)
    ensures ParseInt16(s).Finite? ==> -(Pow16(|s|) as real) < ParseInt16(s).x < Pow16(|s|) as real
  {
    var t := TrimStart(s);
    var u := if t != [] && (t[0] == '-' || t[0] == '+') then t[1..] else t;
    var w := if |u| >= 2 && u[0] == '0' && (u[1] == 'x' || u[1] == 'X') then u[2..] else u;
    var digits := HexPrefix(w);
    DigitsBelow(digits);
    Pow16Monotone(|digits|, |s|);
  }

  /** JavaScript's `n / 255`. */
  function Over255(n: JsNumber): JsNumber {
    match n
    case Finite(x) => Finite(x / 255.0)
    case NaN => NaN
  }

  /**
   * `hexToRgba(hex, alpha)`: throws unless `hex` has exactly 7 characters; the first one is
   * never looked at, and characters 1-2, 3-4 and 5-6 are the red, green and blue channels.
   */
  function HexToRgba(hex: string, alpha: real): (r: Result<Rgba, string>)
    ensures r.Err? <==> |hex| != 7
    ensures r.Err? ==> r.error == LengthError
    ensures r.Ok? ==> r.value.a == alpha
  {
    if |hex| != 7 then Err(LengthError)
    else Ok(Rgba(Over255(ParseInt16(hex[1..3])), Over255(ParseInt16(hex[3..5])), Over255(ParseInt16(hex[5..7])), alpha))
  }

  /** Two hex digits are read as one byte: `16 * first + second`. */
  lemma ParseTwoDigits(a: char, b: char)
    requires IsHexDigit(a) && IsHexDigit(b)
    ensures ParseInt16([a, b]) == Finite((16 * DigitValue(a) + DigitValue(b)) as real)
  {
    var s := [a, b];
    assert !IsSpace(a);
    assert TrimStart(s) == s;
    assert !(a == '0' && (b == 'x' || b == 'X'));
    assert HexPrefix([b]) == [b];
    assert HexPrefix(s) == s;
    assert s[..1] == [a];
    assert DigitsValue([a]) == DigitValue(a) by {
      assert [a][..0] == [];
    }
    assert DigitsValue(s) == 16 * DigitValue(a) + DigitValue(b);
  }

  /** A hex digit followed by anything else is read as that digit alone (`parseInt` stops at the first non-digit). */
  lemma ParseDigitThenOther(a: char, b: char)
    requires IsHexDigit(a) && !IsHexDigit(b) && !(a == '0' && (b == 'x' || b == 'X'))
    ensures ParseInt16([a, b]) == Finite(DigitValue(a) as real)
  {
    assert TrimStart([a, b]) == [a, b];
    assert [a, b][1..] == [b];
    assert HexPrefix([b]) == [];
    assert HexPrefix([a, b]) == [a];
    assert [a][..0] == [];
    assert DigitsValue([a]) == DigitValue(a);
    assert ParseInt16([a, b]) == Finite(DigitsValue([a]) as real);
  }

  /** A pair that starts with neither a digit, white space nor a sign is not a number. */
  lemma ParseNonDigit(a: char, b: char)
    requires !IsHexDigit(a) && !IsSpace(a) && a != '+' && a != '-'
    ensures ParseInt16([a, b]) == NaN
  {
    assert TrimStart([a, b]) == [a, b];
  }

  /** With six hex digits after the first character, every channel is a number in [0, 1]. */
  lemma ChannelsInRange(hex: string, alpha: real)
    requires |hex| == 7 && forall i | 1 <= i < 7 :: IsHexDigit(hex[i])
    ensures var c := HexToRgba(hex, alpha).value;
            c.r.Finite? && c.g.Finite? && c.b.Finite?
            && 0.0 <= c.r.x <= 1.0 && 0.0 <= c.g.x <= 1.0 && 0.0 <= c.b.x <= 1.0
  {
    assert hex[1..3] == [hex[1], hex[2]];
    assert hex[3..5] == [hex[3], hex[4]];
    assert hex[5..7] == [hex[5], hex[6]];
    ParseTwoDigits(hex[1], hex[2]);
    ParseTwoDigits(hex[3], hex[4]);
    ParseTwoDigits(hex[5], hex[6]);
  }

  /** The leading character (normally `#`) does not matter. */
  lemma FirstCharIgnored(hex: string, c: char, alpha: real)
    requires |hex| == 7
    ensures HexToRgba([c] + hex[1..], alpha) == HexToRgba(hex, alpha)
  {
    var h := [c] + hex[1..];
    assert h[1..3] == hex[1..3] && h[3..5] == hex[3..5] && h[5..7] == hex[5..7];
  }

  /** The hex digit for `d`, upper or lower case. */
  function Digit(d: nat, upper: bool): (c: char)
    requires d < 16
    ensures IsHexDigit(c) && DigitValue(c) == d
  {
    if d < 10 then ('0' as int + d) as char
    else if upper then ('A' as int + d - 10) as char
    else ('a' as int + d - 10) as char
  }

  /** A byte as two hex digits. */
  function HexByte(n: nat, upper: bool): (s: string)
    requires n < 256
    ensures |s| == 2 && IsHexDigit(s[0]) && IsHexDigit(s[1])
  {
    [Digit(n / 16, upper), Digit(n % 16, upper)]
  }

  /** Writing a byte as two hex digits and reading it back with `parseInt(_, 16)` gives the byte. */
  lemma HexByteRoundTrip(n: nat, upper: bool)
    requires n < 256
    ensures ParseInt16(HexByte(n, upper)) == Finite(n as real)
  {
    var hi, lo := Digit(n / 16, upper), Digit(n % 16, upper);
    assert HexByte(n, upper) == [hi, lo];
    ParseTwoDigits(hi, lo);
    assert 16 * DigitValue(hi) + DigitValue(lo) == n;
  }

  /** `#rrggbb` built from three bytes, in either case, gives back each byte over 255 in its own channel. */
  lemma HexToRgbaRoundTrip(r: nat, g: nat, b: nat, alpha: real, upper: bool)
    requires r < 256 && g < 256 && b < 256
    ensures HexToRgba("#" + HexByte(r, upper) + HexByte(g, upper) + HexByte(b, upper), alpha)
            == Ok(Rgba(Finite(r as real / 255.0), Finite(g as real / 255.0), Finite(b as real / 255.0), alpha))
  {
    var hex := "#" + HexByte(r, upper) + HexByte(g, upper) + HexByte(b, upper);
    Channels(hex, alpha, HexByte(r, upper), HexByte(g, upper), HexByte(b, upper));
    ByteChannel(r, upper);
    ByteChannel(g, upper);
    ByteChannel(b, upper);
  }

  lemma ByteChannel(n: nat, upper: bool)
    requires n < 256
    ensures Over255(ParseInt16(HexByte(n, upper))) == Finite(n as real / 255.0)
  {
    HexByteRoundTrip(n, upper);
  }

  lemma Channels(hex: string, alpha: real, x: string, y: string, z: string)
    requires |x| == 2 && |y| == 2 && |z| == 2 && hex == "#" + x + y + z
    ensures HexToRgba(hex, alpha) == Ok(Rgba(Over255(ParseInt16(x)), Over255(ParseInt16(y)), Over255(ParseInt16(z)), alpha))
  {
    assert hex[1..3] == x && hex[3..5] == y && hex[5..7] == z;
  }

  /** `#000000`, and any string of seven characters ending in six zeros, is black. */
  lemma Black(hex: string, alpha: real)
    requires |hex| == 7 && forall i | 1 <= i < 7 :: hex[i] == '0'
    ensures HexToRgba(hex, alpha) == Ok(Rgba(Finite(0.0), Finite(0.0), Finite(0.0), alpha))
  {
    assert hex[1..3] == ['0', '0'] && hex[3..5] == ['0', '0'] && hex[5..7] == ['0', '0'];
    ParseTwoDigits('0', '0');
  }

  /** `#FFFFFF` (or `#ffffff`) is white. */
  lemma White(hex: string, alpha: real)
    requires |hex| == 7 && ((forall i | 1 <= i < 7 :: hex[i] == 'F') || (forall i | 1 <= i < 7 :: hex[i] == 'f'))
    ensures HexToRgba(hex, alpha) == Ok(Rgba(Finite(1.0), Finite(1.0), Finite(1.0), alpha))
  {
    var f := hex[1];
    assert hex[1..3] == [f, f] && hex[3..5] == [f, f] && hex[5..7] == [f, f];
    ParseTwoDigits(f, f);
  }
}
