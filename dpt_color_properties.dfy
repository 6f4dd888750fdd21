/**
  Properties of the DPT 242.600 codec: the fixed-point primitives, the octet
  layout that `to_knx` produces, the authority of the validity mask in
  `from_knx`, the two round trips, and the dictionary conversions.
 */
module DptColorProperties {
  import opened Wrappers
  import opened DptColor

  // ---------------------------------------------------------------------------
  // Fixed-point primitives
  // ---------------------------------------------------------------------------

  /** Rounding leaves an integer unchanged. */
  lemma RoundOfInteger(k: int)
    ensures RoundHalfEven(k as real) == k
  {
    assert (k as real).Floor == k;
  }

  /** Decoding a fixed-point value and encoding it again gives back the same integer. */
  lemma ScaleOfRawToAxis(raw: Uint16)
    ensures ScaleAxis(RawToAxis(raw)) == raw
  {
    RoundOfInteger(raw);
  }

  /** Encoding then decoding an axis moves it by at most half a fixed-point step. */
  lemma QuantizationError(axis: real)
    requires AxisInRange(axis)
    ensures -0.5 / AxisScale as real <= RawToAxis(ScaleAxis(axis)) - axis <= 0.5 / AxisScale as real
  {
    var q := RawToAxis(ScaleAxis(axis));
    assert q * AxisScale as real == ScaleAxis(axis) as real;
    assert (q - axis) * AxisScale as real == ScaleAxis(axis) as real - axis * AxisScale as real;
  }

  /** An axis on the fixed-point grid is encoded exactly. */
  lemma OnGridExact(axis: real)
    requires AxisInRange(axis) && OnGrid(axis)
    ensures RawToAxis(ScaleAxis(axis)) == axis
  {
    RoundOfInteger((axis * AxisScale as real).Floor);
  }

  /** Splitting a 16-bit value into octets and joining them again is the identity. */
  lemma JoinOfSplit(v: Uint16)
    ensures Join(HighByte(v), LowByte(v)) == v
  {
  }

  /** The mask carries exactly the two flags, in bits 1 and 0, and no other bit. */
  lemma MaskFlags(colorValid: bool, brightnessValid: bool)
    ensures ValidityMask(colorValid, brightnessValid) < 4
    ensures ColorValidBit(ValidityMask(colorValid, brightnessValid)) == colorValid
    ensures BrightnessValidBit(ValidityMask(colorValid, brightnessValid)) == brightnessValid
  {
  }

  /** A mask with only bits 0 and 1 in use is rebuilt from the flags read out of it. */
  lemma MaskOfFlags(mask: Byte)
    requires mask < 4
    ensures ValidityMask(ColorValidBit(mask), BrightnessValidBit(mask)) == mask
  {
  }

  /** Reading a flag ignores the reserved bits 2..7. */
  lemma FlagsIgnoreReservedBits(mask: Byte)
    ensures ColorValidBit(mask) == ColorValidBit(mask % 4)
    ensures BrightnessValidBit(mask) == BrightnessValidBit(mask % 4)
  {
  }

  // ---------------------------------------------------------------------------
  // to_knx
  // ---------------------------------------------------------------------------

  /** `to_knx` fails exactly when a present axis is outside [0, 1] or a present brightness outside [0, 255]. */
  lemma ToKnxSucceedsIff(v: XYYColor)
    ensures ToKnx(v).Success? <==>
      (v.color.Some? ==> 0.0 <= v.color.value.0 <= 1.0 && 0.0 <= v.color.value.1 <= 1.0) &&
      (v.brightness.Some? ==> 0 <= v.brightness.value <= 255)
    ensures ToKnx(v).Failure? ==> ToKnx(v) == Failure(CouldNotSerialize(v))
  {
  }

  /** The octets that `to_knx` produces on success. */
  lemma ToKnxLayout(v: XYYColor)
    requires Encodable(v)
    ensures ToKnx(v).Success?
    ensures var b := ToKnx(v).value.bytes;
      && |b| == 6
      && (v.color.Some? ==>
            b[0] as int * 256 + b[1] == RoundHalfEven(v.color.value.0 * 65535.0) &&
            b[2] as int * 256 + b[3] == RoundHalfEven(v.color.value.1 * 65535.0))
      && (v.color.None? ==> b[0] == 0 && b[1] == 0 && b[2] == 0 && b[3] == 0)
      && b[4] == (if v.brightness.Some? then v.brightness.value else 0)
      && b[5] < 4
      && ((b[5] / 2) % 2 == 1 <==> v.color.Some?)
      && (b[5] % 2 == 1 <==> v.brightness.Some?)
  {
    var b := ToKnx(v).value.bytes;
    MaskFlags(v.color.Some?, v.brightness.Some?);
    assert b[5] == ValidityMask(v.color.Some?, v.brightness.Some?);
    if v.color.Some? {
      var x, y := ScaleAxis(v.color.value.0), ScaleAxis(v.color.value.1);
      assert b[0] == HighByte(x) && b[1] == LowByte(x);
      assert b[2] == HighByte(y) && b[3] == LowByte(y);
      JoinOfSplit(x);
      JoinOfSplit(y);
    }
  }

  /**
    A payload that `to_knx` could have produced: six octets, no reserved mask bit
    set, and zero octets for every field the mask marks absent.
   */
  predicate Canonical(p: Payload) {
    && p.DptArray? && |p.bytes| == PayloadLength
    && p.bytes[5] < 4
    && (!ColorValidBit(p.bytes[5]) ==> p.bytes[0] == 0 && p.bytes[1] == 0 && p.bytes[2] == 0 && p.bytes[3] == 0)
    && (!BrightnessValidBit(p.bytes[5]) ==> p.bytes[4] == 0)
  }

  /** Every payload that `to_knx` produces is canonical. */
  lemma ToKnxCanonical(v: XYYColor)
    requires Encodable(v)
    ensures ToKnx(v).Success? && Canonical(ToKnx(v).value)
  {
    MaskFlags(v.color.Some?, v.brightness.Some?);
  }

  // ---------------------------------------------------------------------------
  // from_knx
  // ---------------------------------------------------------------------------

  /** `from_knx` rejects exactly the payloads that are not six-octet arrays. */
  lemma FromKnxFailsIff(p: Payload)
    ensures FromKnx(p).Failure? <==> !(p.DptArray? && |p.bytes| == 6)
    ensures FromKnx(p).Failure? ==> FromKnx(p) == Failure(InvalidPayload(p))
  {
  }

  /** The colour is present iff bit 1 of octet 5 is set; the brightness iff bit 0 is set. */
  lemma FromKnxPresence(p: Payload)
    requires p.DptArray? && |p.bytes| == 6
    ensures FromKnx(p).Success?
    ensures FromKnx(p).value.color.Some? <==> (p.bytes[5] / 2) % 2 == 1
    ensures FromKnx(p).value.brightness.Some? <==> p.bytes[5] % 2 == 1
    ensures FromKnx(p).value.brightness.Some? ==> FromKnx(p).value.brightness.value == p.bytes[4]
    ensures FromKnx(p).value.color.Some? ==>
      && FromKnx(p).value.color.value.0 * 65535.0 == (p.bytes[0] as int * 256 + p.bytes[1]) as real
      && FromKnx(p).value.color.value.1 * 65535.0 == (p.bytes[2] as int * 256 + p.bytes[3]) as real
    ensures FromKnx(p).value.color.Some? ==>
      OnGrid(FromKnx(p).value.color.value.0) && OnGrid(FromKnx(p).value.color.value.1)
  {
  }

  /** `from_knx` reads only bits 0 and 1 of octet 5: clearing the reserved bits 2..7 changes nothing. */
  lemma FromKnxIgnoresReservedBits(p: Payload)
    requires p.DptArray? && |p.bytes| == 6
    ensures FromKnx(p) == FromKnx(DptArray(p.bytes[5 := p.bytes[5] % 4]))
  {
    var q := DptArray(p.bytes[5 := p.bytes[5] % 4]);
    assert ColorValidBit(p.bytes[5]) == ColorValidBit(q.bytes[5]);
    assert BrightnessValidBit(p.bytes[5]) == BrightnessValidBit(q.bytes[5]);
  }

  /**
    `from_knx` never looks at the octets of a field its mask marks absent: two
    payloads that agree on the mask and on the octets of the present fields
    decode the same.
   */
  lemma FromKnxIgnoresAbsentFields(p: Payload, q: Payload)
    requires p.DptArray? && |p.bytes| == 6 && q.DptArray? && |q.bytes| == 6
    requires p.bytes[5] == q.bytes[5]
    requires ColorValidBit(p.bytes[5]) ==> p.bytes[..4] == q.bytes[..4]
    requires BrightnessValidBit(p.bytes[5]) ==> p.bytes[4] == q.bytes[4]
    ensures FromKnx(p) == FromKnx(q)
  {
    if ColorValidBit(p.bytes[5]) {
      assert p.bytes[0] == p.bytes[..4][0] == q.bytes[0];
      assert p.bytes[1] == p.bytes[..4][1] == q.bytes[1];
      assert p.bytes[2] == p.bytes[..4][2] == q.bytes[2];
      assert p.bytes[3] == p.bytes[..4][3] == q.bytes[3];
    }
  }

  // ---------------------------------------------------------------------------
  // Round trips
  // ---------------------------------------------------------------------------

  /** The value an encodable value becomes on the wire: each axis moved to the fixed-point grid. */
  function Quantize(v: XYYColor): XYYColor
    requires Encodable(v)
  {
    XYYColor(
      if v.color.Some?
      then Some((RawToAxis(ScaleAxis(v.color.value.0)), RawToAxis(ScaleAxis(v.color.value.1))))
      else None,
      v.brightness)
  }

  /**
    Decoding what `to_knx` produced keeps both presence flags and the brightness,
    and gives axes that re-encode to the same 16-bit integers.
   */
  lemma RoundTrip(v: XYYColor)
    requires Encodable(v)
    ensures ToKnx(v).Success? && FromKnx(ToKnx(v).value) == Success(Quantize(v))
    ensures var d := FromKnx(ToKnx(v).value).value;
      && d.color.Some? == v.color.Some?
      && d.brightness == v.brightness
      && (v.color.Some? ==>
            ScaleAxis(d.color.value.0) == ScaleAxis(v.color.value.0) &&
            ScaleAxis(d.color.value.1) == ScaleAxis(v.color.value.1))
  {
    ToKnxLayout(v);
    var p := ToKnx(v).value;
    FromKnxPresence(p);
    var d := FromKnx(p).value;
    if v.color.Some? {
      var x, y := ScaleAxis(v.color.value.0), ScaleAxis(v.color.value.1);
      ScaleOfRawToAxis(x);
      ScaleOfRawToAxis(y);
      assert d.color.value.0 * AxisScale as real == RawToAxis(x) * AxisScale as real;
      assert d.color.value.1 * AxisScale as real == RawToAxis(y) * AxisScale as real;
      assert d.color == Some((RawToAxis(x), RawToAxis(y)));
    } else {
      assert d.color == None;
    }
    assert d.brightness == v.brightness;
  }

  /** A value whose axes lie on the fixed-point grid survives `to_knx` and `from_knx` unchanged. */
  lemma ExactRoundTrip(v: XYYColor)
    requires Encodable(v)
    requires v.color.Some? ==> OnGrid(v.color.value.0) && OnGrid(v.color.value.1)
    ensures ToKnx(v).Success? && FromKnx(ToKnx(v).value) == Success(v)
  {
    RoundTrip(v);
    if v.color.Some? {
      OnGridExact(v.color.value.0);
      OnGridExact(v.color.value.1);
    }
  }

  /** Two octet pairs with the same big-endian value are the same pair. */
  lemma JoinInjective(hi: Byte, lo: Byte, hi': Byte, lo': Byte)
    requires Join(hi, lo) == Join(hi', lo')
    ensures hi == hi' && lo == lo'
  {
    assert hi == HighByte(Join(hi, lo)) == HighByte(Join(hi', lo')) == hi';
  }

  /** Two masks without reserved bits that carry the same flags are equal. */
  lemma MaskDetermined(m: Byte, n: Byte)
    requires m < 4 && n < 4
    requires ColorValidBit(m) == ColorValidBit(n) && BrightnessValidBit(m) == BrightnessValidBit(n)
    ensures m == n
  {
    MaskOfFlags(m);
    MaskOfFlags(n);
  }

  /** Decoding a canonical payload gives an encodable value that re-encodes its colour octets. */
  lemma CanonicalColorOctets(p: Payload)
    requires Canonical(p)
    ensures FromKnx(p).Success? && ToKnx(FromKnx(p).value).Success?
    ensures ToKnx(FromKnx(p).value).value.bytes[..4] == p.bytes[..4]
  {
    var raw := p.bytes;
    FromKnxPresence(p);
    var v := FromKnx(p).value;
    ToKnxLayout(v);
    var out := ToKnx(v).value.bytes;
    if ColorValidBit(raw[5]) {
      var x, y := Join(raw[0], raw[1]), Join(raw[2], raw[3]);
      assert v.color == Some((RawToAxis(x), RawToAxis(y)));
      ScaleOfRawToAxis(x);
      ScaleOfRawToAxis(y);
      JoinInjective(out[0], out[1], raw[0], raw[1]);
      JoinInjective(out[2], out[3], raw[2], raw[3]);
    }
    assert out[..4] == [out[0], out[1], out[2], out[3]];
    assert raw[..4] == [raw[0], raw[1], raw[2], raw[3]];
  }

  /** A canonical payload survives `from_knx` and `to_knx` unchanged. */
  lemma CanonicalRoundTrip(p: Payload)
    requires Canonical(p)
    ensures FromKnx(p).Success? && ToKnx(FromKnx(p).value) == Success(p)
  {
    var raw := p.bytes;
    FromKnxPresence(p);
    CanonicalColorOctets(p);
    var v := FromKnx(p).value;
    ToKnxLayout(v);
    var out := ToKnx(v).value.bytes;
    MaskDetermined(out[5], raw[5]);
    assert out[4] == raw[4];
    assert out == out[..4] + [out[4], out[5]];
    assert raw == raw[..4] + [raw[4], raw[5]];
  }

  // ---------------------------------------------------------------------------
  // from_dict / to_dict
  // ---------------------------------------------------------------------------

  /** `from_dict` fails exactly when both axes are given and one of them is outside [0, 1]. */
  lemma FromDictFailsIff(d: XYYDict)
    ensures FromDict(d).Failure? <==>
      d.xAxis.Some? && d.yAxis.Some? && !(AxisInRange(d.xAxis.value) && AxisInRange(d.yAxis.value))
    ensures FromDict(d).Failure? ==> FromDict(d) == Failure(InvalidAxisValues)
  {
  }

  /** On success the colour is present iff both axes were given, and it is the given pair. */
  lemma FromDictColor(d: XYYDict)
    requires FromDict(d).Success?
    ensures FromDict(d).value.color.Some? <==> d.xAxis.Some? && d.yAxis.Some?
    ensures FromDict(d).value.color.Some? ==> FromDict(d).value.color.value == (d.xAxis.value, d.yAxis.value)
  {
  }

  /** `from_dict` undoes `to_dict` for every value whose colour is in range. */
  lemma FromDictOfToDict(v: XYYColor)
    requires ValidColor(v.color)
    ensures FromDict(ToDict(v)) == Success(v)
  {
  }

  /** `to_dict` undoes `from_dict` exactly when the dictionary gives both axes or neither. */
  lemma ToDictOfFromDict(d: XYYDict)
    requires FromDict(d).Success?
    ensures ToDict(FromDict(d).value) == d <==> d.xAxis.Some? == d.yAxis.Some?
  {
  }

  // ---------------------------------------------------------------------------
  // Concrete vectors
  // ---------------------------------------------------------------------------

  /** x = 1, y = 0.9, brightness 102 encodes as FF FF E6 66 66 03; y = 0 gives FF FF 00 00 66 03. */
  lemma EncodeVectors()
    ensures ToKnx(XYYColor(Some((1.0, 0.9)), Some(102))) == Success(DptArray([0xFF, 0xFF, 0xE6, 0x66, 0x66, 0x03]))
    ensures ToKnx(XYYColor(Some((1.0, 0.0)), Some(102))) == Success(DptArray([0xFF, 0xFF, 0x00, 0x00, 0x66, 0x03]))
    ensures ToKnx(XYYColor(Some((1.0, 0.9)), Some(255))) == Success(DptArray([0xFF, 0xFF, 0xE6, 0x66, 0xFF, 0x03]))
  {
    // 0.9 * 0xFFFF == 58981.5, a tie that rounds to the even 58982 == 0xE666
    assert RoundHalfEven(0.9 * 65535.0) == 58982;
  }

  /** 99 99 99 99 66 03 decodes to (0.6, 0.6) and brightness 102; FF FF 66 66 FA 03 to (1, 0.4) and 250. */
  lemma DecodeVectors()
    ensures FromKnx(DptArray([0x99, 0x99, 0x99, 0x99, 0x66, 0x03])) == Success(XYYColor(Some((0.6, 0.6)), Some(102)))
    ensures FromKnx(DptArray([0xFF, 0xFF, 0x66, 0x66, 0xFA, 0x03])) == Success(XYYColor(Some((1.0, 0.4)), Some(250)))
  {
    // 0x9999 == 0xFFFF * 3/5 and 0x6666 == 0xFFFF * 2/5
    assert Join(0x99, 0x99) == 0x9999 && RawToAxis(0x9999) == 0.6;
    assert Join(0xFF, 0xFF) == 0xFFFF && RawToAxis(0xFFFF) == 1.0;
    assert Join(0x66, 0x66) == 0x6666 && RawToAxis(0x6666) == 0.4;
    assert ColorValidBit(0x03) && BrightnessValidBit(0x03);
  }

  /** Out-of-range fields are rejected; the boundary values are accepted. */
  lemma RangeVectors()
    ensures FromDict(XYYDict(Some(2.0), Some(1.0), Some(1))) == Failure(InvalidAxisValues)
    ensures FromDict(XYYDict(Some(-1.0), Some(1.0), Some(2))) == Failure(InvalidAxisValues)
    ensures ToKnx(XYYColor(Some((2.0, 1.0)), Some(1))).Failure?
    ensures ToKnx(XYYColor(Some((-1.0, 1.0)), Some(2))).Failure?
    ensures FromDict(XYYDict(Some(0.3), Some(0.5), Some(256))) == Success(XYYColor(Some((0.3, 0.5)), Some(256)))
    ensures ToKnx(XYYColor(Some((0.3, 0.5)), Some(256))).Failure?
    ensures ToKnx(XYYColor(Some((0.0, 1.0)), Some(0))).Success?
    ensures ToKnx(XYYColor(Some((1.0, 0.0)), Some(255))).Success?
  {
  }

  /** With the colour flag clear, colour octets reading (1, 1) are ignored. */
  lemma MaskAuthorityVector()
    ensures FromKnx(DptArray([0xFF, 0xFF, 0xFF, 0xFF, 0x10, 0x01])) == Success(XYYColor(None, Some(0x10)))
    ensures FromKnx(DptArray([0x64, 0x65, 0x66, 0x67])) == Failure(InvalidPayload(DptArray([0x64, 0x65, 0x66, 0x67])))
    ensures FromKnx(DptBinary(1)) == Failure(InvalidPayload(DptBinary(1)))
  {
  }
}
