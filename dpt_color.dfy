/**
  KNX datapoint type 242.600 "DPT_Colour_xyY": a 6-octet payload carrying a CIE
  chromaticity pair (x, y), a brightness and a validity bitmask.

  Payload layout (octets 0..5):
    0-1  x axis, big-endian 16-bit fixed point, x = raw / 65535
    2-3  y axis, same encoding
    4    brightness, 0..255
    5    validity mask: bit 1 = colour valid, bit 0 = brightness valid
 */
module DptColor {
  import opened Wrappers

  // ---------------------------------------------------------------------------
  // Data model
  // ---------------------------------------------------------------------------

  /** An octet, 0..255. */
  type Byte = n: int | 0 <= n < 0x100

  /** An unsigned 16-bit integer, 0..0xFFFF. */
  type Uint16 = n: int | 0 <= n < 0x1_0000

  /** A payload as the bus carries it: an octet array, or a small binary value. */
  datatype Payload = DptArray(bytes: seq<Byte>) | DptBinary(binary: nat)

  /** The decoded value: an optional (x, y) pair and an optional brightness. */
  datatype XYYColor = XYYColor(color: Option<(real, real)>, brightness: Option<int>)

  /**
    The dictionary form of a value, one entry per key the codec reads or writes.
    `None` stands for a key that is missing or that maps to None: the codec looks
    keys up with `get`, which does not tell the two apart.
   */
  datatype XYYDict = XYYDict(xAxis: Option<real>, yAxis: Option<real>, brightness: Option<int>)

  datatype DptError =
    | InvalidAxisValues                 // from_dict: "invalid x_axis or y_axis"
    | CouldNotSerialize(value: XYYColor)  // to_knx: "Could not serialize DPTColorXYY"
    | InvalidPayload(payload: Payload)  // payload validation: wrong kind or length

  /** `payload_length`: the number of octets of a DPT 242.600 payload. */
  const PayloadLength: nat := 6

  /** `payload_type`: only octet-array payloads carry this datapoint type. */
  predicate IsPayloadType(p: Payload) {
    p.DptArray?
  }

  /** The fixed-point scale of one axis, 0xFFFF. */
  const AxisScale: int := 0xFFFF

  predicate AxisInRange(axis: real) {
    0.0 <= axis <= 1.0
  }

  predicate ValidColor(color: Option<(real, real)>) {
    color.Some? ==> AxisInRange(color.value.0) && AxisInRange(color.value.1)
  }

  predicate ValidBrightness(brightness: Option<int>) {
    brightness.Some? ==> 0 <= brightness.value <= 255
  }

  /** The values that `to_knx` accepts. */
  predicate Encodable(v: XYYColor) {
    ValidColor(v.color) && ValidBrightness(v.brightness)
  }

  // ---------------------------------------------------------------------------
  // Fixed-point and bit primitives
  // ---------------------------------------------------------------------------

  /**
    Python's `round` on an exact real: the nearest integer, and of two equally
    near integers the even one.
   */
  function RoundHalfEven(v: real): (n: int)
    ensures -0.5 <= n as real - v <= 0.5
    ensures (n as real - v == 0.5 || v - n as real == 0.5) ==> n % 2 == 0
  {
    var f := v.Floor;
    var d := v - f as real;
    if d < 0.5 then f
    else if d > 0.5 then f + 1
    else if f % 2 == 0 then f
    else f + 1
  }

  /** `round(axis * 0xFFFF)`: an axis in [0, 1] scaled and rounded to an integer. */
  function ScaleAxis(axis: real): (n: int)
    requires AxisInRange(axis)
    ensures 0 <= n <= AxisScale
    ensures -0.5 <= n as real - axis * AxisScale as real <= 0.5
  {
    RoundHalfEven(axis * AxisScale as real)
  }


  /** An axis that is an exact multiple of 1/0xFFFF. */
  predicate OnGrid(axis: real) {
    (axis * AxisScale as real).Floor as real == axis * AxisScale as real
  }

  /** The exact axis value a 16-bit fixed-point value stands for, raw / 0xFFFF. */
  function RawToAxis(raw: Uint16): (axis: real)
    ensures AxisInRange(axis) && OnGrid(axis)
    ensures axis * AxisScale as real == raw as real
  {
    raw as real / AxisScale as real
  }

  // On the non-negative integers used here, `v >> k` is `v / 2^k`, `v & (2^k - 1)`
  // is `v % 2^k`, and `a << k | b` with `b < 2^k` is `a * 2^k + b`.

  /** `v >> 8`: the high octet of a 16-bit value. */
  function HighByte(v: Uint16): (hi: Byte)
    ensures hi * 0x100 <= v < (hi + 1) * 0x100
  {
    v / 0x100
  }

  /** `v & 0xFF`: the low octet of a 16-bit value. */
  function LowByte(v: Uint16): (lo: Byte)
    ensures (v - lo) % 0x100 == 0
  {
    v % 0x100
  }

  /** `hi << 8 | lo`: a big-endian pair of octets as a 16-bit value. */
  function Join(hi: Byte, lo: Byte): (v: Uint16)
    ensures HighByte(v) == hi && LowByte(v) == lo
  {
    hi * 0x100 + lo
  }

  /** `color_valid << 1 | brightness_valid`, with each bool used as 0 or 1. */
  function ValidityMask(colorValid: bool, brightnessValid: bool): (mask: Byte)
    ensures mask < 4
  {
    (if colorValid then 1 else 0) * 2 + (if brightnessValid then 1 else 0)
  }

  /** `mask >> 1 & 0b1`, read as a flag: bit 1 is set. */
  predicate ColorValidBit(mask: Byte): (isSet: bool)
    ensures isSet <==> mask % 4 >= 2
  {
    (mask / 2) % 2 == 1
  }

  /** `mask & 0b1`, read as a flag: bit 0 is set. */
  predicate BrightnessValidBit(mask: Byte): (isSet: bool)
    ensures isSet <==> mask % 4 == 1 || mask % 4 == 3
  {
    mask % 2 == 1
  }

  // ---------------------------------------------------------------------------
  // XYYColor.from_dict / XYYColor.to_dict
  // ---------------------------------------------------------------------------

  /**
    `XYYColor.from_dict`: the colour is taken only when both axes are given; given
    axes outside [0, 1] are an error. The brightness is passed through unchecked.
   */
  function FromDict(data: XYYDict): (r: Result<XYYColor, DptError>)
    ensures r.Success? ==> ValidColor(r.value.color) && r.value.brightness == data.brightness
  {
    if data.xAxis.Some? && data.yAxis.Some? then
      if !AxisInRange(data.xAxis.value) || !AxisInRange(data.yAxis.value) then
        Failure(InvalidAxisValues)
      else
        Success(XYYColor(Some((data.xAxis.value, data.yAxis.value)), data.brightness))
    else
      Success(XYYColor(None, data.brightness))
  }

  /** `XYYColor.to_dict`: an absent colour gives absent axes. */
  function ToDict(v: XYYColor): (d: XYYDict)
    ensures d.xAxis.Some? == d.yAxis.Some?
  {
    XYYDict(
      if v.color.Some? then Some(v.color.value.0) else None,
      if v.color.Some? then Some(v.color.value.1) else None,
      v.brightness)
  }

  // ---------------------------------------------------------------------------
  // DPTColorXYY.from_knx / DPTColorXYY.to_knx
  // ---------------------------------------------------------------------------

  /** Payload validation: an octet array of exactly `payload_length` octets. */
  function ValidatePayload(payload: Payload): (r: Result<seq<Byte>, DptError>)
    ensures r.Success? <==> IsPayloadType(payload) && |payload.bytes| == PayloadLength
    ensures r.Success? ==> r.value == payload.bytes
    ensures r.Failure? ==> r.error == InvalidPayload(payload)
  {
    if IsPayloadType(payload) && |payload.bytes| == PayloadLength then Success(payload.bytes)
    else Failure(InvalidPayload(payload))
  }

  /** `DPTColorXYY.from_knx`: the validity mask alone decides which fields are present. */
  function FromKnx(payload: Payload): (r: Result<XYYColor, DptError>)
    ensures r.Success? ==> Encodable(r.value)
  {
    match ValidatePayload(payload)
    case Failure(e) => Failure(e)
    case Success(raw) =>
      var xAxis := Join(raw[0], raw[1]);
      var yAxis := Join(raw[2], raw[3]);
      var brightness := raw[4];
      var colorValid := ColorValidBit(raw[5]);
      var brightnessValid := BrightnessValidBit(raw[5]);
      Success(XYYColor(
        if colorValid then Some((RawToAxis(xAxis), RawToAxis(yAxis))) else None,
        if brightnessValid then Some(brightness) else None))
  }

  /**
    `DPTColorXYY.to_knx`: range-checks the present fields and packs six octets;
    a field that is absent is sent as zero.
   */
  function ToKnx(value: XYYColor): (r: Result<Payload, DptError>)
    ensures r.Success? ==> IsPayloadType(r.value) && |r.value.bytes| == PayloadLength
    ensures r.Failure? ==> r.error == CouldNotSerialize(value)
  {
    if !Encodable(value) then
      Failure(CouldNotSerialize(value))
    else
      var colorValid := value.color.Some?;
      var brightnessValid := value.brightness.Some?;
      var xAxis: Uint16 := if colorValid then ScaleAxis(value.color.value.0) else 0;
      var yAxis: Uint16 := if colorValid then ScaleAxis(value.color.value.1) else 0;
      var brightness: Byte := if brightnessValid then value.brightness.value else 0;
      Success(DptArray([
        HighByte(xAxis), LowByte(xAxis),
        HighByte(yAxis), LowByte(yAxis),
        brightness,
        ValidityMask(colorValid, brightnessValid)]))
  }
}
