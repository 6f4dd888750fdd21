# KNX DPT 242.600 colour xyY codec, in Dafny

This project models the codec of the xknx library for the KNX datapoint type
242.600 "DPT_Colour_xyY" (`xknx/dpt/dpt_color.py`), and proves properties of it.
It also models the remote value that uses the codec for one group address, as far
as its unit test describes it.

A DPT 242.600 payload is six octets:

| octet | content |
|---|---|
| 0-1 | x axis, big-endian unsigned 16-bit, `round(x * 0xFFFF)` |
| 2-3 | y axis, same encoding |
| 4 | brightness, 0..255 |
| 5 | validity mask `color_valid << 1 \| brightness_valid` |

Files:

- `wrappers.dfy`: `Option` (Python's `None`) and `Result` (a raised exception).
- `dpt_color.dfy`, module `DptColor`: the value `XYYColor`, its dictionary form
  `XYYDict`, the fixed-point and bit primitives, `FromDict`, `ToDict`,
  `ValidatePayload`, `FromKnx` and `ToKnx`. The constants `PayloadLength` (6) and
  the predicate `IsPayloadType` (octet arrays only) are `payload_length` and
  `payload_type`.
- `dpt_color_properties.dfy`, module `DptColorProperties`: the lemmas. They cover
  the octet layout, the validity mask, both round trips, the dictionary
  conversions and the concrete vectors of the unit test.
- `remote_value_color_xyy.dfy`, module `RemoteValueColorXyy`: the telegram queue
  and the class `RemoteValueColorXYY`, with methods `Set` and `Process`. Two
  client methods replay the unit test's scenarios.

Modelling choices:

- Axes are Dafny `real`s. `round(axis * 0xFFFF)` is `RoundHalfEven` applied to the
  exact product. `RoundHalfEven` is Python's rounding: nearest integer, ties to even.
  For example 0.9 * 0xFFFF = 58981.5 rounds to 58982 = 0xE666.
- A decoded axis is the exact rational `raw / 0xFFFF`.
- Octets and 16-bit values are integers restricted to 0..0xFF and 0..0xFFFF.
  On these non-negative values `v >> 8` is `v / 0x100`, `v & 0xFF` is `v % 0x100`,
  and `hi << 8 | lo` is `hi * 0x100 + lo`. The mask is built and read the same way.
- The dictionary taken by `from_dict` and returned by `to_dict` is a record with one
  `Option` per key (`x_axis`, `y_axis`, `brightness`). `from_dict` reads keys with
  `get`, which cannot tell a missing key from one that maps to None. Other keys
  are never read.
- Exceptions become `Failure` results of type `DptError`:
  - `InvalidAxisValues` is the `ConversionError` raised by `from_dict`.
  - `CouldNotSerialize(value)` is the `ConversionError` raised by `to_knx`.
  - `InvalidPayload(payload)` is the error raised by payload validation.
- When a dictionary gives only one axis, `from_dict` does not fail. It leaves the
  colour absent (`xknx/dpt/dpt_color.py:29-31`). The model does the same.
  The unit test rejects `{"x_axis": 1, "brightness": 1}`
  (`test/remote_value_tests/remote_value_color_xyy_test.py:44-45`), but that
  rejection happens in the remote value's own conversion, which this model does not
  include.
- The remote value caches the decoded value in dictionary form
  (`ToDict(FromKnx(payload))`), because the unit test compares its `value` with a
  dictionary.

## Model

| member | source | states |
|---|---|---|
| `DptColor.RoundHalfEven` | xknx/dpt/dpt_color.py:93 | the result is within 1/2 of the argument, and on a tie it is even (Python's `round`) |
| `DptColor.ScaleAxis` | xknx/dpt/dpt_color.py:93 | an axis in [0, 1] scales to an integer in 0..0xFFFF within 1/2 of `axis * 0xFFFF` |
| `DptColor.RawToAxis` | xknx/dpt/dpt_color.py:73-74 | a decoded axis lies in [0, 1], is a multiple of 1/0xFFFF, and times 0xFFFF it is exactly the raw 16-bit value |
| `DptColor.HighByte` | xknx/dpt/dpt_color.py:103-105 | `v >> 8` is the octet `hi` with `hi * 0x100 <= v < (hi + 1) * 0x100` |
| `DptColor.LowByte` | xknx/dpt/dpt_color.py:104-106 | `v & 0xFF` is an octet that differs from `v` by a multiple of 0x100 |
| `DptColor.Join` | xknx/dpt/dpt_color.py:63-64 | `hi << 8 \| lo` is a 16-bit value whose high octet is `hi` and whose low octet is `lo` |
| `DptColor.ValidityMask` | xknx/dpt/dpt_color.py:108 | `color_valid << 1 \| brightness_valid` is below 4: no bit other than 0 and 1 is ever set |
| `DptColor.ColorValidBit` | xknx/dpt/dpt_color.py:67 | `mask >> 1 & 0b1` is set iff bit 1 of the mask is set (the mask modulo 4 is at least 2) |
| `DptColor.BrightnessValidBit` | xknx/dpt/dpt_color.py:68 | `mask & 0b1` is set iff bit 0 of the mask is set (the mask modulo 4 is 1 or 3) |
| `DptColor.FromDict` | xknx/dpt/dpt_color.py:26-41 | on success the colour is in range and the brightness is passed through from the dictionary |
| `DptColor.ToDict` | xknx/dpt/dpt_color.py:43-49 | the two axes are either both present or both absent |
| `DptColor.ValidatePayload` | xknx/dpt/dpt_color.py:55-61 | accepts exactly a payload of `payload_type` (an octet array) with `payload_length` (6) octets and returns its octets; otherwise fails with `InvalidPayload` |
| `DptColor.FromKnx` | xknx/dpt/dpt_color.py:58-79 | every decoded value satisfies the range checks of `to_knx` (the decoded fields themselves are stated by `FromKnxPresence` below) |
| `DptColor.ToKnx` | xknx/dpt/dpt_color.py:81-112 | success gives an octet array of exactly 6 octets; failure is `CouldNotSerialize` carrying the value |
| `DptColorProperties.RoundOfInteger` | xknx/dpt/dpt_color.py:93 | rounding an integer gives the same integer |
| `DptColorProperties.ScaleOfRawToAxis` | xknx/dpt/dpt_color.py:63-93 | decoding a 16-bit value and scaling it again gives the same 16-bit value |
| `DptColorProperties.QuantizationError` | xknx/dpt/dpt_color.py:73-93 | encoding then decoding moves an axis by at most 1/2 of 1/0xFFFF |
| `DptColorProperties.OnGridExact` | xknx/dpt/dpt_color.py:93 | an axis that is a multiple of 1/0xFFFF is encoded and decoded exactly |
| `DptColorProperties.JoinOfSplit` | xknx/dpt/dpt_color.py:103-106 | the big-endian join of `v >> 8` and `v & 0xFF` is `v` |
| `DptColorProperties.MaskFlags` | xknx/dpt/dpt_color.py:108 | the mask is below 4; bit 1 reads back as the colour flag and bit 0 as the brightness flag |
| `DptColorProperties.MaskOfFlags` | xknx/dpt/dpt_color.py:67-68 | a mask below 4 is rebuilt from the two flags read out of it |
| `DptColorProperties.FlagsIgnoreReservedBits` | xknx/dpt/dpt_color.py:67-68 | reading the flags ignores bits 2..7 |
| `DptColorProperties.ToKnxSucceedsIff` | xknx/dpt/dpt_color.py:89-112 | `to_knx` succeeds iff every present axis is in [0, 1] and a present brightness is in [0, 255], boundaries included; otherwise it fails with `CouldNotSerialize(value)` |
| `DptColorProperties.ToKnxLayout` | xknx/dpt/dpt_color.py:85-110 | 6 octets: octets 0-1 and 2-3 are `round(axis * 0xFFFF)` big-endian, or zero without a colour; octet 4 is the brightness or zero; octet 5 is below 4, with bit 1 set iff the colour is present and bit 0 set iff the brightness is present |
| `DptColorProperties.ToKnxCanonical` | xknx/dpt/dpt_color.py:85-110 | every payload `to_knx` produces is canonical: no reserved mask bit set, zero octets for absent fields |
| `DptColorProperties.FromKnxFailsIff` | xknx/dpt/dpt_color.py:55-61 | `from_knx` fails iff the payload is not an octet array of length 6, and the error names the payload |
| `DptColorProperties.FromKnxPresence` | xknx/dpt/dpt_color.py:63-78 | every 6-octet array decodes; the colour is present iff bit 1 of octet 5 is set, and then x * 0xFFFF is `octet0 * 256 + octet1` and y * 0xFFFF is `octet2 * 256 + octet3`, both on the 1/0xFFFF grid; the brightness is present iff bit 0 is set, and then it equals octet 4 |
| `DptColorProperties.FromKnxIgnoresReservedBits` | xknx/dpt/dpt_color.py:67-68 | clearing bits 2..7 of octet 5 does not change what a 6-octet array decodes to |
| `DptColorProperties.FromKnxIgnoresAbsentFields` | xknx/dpt/dpt_color.py:67-78 | two payloads with the same mask that agree on the octets of the present fields decode the same; the octets of absent fields are ignored |
| `DptColorProperties.RoundTrip` | xknx/dpt/dpt_color.py:58-110 | decoding the encoding of any encodable value keeps both presence flags and the brightness; the decoded axes scale to the same 16-bit integers |
| `DptColorProperties.ExactRoundTrip` | xknx/dpt/dpt_color.py:58-110 | a value with axes on the 1/0xFFFF grid decodes back to itself |
| `DptColorProperties.JoinInjective` | xknx/dpt/dpt_color.py:63-64 | two octet pairs with the same big-endian 16-bit value are equal |
| `DptColorProperties.MaskDetermined` | xknx/dpt/dpt_color.py:67-68 | two masks below 4 that carry the same two flags are equal |
| `DptColorProperties.CanonicalColorOctets` | xknx/dpt/dpt_color.py:58-106 | decoding a canonical payload and encoding the result reproduces octets 0-3 |
| `DptColorProperties.CanonicalRoundTrip` | xknx/dpt/dpt_color.py:58-110 | a canonical payload decodes, and encoding the result gives back the same payload |
| `DptColorProperties.FromDictFailsIff` | xknx/dpt/dpt_color.py:29-39 | `from_dict` fails iff both axes are given and one is outside [0, 1] |
| `DptColorProperties.FromDictColor` | xknx/dpt/dpt_color.py:28-41 | on success the colour is present iff both axes are given, and then it is the given pair |
| `DptColorProperties.FromDictOfToDict` | xknx/dpt/dpt_color.py:26-49 | `from_dict(to_dict(v))` gives back `v` whenever v's colour is in range |
| `DptColorProperties.ToDictOfFromDict` | xknx/dpt/dpt_color.py:26-49 | `to_dict(from_dict(d)) == d` iff d gives both axes or neither |
| `DptColorProperties.EncodeVectors` | test/remote_value_tests/remote_value_color_xyy_test.py:19-24 | (1, 0.9, 102) encodes as FF FF E6 66 66 03 and (1, 0, 102) as FF FF 00 00 66 03; (1, 0.9, 255) as FF FF E6 66 FF 03 |
| `DptColorProperties.DecodeVectors` | test/remote_value_tests/remote_value_color_xyy_test.py:30-32 | 99 99 99 99 66 03 decodes to (0.6, 0.6) and 102; FF FF 66 66 FA 03 decodes to (1, 0.4) and 250 |
| `DptColorProperties.RangeVectors` | test/remote_value_tests/remote_value_color_xyy_test.py:38-43 | x = 2 and x = -1 are rejected by `from_dict` and by `to_knx`; brightness 256 passes `from_dict` and is rejected by `to_knx`; boundary values are accepted |
| `DptColorProperties.MaskAuthorityVector` | xknx/dpt/dpt_color.py:58-79 | with bit 1 clear, colour octets FF FF FF FF decode to no colour; a 4-octet array and a binary payload are rejected |
| `RemoteValueColorXyy.TelegramQueue.GetNowait` | test/remote_value_tests/remote_value_color_xyy_test.py:52-53 | removes and returns the oldest queued telegram; on an empty queue it fails with `QueueEmpty` and the queue stays empty |
| `RemoteValueColorXyy.TelegramQueue.constructor` | test/remote_value_tests/remote_value_color_xyy_test.py:49 | a new queue is empty |
| `RemoteValueColorXyy.TelegramQueue.QSize` | test/remote_value_tests/remote_value_color_xyy_test.py:52 | `qsize` is the number of queued telegrams |
| `RemoteValueColorXyy.TelegramQueue.Put` | test/remote_value_tests/remote_value_color_xyy_test.py:51-52 | appends one telegram at the end of the queue, keeping the earlier ones in order |
| `RemoteValueColorXyy.RemoteValueColorXYY.constructor` | test/remote_value_tests/remote_value_color_xyy_test.py:80 | a new remote value has no cached value |
| `RemoteValueColorXyy.RemoteValueColorXYY.Set` | test/remote_value_tests/remote_value_color_xyy_test.py:47-64 | on success exactly one GroupValueWrite telegram, addressed to the group address and carrying `to_knx(v)`, is appended to the queue; on failure the error is returned and nothing is queued |
| `RemoteValueColorXyy.RemoteValueColorXYY.Process` | test/remote_value_tests/remote_value_color_xyy_test.py:66-94 | returns true iff the telegram is a write to the group address whose payload decodes, and then caches the decoded value in dictionary form; otherwise returns false and the cache is unchanged; the cache always has the form of a decoded value: both axes or neither, each a multiple of 1/0xFFFF in [0, 1], brightness in 0..255 |

## Left out

- `round(..., 5)` on decoded axes (`xknx/dpt/dpt_color.py:73-74`) is floating-point formatting. A decoded axis is the exact `raw / 0xFFFF`. For the test vectors (0.6, 0.4 and 1) the two agree.
- ScaleAxis: applies Python's rounding to the exact product `axis * 0xFFFF`, not to the IEEE double product. The two can differ when the double product lands on or beside a tie.
- The coercion of dictionary values with `float()`, and the `TypeError` it can raise (`xknx/dpt/dpt_color.py:33-34, 38`), are left out. They are dynamic typing: axes are typed `real` and brightness is typed `int`. So `int(value.brightness)` (line 99) is the identity here.
- The `ConversionError` messages and their attached `value` are left out, except that `CouldNotSerialize` carries the value.
- Payload validation (`validate_payload`), `DPTComplex`, `DPTArray` and `DPTBinary` are not part of this model. `ValidatePayload` assumes validation accepts exactly an octet array of `payload_length` octets and otherwise raises an error. The model does not name that error's exception class.
- `XYYColor.from_dict` is an instance method that ignores its instance. It is modelled as a plain function.
- The source of `RemoteValueColorXYY` is not part of this model. `Set` and `Process` follow only what the unit test shows, plus three details it does not show:
  - `Set` takes an `XYYColor`, so the remote value's own dictionary conversion, including its rejection of a lone `x_axis`, is left out.
  - `Process` accepts only GroupValueWrite telegrams; how it handles GroupValueResponse is not modelled.
  - Telegrams for other group addresses are refused.
- The asynchronous telegram queue (`xknx.telegrams`) is modelled as a sequence, with `Put`, `QSize` and `GetNowait`. Awaiting, concurrency and the transport that drains the queue are left out.
- A remote value with no group address is left out.
- `xknx/io/usb_interface.py` is I/O plumbing that delegates to a USB client. It is not modelled.
