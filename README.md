# BeeWi SmartClim frame decoder in Dafny

This project models the parser of the `smartclim_ble` package. The package decodes the byte frames of a
BeeWi SmartClim Bluetooth thermometer/hygrometer into a temperature, a relative humidity and a battery level.

- `Types.dfy`: the `byte` type (an element of a Python `bytearray`), plus `Option` and `Result`.
- `SensorFrame.dfy`: the frame layout as a pure specification. `DecodeFrame` gives the reading a buffer decodes
  to, or `None` where the source raises. `AfterDecode` gives the record's reading after a decode call. The
  lemmas state what a decode means: which bytes are read, the sum-based temperature, the offset shift between the two
  formats, idempotence, and the known vector.
- `ManufacturerData.dfy`: the advertisement's manufacturer-data dict. It is an insertion-ordered sequence of
  `(key, bytes)` pairs whose keys are distinct, with `Keys` (as `list(data.keys())`) and `Get` (as `data[key]`).
- `Parser.dfy`: the two classes of `parser.py`.
  - `SensorData` has the fields `name`, `tempTenths`, `humidity` and `battery`. Its `Decode` method overwrites the
    three measurements in place and returns `false` where the source raises.
  - `BeeWiSmartClimAdvertisement` holds a device and an optional `SensorData`. Its static method `New` stands for the
    source's constructor. It returns `Failure` where that constructor raises.

The frame formats, as the code in `src/smartclim_ble/parser.py` defines them:

- A connected frame is 10 bytes long and its fields start at offset 0.
- An advertisement frame is 13 bytes long and its fields start at offset 1.
- Any other length is rejected before any field is written.
- The temperature in tenths of a degree is the sum of the bytes at offset+1 and offset+2. A 16-bit two's-complement
  adjustment is applied above `0x8000`. The sum of two bytes is at most 510, so that branch never fires, and the
  temperature always lies in 0 to 51.0 degrees (`NegativeBranchDead`).
- The humidity is the byte at offset+4 and the battery level the byte at offset+9.

The code and its test disagree about the advertisement format, and the model follows the code.
`tests/test_parser.py:7-11` decodes an 11-byte advertisement frame and expects success. `parser.py:30` requires
13 bytes, so that call raises. `ElevenByteAdvertisementRejected` states that the 11-byte frame is refused. It also
states that the same bytes followed by two trailing bytes decode like the connected frame.

## Model

| member | source | states |
|---|---|---|
| `SensorFrame.DecodeFrame` | src/smartclim_ble/parser.py:27-50 | decoding fails exactly when the length is not 10 (connected) or 13 (advertisement); on success the temperature in tenths lies in 0..510 and humidity and battery are bytes in 0..255 |
| `SensorFrame.NegativeBranchDead` | src/smartclim_ble/parser.py:45-47 | the sum of two bytes is at most 510, below `0x8000`, so the two's-complement adjustment leaves it unchanged and the temperature is never negative |
| `SensorFrame.DecodedFields` | src/smartclim_ble/parser.py:45-50 | on a frame of the right length every index read is in bounds; the reading is exactly (byte offset+1 plus byte offset+2, byte offset+4, byte offset+9) |
| `SensorFrame.DecodeReadsOnlyFieldBytes` | src/smartclim_ble/parser.py:45-50 | two valid frames that agree on the bytes at offset+1, +2, +4 and +9 decode to the same reading; no other byte matters |
| `SensorFrame.OffsetShift` | src/smartclim_ble/parser.py:27-31 | for any 10-byte frame f, marker byte b and two bytes t, decoding b+f+t as an advertisement gives the same result as decoding f as a connected frame |
| `SensorFrame.AfterDecodeOutcome` | src/smartclim_ble/parser.py:33-34 | the state-transition function used by `SensorData.Decode`'s contract keeps the prior reading for a wrong length and takes the decoded frame for a right length; that the imperative body raises before any assignment is proved by `SensorData.Decode` itself |
| `SensorFrame.DecodeIdempotent` | src/smartclim_ble/parser.py:19-50 | decoding the same buffer twice leaves the same reading as decoding it once |
| `SensorFrame.DecodeForgetsPrior` | src/smartclim_ble/parser.py:45-50 | a successful decode does not depend on the previous temperature, humidity or battery |
| `SensorFrame.ConnectedFrameVector` | tests/test_parser.py:14-18 | the connected frame `00de00023b070000062e` decodes to 222 tenths (22.2 degrees), humidity 59, battery 46 |
| `SensorFrame.ElevenByteAdvertisementRejected` | tests/test_parser.py:7-8 | the 11-byte advertisement vector is refused, because an advertisement frame is 13 bytes; with two trailing bytes added it decodes to 222, 59, 46 |
| `ManufacturerData.Keys` | src/smartclim_ble/parser.py:72 | the key list has one entry per mapping entry, in insertion order |
| `ManufacturerData.Get` | src/smartclim_ble/parser.py:73 | a lookup that succeeds returns a blob stored under that key; it fails exactly when the key is not among the keys |
| `ManufacturerData.GetStored` | src/smartclim_ble/parser.py:73 | with distinct keys, lookup returns v for key k exactly when the pair (k, v) is in the mapping |
| `ManufacturerData.FirstKeyBlob` | src/smartclim_ble/parser.py:72-73 | looking up the first key of a non-empty mapping gives the first-inserted blob |
| `Parser.SensorData.constructor` | src/smartclim_ble/parser.py:10-17 | a new record has an empty name and temperature, humidity and battery all 0 |
| `Parser.SensorData.Decode` | src/smartclim_ble/parser.py:19-50 | succeeds exactly when the length matches the format; never changes `name`; the new reading is the decoded frame on success and the old reading on failure; on success the fields are in range |
| `Parser.ExpectedReadings` | src/smartclim_ble/parser.py:60-73 | no readings unless both a device and advertisement data are given; otherwise an IndexError for an empty mapping, a size error when the first-inserted blob is not 10 bytes, and otherwise the device name with the connected-format decoding of that blob |
| `Parser.BeeWiSmartClimAdvertisement.Empty` | src/smartclim_ble/parser.py:53-58 | an object that stores the device and has no readings yet (the dataclass default) |
| `Parser.BeeWiSmartClimAdvertisement.New` | src/smartclim_ble/parser.py:60-73 | fails exactly as `ExpectedReadings` says, with the same error; otherwise gives a fresh object holding the device, with no readings or with a fresh record whose name and reading are those `ExpectedReadings` gives |

## Left out

- The `bleak` types `BLEDevice` and `AdvertisementData` come from a foreign library. They are reduced to a device
  name and the manufacturer-data mapping. A device whose name is `None` is not modelled: the name is a string.
- Python truthiness of `device` and `ad_data` is modelled as "present". A `BLEDevice` object and an
  `AdvertisementData` named tuple are always truthy when present.
- The temperature is stored as an integer number of tenths. The division by 10.0 into a float is a scale factor and is
  not modelled.
- The text and type of the raised exceptions are not modelled. `SensorData.Decode` reports failure as `false`, and
  `BeeWiSmartClimAdvertisement.New` returns `Failure` with an `InitError`.
- `BeeWiSmartClimAdvertisement.New`: the source's constructor assigns `readings` before it raises. The model
  returns no object on failure, because a raising constructor gives the caller no object either.
- `src/smartclim_ble/__init__.py` only re-exports names and imports foreign sensor-model types; it has no logic.
