# BH1750 ambient-light sensor driver, modelled in Dafny

The driver is one JavaScript class, `BH1750`. It talks to the sensor over an
I²C bus. It powers the chip up and down and resets it. It selects a continuous
or a one-time measurement mode from two name-to-byte tables; an unknown name
falls back to the low-resolution entry of the table. It sets the
measurement-time register (MTreg, the sensitivity), clamped to 31..254 and sent
as two command bytes. It reads the two result bytes and turns them into one
number through a `"0x…"` hexadecimal string.

The model has four modules:

- `JsHex` (`js_hex.dfy`) gives the JavaScript built-ins that the result decoder
  uses: `toString(16)` on a non-negative integer, `slice(-2)`, and `Number` on a
  `0x`/`0X` hexadecimal literal, with `NaN` for a malformed one.
- `Commands` (`commands.dfy`) holds the command side of the class. It has the
  command constants, the two mode tables and their lookups with fallback, the
  clamp, the two MTreg command bytes and the register byte they assemble to,
  and the measurement delay. Command bytes are `bv8`, because the source builds
  them with bit operators.
- `ResultDecoding` (`result_decoding.dfy`) holds `getResult`'s decoding. Each
  byte becomes two hex digits, a left fold (the `reduce`) appends them to
  `"0x"`, and `Number` converts the string. Read bytes are integers 0..255,
  because the source formats them as numbers.
- `Driver` (`driver.dfy`) holds the class `BH1750`. `addr` is a constant and
  `sensitivity` is the one mutable field. The bus is replaced by a ghost `trace`
  of events, oldest first: `Write(bytes, addr)`, `Read(count, addr)` and
  `Wait(ms)`. Each method's postcondition gives exactly the events it appends.
  `Valid()` says that the sensitivity lies in 31..254 and that every bus request
  went to `addr`. Every method keeps `Valid()`. Every method except
  `SetSensitivity` may modify only `trace`, so only `SetSensitivity` can change
  `sensitivity`.

The bytes that a bus read returns are parameters (`hi`, `lo`) of the operations
that read. The `delay` call is recorded as a `Wait` event that carries the
computed duration.

The base wait and the command sent are chosen in two different ways.
index.js:81 picks the base wait by comparing the mode name with
`ONE_TIME_LOW_RES_MODE`. index.js:59-60 sends the low-resolution byte 0x23 for
any name that is not in the table. So an unknown name is measured at low
resolution (typically 16 ms, per the comment at index.js:19) but waits 135 ms.
`Commands.BaseDelayVersusCommand` states this case.

## Model

| member | source | states |
|---|---|---|
| `Commands.ContinuousModeCommand` | index.js:50-55 | sends 0x10 exactly for CONTINUOUS_HIGH_RES_MODE_1 and 0x11 exactly for CONTINUOUS_HIGH_RES_MODE_2; sends 0x13 for every other name; a name outside the table gets the low-resolution entry |
| `Commands.OneTimeModeCommand` | index.js:57-62 | sends 0x20 exactly for ONE_TIME_HIGH_RES_MODE_1 and 0x21 exactly for ONE_TIME_HIGH_RES_MODE_2; sends 0x23 for every other name; a name outside the table gets the low-resolution entry |
| `Commands.ClampSensitivity` | index.js:64-68 | the kept value lies in 31..254; it equals the request when the request is in range, and 31 or 254 when the request is below or above the range |
| `Commands.ClampOutOfRange` | index.js:66-68 | a request below 31 acts like 31 and a request above 254 acts like 254; clamping is idempotent |
| `Commands.SensitivityHighCommand` | index.js:69 | for an in-range value, one command byte in 0x40..0x47 |
| `Commands.SensitivityLowCommand` | index.js:70 | for an in-range value, one command byte in 0x60..0x7F |
| `Commands.SensitivityRoundTrip` | index.js:69-70 | assembling the payload bits of the two bytes, (b1 & 7) << 5 joined with b2 & 0x1f, gives back the byte of the clamped value, so the two commands carry exactly the value |
| `Commands.SensitivityEncodingOnto` | index.js:69-70 | every byte pair in 0x40..0x47 × 0x60..0x7F that carries an in-range value is exactly that value's encoding |
| `Commands.DefaultSensitivityCommands` | index.js:64-70 | the default 69 is sent as 0x42 then 0x65 |
| `Commands.BaseDelay` | index.js:81 | the base wait is 25 exactly when the name is ONE_TIME_LOW_RES_MODE, and 135 otherwise |
| `Commands.BaseDelayVersusCommand` | index.js:77-81 | for a name in the table, the base wait is 25 exactly when the low-resolution byte 0x23 is sent; an unknown name sends 0x23 but waits 135 |
| `Commands.DelayMs` | index.js:80-84 | the wait minus the additional time, times 69, is base × sensitivity, so the wait is base × sensitivity / 69 + additional time; at sensitivity 69 it is base + additional |
| `Commands.DelayScalesWithSensitivity` | index.js:80-84 | the wait is base × sensitivity / 69 + additional time: at 69 it is base + additional, and doubling the sensitivity doubles the scaled part |
| `JsHex.ToHexString` | index.js:74 | `toString(16)` yields hex digits, one digit exactly below 16, and a leading '0' only for zero |
| `JsHex.ToHexStringRoundTrip` | index.js:74 | reading the digits of `toString(16)` back as hex gives the number |
| `JsHex.HexLiteralNumber` | index.js:74 | `Number` on a string with a `0x`/`0X` prefix gives a number exactly when at least one character follows the prefix and all of them are hex digits, and NaN otherwise; `JsHex.HexLiteralRoundTrip` gives the value |
| `JsHex.HexLiteralRoundTrip` | index.js:74 | `Number('0x' + n.toString(16))` is n for every non-negative integer n |
| `JsHex.SliceLast2` | index.js:74 | `slice(-2)` is the suffix of length min(2, length) |
| `ResultDecoding.PadByte` | index.js:74 | `('0' + b.toString(16)).slice(-2)` is exactly two hex digits whose value is b, for every byte 0..255 |
| `ResultDecoding.ReduceHex` | index.js:74 | the `reduce` keeps its seed in front and adds two characters per byte; `ResultDecoding.ReduceHexIsConcat` gives the characters |
| `ResultDecoding.ReduceHexIsConcat` | index.js:74 | the `reduce` appends the padded digits of all bytes, in order, to its seed `'0x'` |
| `ResultDecoding.PaddedHexValue` | index.js:74 | the padded digits are two per byte and spell the big-endian value of the bytes |
| `ResultDecoding.DecodeResult` | index.js:73-75 | `Number` of `'0x'` followed by the padded digits is the big-endian value of any non-empty read, and NaN for an empty one |
| `ResultDecoding.DecodeRead` | index.js:73-75 | the string route on bytes [hi, lo] yields a number, and that number is hi*256 + lo, below 65536 |
| `ResultDecoding.DecodeTwoBytesInjective` | index.js:73-75 | different two-byte reads decode to different numbers |
| `ResultDecoding.DecodeExample` | index.js:73-75 | bytes [0x01, 0x02] decode to 258 |
| `Driver.BH1750.constructor` | index.js:24-31 | writes 0x01, 0x07, 0x42, 0x65, 0x00 in that order, all to `addr` (default 0x23); leaves sensitivity 69 and `Valid()` |
| `Driver.BH1750.SendCommand` | index.js:33-35 | appends exactly one write of the command to `addr` |
| `Driver.BH1750.PowerDown` | index.js:37-39 | appends only the write [0x00] |
| `Driver.BH1750.PowerOn` | index.js:41-43 | appends only the write [0x01] |
| `Driver.BH1750.Reset` | index.js:45-48 | appends [0x01] and then [0x07], with nothing between them |
| `Driver.BH1750.SetContinuousMode` | index.js:50-55 | appends exactly one single-byte write: the continuous-mode command for the name |
| `Driver.BH1750.SetOneTimeMode` | index.js:57-62 | appends exactly one single-byte write: the one-time-mode command for the name |
| `Driver.BH1750.SetSensitivity` | index.js:64-71 | keeps the clamped value, then appends the high command and the low command for it, in that order |
| `Driver.BH1750.GetResult` | index.js:73-75 | appends one 2-byte read from `addr`; the result, computed through the hex string, is hi*256 + lo and below 65536 |
| `Driver.BH1750.Delay` | index.js:80-84 | appends one wait of the given duration and nothing else |
| `Driver.BH1750.OneTimeMeasurement` | index.js:77-86 | appends power-on, reset, one one-time-mode byte, the wait base × sensitivity / 69 + additional time, and one 2-byte read; returns hi*256 + lo |

## Left out

- The bus transport (`bus.write`, `bus.read`) is outside code. Its failures and their propagation are not modelled. Every write is taken to succeed, and a read returns the two bytes the caller supplies. One consequence: the source stores the new sensitivity before it sends the two MTreg bytes, so a failed write would leave the field and the device out of step. The model cannot show that.
- The `bus` field is not modelled. The trace stands in for it.
- `delay` is an undeclared global in index.js (index.js:80). The model assumes a synchronous one.
- `delay` itself is not modelled, and neither is the timer behind it. Only its duration is recorded. That duration uses exact real arithmetic, so the floating-point rounding of `sensitivity / 69` is not modelled.
- `Number` is modelled only for strings that start with a hexadecimal prefix, which are the only strings `getResult` builds. Its other forms (decimal, whitespace, `Infinity`) are not modelled. Neither is the loss of precision above 2^53, which the two-byte read never reaches.
- Non-integer, `NaN` or non-numeric sensitivity arguments are not modelled. The argument is an `int`. Neither is the 32-bit truncation done by `>>` and `&`, which never matters for values in 31..254.
- Mode names are plain strings looked up among the three own keys of each table. Keys inherited from JavaScript's object prototype, such as `"toString"`, are not modelled.
- `Uint8Array` and the static-field syntax are representation details. Commands are `seq<bv8>`.
- Before `setSensitivity` runs inside the constructor, the source leaves `sensitivity` undefined. The model starts it at 69, which nothing reads before it is set.
