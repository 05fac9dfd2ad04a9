/**
 The command side of the BH1750 driver: the command bytes, the two mode tables
 with their low-resolution fallback, the sensitivity (MTreg) encoding and the
 measurement delay.
 */
module Commands {

  const POWER_DOWN: seq<bv8> := [0x00]
  const POWER_ON: seq<bv8> := [0x01]
  const RESET: seq<bv8> := [0x07]

  const CONTINUOUS_LOW_RES_MODE: string := "CONTINUOUS_LOW_RES_MODE"
  const CONTINUOUS_HIGH_RES_MODE_1: string := "CONTINUOUS_HIGH_RES_MODE_1"
  const CONTINUOUS_HIGH_RES_MODE_2: string := "CONTINUOUS_HIGH_RES_MODE_2"
  const ONE_TIME_LOW_RES_MODE: string := "ONE_TIME_LOW_RES_MODE"
  const ONE_TIME_HIGH_RES_MODE_1: string := "ONE_TIME_HIGH_RES_MODE_1"
  const ONE_TIME_HIGH_RES_MODE_2: string := "ONE_TIME_HIGH_RES_MODE_2"

  const CONTINUOUS_MODES: map<string, seq<bv8>> := map[
    CONTINUOUS_LOW_RES_MODE := [0x13],
    CONTINUOUS_HIGH_RES_MODE_1 := [0x10],
    CONTINUOUS_HIGH_RES_MODE_2 := [0x11]]

  const ONE_TIME_MODES: map<string, seq<bv8>> := map[
    ONE_TIME_LOW_RES_MODE := [0x23],
    ONE_TIME_HIGH_RES_MODE_1 := [0x20],
    ONE_TIME_HIGH_RES_MODE_2 := [0x21]]

  const DEFAULT_ADDRESS: int := 0x23
  const DEFAULT_SENSITIVITY: int := 69
  const MIN_SENSITIVITY: int := 31
  const MAX_SENSITIVITY: int := 254

  // ---------------------------------------------------------------- modes

  /** The command `setContinuousMode(mode)` sends: the table entry, or the low-resolution one. */
  function ContinuousModeCommand(mode: string): (c: seq<bv8>)
    ensures c == [0x10] <==> mode == CONTINUOUS_HIGH_RES_MODE_1
    ensures c == [0x11] <==> mode == CONTINUOUS_HIGH_RES_MODE_2
    ensures c == [0x13] <==> mode != CONTINUOUS_HIGH_RES_MODE_1 && mode != CONTINUOUS_HIGH_RES_MODE_2
    ensures mode !in CONTINUOUS_MODES ==> c == CONTINUOUS_MODES[CONTINUOUS_LOW_RES_MODE]
  {
    if mode in CONTINUOUS_MODES then CONTINUOUS_MODES[mode]
    else CONTINUOUS_MODES[CONTINUOUS_LOW_RES_MODE]
  }

  /** The command `setOneTimeMode(mode)` sends: the table entry, or the low-resolution one. */
  function OneTimeModeCommand(mode: string): (c: seq<bv8>)
    ensures c == [0x20] <==> mode == ONE_TIME_HIGH_RES_MODE_1
    ensures c == [0x21] <==> mode == ONE_TIME_HIGH_RES_MODE_2
    ensures c == [0x23] <==> mode != ONE_TIME_HIGH_RES_MODE_1 && mode != ONE_TIME_HIGH_RES_MODE_2
    ensures mode !in ONE_TIME_MODES ==> c == ONE_TIME_MODES[ONE_TIME_LOW_RES_MODE]
  {
    if mode in ONE_TIME_MODES then ONE_TIME_MODES[mode]
    else ONE_TIME_MODES[ONE_TIME_LOW_RES_MODE]
  }

  // ---------------------------------------------------------- sensitivity

  /** The measurement-time register value `setSensitivity(v)` keeps. */
  function ClampSensitivity(v: int): (s: int)
    ensures MIN_SENSITIVITY <= s <= MAX_SENSITIVITY
    ensures MIN_SENSITIVITY <= v <= MAX_SENSITIVITY ==> s == v
    ensures v < MIN_SENSITIVITY ==> s == MIN_SENSITIVITY
    ensures v > MAX_SENSITIVITY ==> s == MAX_SENSITIVITY
  {
    if v < MIN_SENSITIVITY then MIN_SENSITIVITY
    else if v > MAX_SENSITIVITY then MAX_SENSITIVITY
    else v
  }

  /** The first MTreg command: the three high bits of `s` under the 0x40 opcode. */
  function SensitivityHighCommand(s: int): (c: seq<bv8>)
    requires MIN_SENSITIVITY <= s <= MAX_SENSITIVITY
    ensures |c| == 1 && 0x40 <= c[0] <= 0x47
  {
    [0x40 | ((s as bv8) >> 5)]
  }

  /** The second MTreg command: the five low bits of `s` under the 0x60 opcode. */
  function SensitivityLowCommand(s: int): (c: seq<bv8>)
    requires MIN_SENSITIVITY <= s <= MAX_SENSITIVITY
    ensures |c| == 1 && 0x60 <= c[0] <= 0x7F
  {
    [0x60 | ((s as bv8) & 0x1F)]
  }

  /** The register byte the device assembles from the two MTreg command bytes. */
  function MTregOf(high: bv8, low: bv8): bv8
  {
    ((high & 0x07) << 5) | (low & 0x1F)
  }

  /** The two commands carry exactly the byte of the clamped value. */
  lemma SensitivityRoundTrip(s: int)
    requires MIN_SENSITIVITY <= s <= MAX_SENSITIVITY
    ensures MTregOf(SensitivityHighCommand(s)[0], SensitivityLowCommand(s)[0]) == s as bv8
  {
  }

  /** Every well-formed pair of MTreg commands for an in-range value is the encoding of that value. */
  lemma SensitivityEncodingOnto(high: bv8, low: bv8)
    requires 0x40 <= high <= 0x47 && 0x60 <= low <= 0x7F
    requires MIN_SENSITIVITY <= MTregOf(high, low) as int <= MAX_SENSITIVITY
    ensures SensitivityHighCommand(MTregOf(high, low) as int) == [high]
    ensures SensitivityLowCommand(MTregOf(high, low) as int) == [low]
  {
    var b := MTregOf(high, low);
    ByteToInt(b);
    assert 0x40 | (b >> 5) == high;
    assert 0x60 | (b & 0x1F) == low;
  }

  lemma ByteToInt(b: bv8)
    ensures (b as int) as bv8 == b
  {
  }

  /** The default sensitivity is sent as 0x42 then 0x65. */
  lemma DefaultSensitivityCommands()
    ensures SensitivityHighCommand(DEFAULT_SENSITIVITY) == [0x42]
    ensures SensitivityLowCommand(DEFAULT_SENSITIVITY) == [0x65]
  {
  }

  /** Out-of-range requests are indistinguishable from the nearest bound. */
  lemma ClampOutOfRange(v: int)
    ensures v < MIN_SENSITIVITY ==> ClampSensitivity(v) == ClampSensitivity(MIN_SENSITIVITY)
    ensures v > MAX_SENSITIVITY ==> ClampSensitivity(v) == ClampSensitivity(MAX_SENSITIVITY)
    ensures ClampSensitivity(ClampSensitivity(v)) == ClampSensitivity(v)
  {
  }

  // ---------------------------------------------------------------- delay

  /** The conversion time `oneTimeMeasurement` waits for at the default sensitivity. */
  function BaseDelay(mode: string): (ms: nat)
    ensures ms == 25 || ms == 135
    ensures ms == 25 <==> mode == ONE_TIME_LOW_RES_MODE
  {
    if mode == ONE_TIME_LOW_RES_MODE then 25 else 135
  }

  /**
   The base delay follows the mode NAME, not the command sent: a known name
   waits 25 ms exactly when it selects the low-resolution command, while a name
   outside the table is sent as the low-resolution command and still waits 135 ms.
   */
  lemma BaseDelayVersusCommand(mode: string)
    ensures mode in ONE_TIME_MODES ==> (BaseDelay(mode) == 25 <==> OneTimeModeCommand(mode) == [0x23])
    ensures mode !in ONE_TIME_MODES ==> OneTimeModeCommand(mode) == [0x23] && BaseDelay(mode) == 135
  {
  }

  /** The wait before reading: the base delay scaled by sensitivity / 69, plus the caller's extra time. */
  function DelayMs(mode: string, sensitivity: int, additionalTime: real): (ms: real)
    ensures (ms - additionalTime) * 69.0 == BaseDelay(mode) as real * sensitivity as real
    ensures sensitivity == DEFAULT_SENSITIVITY ==> ms == BaseDelay(mode) as real + additionalTime
  {
    BaseDelay(mode) as real * (sensitivity as real / 69.0) + additionalTime
  }

  /** The wait grows linearly with the sensitivity and equals the base delay at the default. */
  lemma DelayScalesWithSensitivity(mode: string, sensitivity: int, additionalTime: real)
    ensures DelayMs(mode, DEFAULT_SENSITIVITY, additionalTime) == BaseDelay(mode) as real + additionalTime
    ensures (DelayMs(mode, sensitivity, additionalTime) - additionalTime) * 69.0
            == BaseDelay(mode) as real * sensitivity as real
    ensures DelayMs(mode, 2 * sensitivity, 0.0) == 2.0 * DelayMs(mode, sensitivity, 0.0)
  {
  }
}
