/**
 The BH1750 driver object. The bus it talks to is not modelled; instead the
 object keeps a ghost trace of what it asked of the bus, in order: each
 `write(bytes, addr)`, each `read(count, addr)`, and the waits between them.
 The bytes a read returns are supplied by the caller of the operation.
 */
module Driver {
  import opened Commands
  import opened ResultDecoding

  /** One interaction of the driver with the outside world. */
  datatype Event =
    | Write(bytes: seq<bv8>, addr: int)
    | Read(count: nat, addr: int)
    | Wait(ms: real)

  class BH1750 {
    /** The device address on the bus; set once by the constructor. */
    const addr: int
    /** The measurement-time register value last sent to the device. */
    var sensitivity: int
    /** Every bus request and wait so far, oldest first. */
    ghost var trace: seq<Event>

    /** The sensitivity is in range, and every bus request went to this device's address. */
    ghost predicate Valid()
      reads this
    {
      && MIN_SENSITIVITY <= sensitivity <= MAX_SENSITIVITY
      && forall i :: 0 <= i < |trace| ==> (trace[i].Wait? || trace[i].addr == addr)
    }

    /**
     Power-on, reset, the default sensitivity (0x42 then 0x65) and power-down,
     all to `addr`.
     */
    constructor (addr: int := DEFAULT_ADDRESS)
      ensures Valid()
      ensures this.addr == addr && sensitivity == DEFAULT_SENSITIVITY
      ensures trace == [Write([0x01], addr), Write([0x07], addr),
                        Write([0x42], addr), Write([0x65], addr), Write([0x00], addr)]
    {
      this.addr := addr;
      // The sensitivity has no value until the setSensitivity call below;
      // any in-range value serves until then, since reset does not read it.
      sensitivity := DEFAULT_SENSITIVITY;
      trace := [];
      new;
      Reset();
      SetSensitivity();
      PowerDown();
      DefaultSensitivityCommands();
    }

    /** One `write` of `c` to this device. */
    method SendCommand(c: seq<bv8>)
      requires Valid()
      modifies this`trace
      ensures Valid()
      ensures trace == old(trace) + [Write(c, addr)]
    {
      trace := trace + [Write(c, addr)];
    }

    method PowerDown()
      requires Valid()
      modifies this`trace
      ensures Valid()
      ensures trace == old(trace) + [Write(POWER_DOWN, addr)]
    {
      SendCommand(POWER_DOWN);
    }

    method PowerOn()
      requires Valid()
      modifies this`trace
      ensures Valid()
      ensures trace == old(trace) + [Write(POWER_ON, addr)]
    {
      SendCommand(POWER_ON);
    }

    /** Power-on immediately followed by reset; never the reset alone. */
    method Reset()
      requires Valid()
      modifies this`trace
      ensures Valid()
      ensures trace == old(trace) + [Write(POWER_ON, addr), Write(RESET, addr)]
    {
      PowerOn();
      SendCommand(RESET);
    }

    /** Exactly one single-byte write: the continuous-mode byte for `mode`, low resolution for unknown names. */
    method SetContinuousMode(mode: string)
      requires Valid()
      modifies this`trace
      ensures Valid()
      ensures trace == old(trace) + [Write(ContinuousModeCommand(mode), addr)]
    {
      SendCommand(ContinuousModeCommand(mode));
    }

    /** Exactly one single-byte write: the one-time-mode byte for `mode`, low resolution for unknown names. */
    method SetOneTimeMode(mode: string)
      requires Valid()
      modifies this`trace
      ensures Valid()
      ensures trace == old(trace) + [Write(OneTimeModeCommand(mode), addr)]
    {
      SendCommand(OneTimeModeCommand(mode));
    }

    /**
     Keeps the clamped value, then sends its high three bits under 0x40 and its
     low five bits under 0x60, in that order. The only method that changes
     `sensitivity`.
     */
    method SetSensitivity(v: int := DEFAULT_SENSITIVITY)
      requires Valid()
      modifies this
      ensures Valid()
      ensures sensitivity == ClampSensitivity(v)
      ensures trace == old(trace) + [Write(SensitivityHighCommand(sensitivity), addr),
                                     Write(SensitivityLowCommand(sensitivity), addr)]
    {
      sensitivity := ClampSensitivity(v);
      SendCommand(SensitivityHighCommand(sensitivity));
      SendCommand(SensitivityLowCommand(sensitivity));
    }

    /**
     One two-byte `read` from this device; `hi` and `lo` are the bytes the bus
     returns. The result is their big-endian value.
     */
    method GetResult(hi: Byte, lo: Byte) returns (r: nat)
      requires Valid()
      modifies this`trace
      ensures Valid()
      ensures trace == old(trace) + [Read(2, addr)]
      ensures r == hi * 256 + lo && r < 65536
    {
      trace := trace + [Read(2, addr)];
      r := DecodeRead(hi, lo);
    }

    /** The wait of `ms` milliseconds, taken as synchronous; only its duration is recorded. */
    method Delay(ms: real)
      requires Valid()
      modifies this`trace
      ensures Valid()
      ensures trace == old(trace) + [Wait(ms)]
    {
      trace := trace + [Wait(ms)];
    }

    /**
     Reset, one one-time-mode byte, the wait for the conversion, then one
     two-byte read whose bytes `hi`, `lo` give the result.
     */
    method OneTimeMeasurement(mode: string, hi: Byte, lo: Byte, additionalTime: real := 0.0) returns (r: nat)
      requires Valid()
      modifies this`trace
      ensures Valid()
      ensures trace == old(trace) + [Write(POWER_ON, addr), Write(RESET, addr),
                                     Write(OneTimeModeCommand(mode), addr),
                                     Wait(DelayMs(mode, sensitivity, additionalTime)),
                                     Read(2, addr)]
      ensures r == hi * 256 + lo
    {
      Reset();
      SetOneTimeMode(mode);
      Delay(DelayMs(mode, sensitivity, additionalTime));
      r := GetResult(hi, lo);
    }
  }

  /** A driver at the default address and sensitivity measures once in low resolution, then at double sensitivity. */
  method DefaultDriverWaits(hi: Byte, lo: Byte)
  {
    var sensor := new BH1750();
    assert sensor.addr == 0x23;
    var r := sensor.OneTimeMeasurement(ONE_TIME_LOW_RES_MODE, hi, lo);
    assert sensor.trace[|sensor.trace| - 2] == Wait(25.0);
    sensor.SetSensitivity(138);
    r := sensor.OneTimeMeasurement(ONE_TIME_LOW_RES_MODE, hi, lo);
    assert sensor.trace[|sensor.trace| - 2] == Wait(50.0);
    sensor.SetSensitivity(1000);
    assert sensor.sensitivity == 254;
  }
}
