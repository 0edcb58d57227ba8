/**
 * The DS18B20 1-Wire driver of ds18b20.c: bit slots, LSB-first bytes, the
 * reset/presence probe, and the two-phase temperature transaction with its
 * validation of the raw sample.
 *
 * Every primitive is a method of `Driver` whose postcondition gives the
 * trace it leaves on the board as a function of the trace before it; the
 * lemmas below read durations, low times, sampling instants and interrupt
 * masking off those functions.
 */
module Ds18b20 {
  import opened Hal
  import opened Bits

  // 1-Wire command bytes (ds18b20.c:18-20).
  const SkipRom: bv8 := 0xCC
  const ConvertT: bv8 := 0x44
  const ReadScratchpad: bv8 := 0xBE

  // Timing constants in microseconds (ds18b20.c:23-32).
  const ResetPulseUs: nat := 500
  const PresenceWaitUs: nat := 70
  const PresenceReadUs: nat := 240
  const Write1LowUs: nat := 6
  const Write1HighUs: nat := 64
  const Write0LowUs: nat := 60
  const Write0HighUs: nat := 10
  const ReadLowUs: nat := 6
  const ReadSampleUs: nat := 9
  const ReadHighUs: nat := 55

  const SettleMs: nat := 10
  const ConversionMs: nat := 750
  const DefaultPin: nat := 2
  const ScratchpadSize: nat := 9

  /** The length of a bit slot of either kind, and of a reset cycle. */
  const SlotUs: nat := 70
  const ResetUs: nat := ResetPulseUs + PresenceWaitUs + PresenceReadUs

  /** ds18b20_result_t, with the integer value of each enumerator. */
  datatype Status = Ok | ErrorNoDevice | ErrorCrc | ErrorTimeout
  {
    function Code(): int
    {
      match this
      case Ok => 0
      case ErrorNoDevice => -1
      case ErrorCrc => -2
      case ErrorTimeout => -3
    }
  }

  /** A result code together with what `*temperature_c` holds when it is returned. */
  datatype Reading = Reading(status: Status, celsius: real)

  // ---------------------------------------------------------------------
  // The SDK calls of each primitive, appended to a trace.
  // ---------------------------------------------------------------------

  /** Drive the line low and hold it for `us`. */
  function LowPulse(t: Trace, pin: nat, us: nat): Trace
  {
    Then(Then(Then(t, SetDir(pin, Out)), Put(pin, false)), BusyWaitUs(us))
  }

  /** Release the line (input, pulled up) and wait `us`. */
  function Release(t: Trace, pin: nat, us: nat): Trace
  {
    Then(Then(t, SetDir(pin, In)), BusyWaitUs(us))
  }

  /** Sample the line, seeing `level`, and wait `us`. */
  function Sample(t: Trace, pin: nat, level: bool, us: nat): Trace
  {
    Then(Then(t, Get(pin, level)), BusyWaitUs(us))
  }

  /** ds18b20_reset (and the probe inside ds18b20_init); `level` is the level sampled. */
  function ResetOn(t: Trace, pin: nat, irq: bool, level: bool): Trace
  {
    var low := LowPulse(Then(t, IrqSave(irq)), pin, ResetPulseUs);
    Then(Sample(Release(low, pin, PresenceWaitUs), pin, level, PresenceReadUs), IrqRestore(irq))
  }

  /** ds18b20_write_bit */
  function WriteBitOn(t: Trace, pin: nat, irq: bool, bit: bool): Trace
  {
    var low := LowPulse(Then(t, IrqSave(irq)), pin, if bit then Write1LowUs else Write0LowUs);
    Then(Release(low, pin, if bit then Write1HighUs else Write0HighUs), IrqRestore(irq))
  }

  /** ds18b20_read_bit; `level` is the level sampled. */
  function ReadBitOn(t: Trace, pin: nat, irq: bool, level: bool): Trace
  {
    var low := LowPulse(Then(t, IrqSave(irq)), pin, ReadLowUs);
    Then(Sample(Release(low, pin, ReadSampleUs), pin, level, ReadHighUs), IrqRestore(irq))
  }

  /** The first n write slots of ds18b20_write_byte(v): slot i carries bit i. */
  function WriteBitsOn(t: Trace, pin: nat, irq: bool, v: bv8, n: nat): Trace
    requires n <= 8
  {
    if n == 0 then t else WriteBitOn(WriteBitsOn(t, pin, irq, v, n - 1), pin, irq, Bit(v, n - 1))
  }

  /** The first n read slots of a ds18b20_read_byte that returns v: slot i
      samples bit i. */
  function ReadBitsOn(t: Trace, pin: nat, irq: bool, v: bv8, n: nat): Trace
    requires n <= 8
  {
    if n == 0 then t else ReadBitOn(ReadBitsOn(t, pin, irq, v, n - 1), pin, irq, Bit(v, n - 1))
  }

  function WriteByteOn(t: Trace, pin: nat, irq: bool, v: bv8): Trace
  {
    WriteBitsOn(t, pin, irq, v, 8)
  }

  function ReadByteOn(t: Trace, pin: nat, irq: bool, v: bv8): Trace
  {
    ReadBitsOn(t, pin, irq, v, 8)
  }

  /** The first n read slots from sample k of a device script, each slot
      sampling the level the script presents. */
  function SlotsOn(t: Trace, pin: nat, irq: bool, script: seq<bool>, k: nat, n: nat): Trace
  {
    if n == 0 then t else ReadBitOn(SlotsOn(t, pin, irq, script, k, n - 1), pin, irq, Level(script, k + n - 1))
  }

  /** The set-up calls of ds18b20_init before its probe. */
  function SetupOn(t: Trace, pin: nat): Trace
  {
    Then(Then(Then(Then(t, GpioInit(pin)), SetDir(pin, In)), PullUp(pin)), SleepMs(SettleMs))
  }

  // ---------------------------------------------------------------------
  // Bus transactions as protocol steps.
  // ---------------------------------------------------------------------

  datatype BusStep = ResetPulse(presence: bool) | Send(value: bv8) | Receive(value: bv8) | Pause(ms: nat)

  function StepOn(t: Trace, pin: nat, irq: bool, st: BusStep): Trace
  {
    match st
    case ResetPulse(p) => ResetOn(t, pin, irq, !p)
    case Send(v) => WriteByteOn(t, pin, irq, v)
    case Receive(v) => ReadByteOn(t, pin, irq, v)
    case Pause(ms) => Then(t, SleepMs(ms))
  }

  /** The trace of a sequence of protocol steps, appended to t. */
  function Expand(t: Trace, pin: nat, irq: bool, steps: seq<BusStep>): Trace
    decreases |steps|
  {
    if steps == [] then t
    else StepOn(Expand(t, pin, irq, steps[..|steps| - 1]), pin, irq, steps[|steps| - 1])
  }

  function BytesWritten(steps: seq<BusStep>): seq<bv8>
    decreases |steps|
  {
    if steps == [] then []
    else
      var last := steps[|steps| - 1];
      BytesWritten(steps[..|steps| - 1]) + (if last.Send? then [last.value] else [])
  }

  function BytesRead(steps: seq<BusStep>): seq<bv8>
    decreases |steps|
  {
    if steps == [] then []
    else
      var last := steps[|steps| - 1];
      BytesRead(steps[..|steps| - 1]) + (if last.Receive? then [last.value] else [])
  }

  /** Scratchpad byte j as the device delivers it when the first bit of byte 0
      is sample `base` of the script: 8 samples per byte, in wire order. */
  function ScratchpadByte(script: seq<bool>, base: nat, j: nat): bv8
  {
    ByteFrom(script, base + 8 * j, 8)
  }

  /** The byte ds18b20_read_byte has accumulated after n read slots starting
      at sample k: the level of slot i sets `1 << i`. */
  function ByteFrom(script: seq<bool>, k: nat, n: nat): bv8
    requires n <= 8
  {
    if n == 0 then 0
    else Accumulate(ByteFrom(script, k, n - 1), Level(script, k + n - 1), n - 1)
  }

  /** One step of ds18b20_read_byte: a high slot i sets `1 << i`. */
  function Accumulate(v: bv8, bit: bool, i: nat): bv8
    requires i < 8
  {
    if bit then v | (1 << i) else v
  }

  /** The first n scratchpad bytes, each received in turn. */
  function ScratchpadReads(script: seq<bool>, base: nat, n: nat): seq<BusStep>
  {
    if n == 0 then [] else ScratchpadReads(script, base, n - 1) + [Receive(ScratchpadByte(script, base, n - 1))]
  }

  /** The command prefix of a transaction in which the device answers both resets. */
  function CommandSteps(): seq<BusStep>
  {
    [ResetPulse(true), Send(SkipRom), Send(ConvertT), Pause(ConversionMs),
     ResetPulse(true), Send(SkipRom), Send(ReadScratchpad)]
  }

  /** The protocol steps of ds18b20_read_temperature against a device script,
      when the transaction starts at sample `at`. */
  function Transcript(script: seq<bool>, at: nat): seq<BusStep>
  {
    if Level(script, at) then [ResetPulse(false)]
    else if Level(script, at + 1) then
      [ResetPulse(true), Send(SkipRom), Send(ConvertT), Pause(ConversionMs), ResetPulse(false)]
    else CommandSteps() + ScratchpadReads(script, at + 2, ScratchpadSize)
  }

  /** How many line samples the transaction takes. */
  function SamplesUsed(script: seq<bool>, at: nat): nat
  {
    if Level(script, at) then 1 else if Level(script, at + 1) then 2 else 2 + 8 * ScratchpadSize
  }

  // ---------------------------------------------------------------------
  // Validation of the raw sample (ds18b20.c:209-224).
  // ---------------------------------------------------------------------

  /** The int16_t that a value in 0..0xFFFF becomes (two's complement). */
  function Int16(u: int): (r: int)
    requires 0 <= u < 0x1_0000
    ensures -0x8000 <= r < 0x8000
    ensures r % 0x1_0000 == u
  {
    if u < 0x8000 then u else u - 0x1_0000
  }

  /** `(temp_msb << 8) | temp_lsb` is computed in int, where it equals
      msb * 256 + lsb; storing it in an int16_t wraps it. */
  function RawSample(lsb: bv8, msb: bv8): (r: int)
    ensures -0x8000 <= r < 0x8000
  {
    Int16(msb as int * 256 + lsb as int)
  }

  /** The raw values the driver rejects before converting, as the test is
      written (ds18b20.c:212). */
  predicate Sentinel(raw: int)
  {
    raw == 0x0550 || raw == 0xFFFF || raw == 0x0000
  }

  /** The decision ds18b20_read_temperature takes on the two scratchpad bytes,
      written as the code has it. The comparison with 0xFFFF is between an
      int16_t promoted to int and 65535. */
  function Validate(lsb: bv8, msb: bv8): Reading
  {
    var raw := RawSample(lsb, msb);
    if Sentinel(raw) then Reading(ErrorCrc, 0.0)
    else
      var celsius := raw as real / 16.0;
      if celsius < -55.0 || celsius > 125.0 then Reading(ErrorCrc, celsius)
      else Reading(Ok, celsius)
  }

  /** What ds18b20_read_temperature returns and leaves in `*temperature_c`. */
  function Outcome(script: seq<bool>, at: nat): Reading
  {
    if Level(script, at) || Level(script, at + 1) then Reading(ErrorNoDevice, 0.0)
    else Validate(ScratchpadByte(script, at + 2, 0), ScratchpadByte(script, at + 2, 1))
  }

  // ---------------------------------------------------------------------
  // Pure helpers (ds18b20.c:230-250).
  // ---------------------------------------------------------------------

  function CelsiusToFahrenheit(celsius: real): (f: real)
    ensures (f - 32.0) * 5.0 / 9.0 == celsius
  {
    celsius * 9.0 / 5.0 + 32.0
  }

  function ErrorString(code: int): (s: string)
    ensures s == "Unknown error" <==> code < ErrorTimeout.Code() || code > Ok.Code()
  {
    if code == Ok.Code() then "Success"
    else if code == ErrorNoDevice.Code() then "No device found"
    else if code == ErrorCrc.Code() then "Invalid reading"
    else if code == ErrorTimeout.Code() then "Timeout or invalid parameter"
    else "Unknown error"
  }

  // ---------------------------------------------------------------------
  // The driver.
  // ---------------------------------------------------------------------

  /** The caller's `float` that `temperature_c` points to. */
  class FloatCell {
    var value: real
    constructor (v: real)
      ensures value == v
    {
      value := v;
    }
  }

  /** The driver's one piece of state, the pin number, and the board it drives. */
  class Driver {
    var gpio: nat
    const board: Board

    constructor (board: Board)
      ensures gpio == DefaultPin && this.board == board
    {
      gpio := DefaultPin;
      this.board := board;
    }

    /** ds18b20_init */
    method Init(pin: nat) returns (r: Status)
      requires board.Valid()
      modifies this`gpio, board
      ensures board.Valid()
      ensures gpio == pin
      ensures r == if Level(board.script, old(board.sampled)) then ErrorNoDevice else Ok
      ensures board.trace == ResetOn(SetupOn(old(board.trace), pin), pin, old(board.irqEnabled),
                                     Level(board.script, old(board.sampled)))
      ensures board.sampled == old(board.sampled) + 1
      ensures board.dir == In && !board.latch && board.pullUp
      ensures board.irqEnabled == old(board.irqEnabled)
    {
      gpio := pin;
      board.GpioInit(gpio);
      board.SetDir(gpio, In);
      board.PullUp(gpio);
      board.SleepMs(SettleMs);
      // ds18b20.c:49-66 repeat the sequence of ds18b20_reset.
      var presence := Reset();
      r := if presence then Ok else ErrorNoDevice;
    }

    /** ds18b20_reset: reset pulse, then sample for the presence pulse. */
    method Reset() returns (presence: bool)
      requires board.Valid()
      modifies board
      ensures board.Valid()
      ensures presence == !Level(board.script, old(board.sampled))
      ensures board.trace == ResetOn(old(board.trace), gpio, old(board.irqEnabled), !presence)
      ensures board.sampled == old(board.sampled) + 1
      ensures board.dir == In && !board.latch && board.pullUp == old(board.pullUp)
      ensures board.irqEnabled == old(board.irqEnabled)
    {
      var ints := board.SaveAndDisableInterrupts();
      board.SetDir(gpio, Out);
      board.Put(gpio, false);
      board.BusyWaitUs(ResetPulseUs);
      board.SetDir(gpio, In);
      board.BusyWaitUs(PresenceWaitUs);
      var level := board.Get(gpio);
      presence := !level;
      board.BusyWaitUs(PresenceReadUs);
      board.RestoreInterrupts(ints);
    }

    /** ds18b20_write_bit */
    method WriteBit(bit: bool)
      requires board.Valid()
      modifies board
      ensures board.Valid()
      ensures board.trace == WriteBitOn(old(board.trace), gpio, old(board.irqEnabled), bit)
      ensures board.sampled == old(board.sampled)
      ensures board.dir == In && !board.latch && board.pullUp == old(board.pullUp)
      ensures board.irqEnabled == old(board.irqEnabled)
    {
      var ints := board.SaveAndDisableInterrupts();
      if bit {
        board.SetDir(gpio, Out);
        board.Put(gpio, false);
        board.BusyWaitUs(Write1LowUs);
        board.SetDir(gpio, In);
        board.BusyWaitUs(Write1HighUs);
      } else {
        board.SetDir(gpio, Out);
        board.Put(gpio, false);
        board.BusyWaitUs(Write0LowUs);
        board.SetDir(gpio, In);
        board.BusyWaitUs(Write0HighUs);
      }
      board.RestoreInterrupts(ints);
    }

    /** ds18b20_read_bit */
    method ReadBit() returns (bit: bool)
      requires board.Valid()
      modifies board
      ensures board.Valid()
      ensures bit == Level(board.script, old(board.sampled))
      ensures board.trace == ReadBitOn(old(board.trace), gpio, old(board.irqEnabled), bit)
      ensures board.sampled == old(board.sampled) + 1
      ensures board.dir == In && !board.latch && board.pullUp == old(board.pullUp)
      ensures board.irqEnabled == old(board.irqEnabled)
    {
      var ints := board.SaveAndDisableInterrupts();
      board.SetDir(gpio, Out);
      board.Put(gpio, false);
      board.BusyWaitUs(ReadLowUs);
      board.SetDir(gpio, In);
      board.BusyWaitUs(ReadSampleUs);
      bit := board.Get(gpio);
      board.BusyWaitUs(ReadHighUs);
      board.RestoreInterrupts(ints);
    }

    /** ds18b20_write_byte: bit i of v goes in the i-th slot. */
    method WriteByte(v: bv8)
      requires board.Valid()
      modifies board
      ensures board.Valid()
      ensures board.trace == WriteByteOn(old(board.trace), gpio, old(board.irqEnabled), v)
      ensures board.sampled == old(board.sampled)
      ensures board.dir == In && !board.latch && board.pullUp == old(board.pullUp)
      ensures board.irqEnabled == old(board.irqEnabled)
    {
      for i := 0 to 8
        invariant board.Valid()
        invariant board.trace == WriteBitsOn(old(board.trace), gpio, old(board.irqEnabled), v, i)
        invariant board.sampled == old(board.sampled)
        invariant board.pullUp == old(board.pullUp) && board.irqEnabled == old(board.irqEnabled)
        invariant i > 0 ==> board.dir == In && !board.latch
      {
        WriteBit(v & (1 << i) != 0);
      }
    }

    /** ds18b20_read_byte: the i-th slot's level becomes bit i of the result. */
    method ReadByte() returns (v: bv8)
      requires board.Valid()
      modifies board
      ensures board.Valid()
      ensures v == ByteFrom(board.script, old(board.sampled), 8)
      ensures board.trace == ReadByteOn(old(board.trace), gpio, old(board.irqEnabled), v)
      ensures board.sampled == old(board.sampled) + 8
      ensures board.dir == In && !board.latch && board.pullUp == old(board.pullUp)
      ensures board.irqEnabled == old(board.irqEnabled)
    {
      ghost var k0, t0, irq := board.sampled, board.trace, board.irqEnabled;
      v := 0;
      for i := 0 to 8
        invariant board.Valid()
        invariant v == ByteFrom(board.script, k0, i)
        invariant board.sampled == k0 + i
        invariant board.trace == SlotsOn(t0, gpio, irq, board.script, k0, i)
        invariant board.pullUp == old(board.pullUp) && board.irqEnabled == irq
        invariant i > 0 ==> board.dir == In && !board.latch
      {
        var bit := ReadBit();
        ghost var before := v;
        if bit {
          v := v | (1 << i);
        }
        assert v == Accumulate(before, bit, i);
      }
      SlotsAreByte(t0, gpio, irq, board.script, k0, 8);
    }

    /** SKIP ROM followed by a function command, as ds18b20_read_temperature
        issues them (ds18b20.c:185-186 and 196-197). */
    method SkipRomCommand(command: bv8)
      requires board.Valid()
      modifies board
      ensures board.Valid()
      ensures board.trace == WriteByteOn(WriteByteOn(old(board.trace), gpio, old(board.irqEnabled), SkipRom),
                                         gpio, old(board.irqEnabled), command)
      ensures board.sampled == old(board.sampled)
      ensures board.dir == In && !board.latch && board.pullUp == old(board.pullUp)
      ensures board.irqEnabled == old(board.irqEnabled)
    {
      WriteByte(SkipRom);
      WriteByte(command);
    }

    /** The reads of ds18b20_read_temperature (ds18b20.c:199-206): the two
        temperature bytes, then the seven remaining scratchpad bytes, read
        and discarded. */
    method ReadScratchpadBytes() returns (lsb: bv8, msb: bv8)
      requires board.Valid()
      modifies board
      ensures board.Valid()
      ensures lsb == ScratchpadByte(board.script, old(board.sampled), 0)
      ensures msb == ScratchpadByte(board.script, old(board.sampled), 1)
      ensures board.trace == ScratchpadOn(old(board.trace), gpio,
                                          old(board.irqEnabled), board.script, old(board.sampled), ScratchpadSize)
      ensures board.sampled == old(board.sampled) + 8 * ScratchpadSize
      ensures board.dir == In && !board.latch && board.pullUp == old(board.pullUp)
      ensures board.irqEnabled == old(board.irqEnabled)
    {
      ghost var base, irq, request := board.sampled, board.irqEnabled, board.trace;
      lsb := ReadByte();
      msb := ReadByte();
      assert ScratchpadOn(request, gpio, irq, board.script, base, 1) == ReadByteOn(request, gpio, irq, lsb);
      for i := 2 to ScratchpadSize
        invariant board.Valid()
        invariant board.sampled == base + 8 * i
        invariant board.trace == ScratchpadOn(request, gpio, irq, board.script, base, i)
        invariant board.dir == In && !board.latch
        invariant board.irqEnabled == irq && board.pullUp == old(board.pullUp)
      {
        var discarded := ReadByte();
      }
    }

    /** ds18b20_read_temperature; `dest` is `temperature_c`. The transaction
        starts at the board's current sample. */
    method ReadTemperature(dest: FloatCell?) returns (r: Status)
      requires board.Valid()
      modifies board, dest
      ensures board.Valid()
      ensures dest == null ==> r == ErrorTimeout && board.trace == old(board.trace)
      ensures dest == null ==> board.sampled == old(board.sampled)
      ensures dest == null ==> board.dir == old(board.dir) && board.latch == old(board.latch)
      ensures dest != null ==> r == Outcome(board.script, old(board.sampled)).status
      ensures dest != null ==> dest.value == Outcome(board.script, old(board.sampled)).celsius
      ensures dest != null ==>
        board.trace == TransactionOn(old(board.trace), gpio, old(board.irqEnabled), board.script, old(board.sampled))
      ensures dest != null ==> board.sampled == old(board.sampled) + SamplesUsed(board.script, old(board.sampled))
      ensures dest != null ==> board.dir == In && !board.latch
      ensures board.irqEnabled == old(board.irqEnabled) && board.pullUp == old(board.pullUp)
    {
      if dest == null {
        return ErrorTimeout;
      }
      ghost var at, t0, irq := board.sampled, board.trace, board.irqEnabled;
      dest.value := 0.0;

      var present := Reset();
      if !present {
        return ErrorNoDevice;
      }

      SkipRomCommand(ConvertT);
      board.SleepMs(ConversionMs);

      present := Reset();
      if !present {
        return ErrorNoDevice;
      }

      SkipRomCommand(ReadScratchpad);
      var lsb, msb := ReadScratchpadBytes();
      assert Outcome(board.script, at) == Validate(lsb, msb);
      r := CheckSample(lsb, msb, dest);
    }

    /** The end of ds18b20_read_temperature (ds18b20.c:208-224): combine the
        two bytes, reject the sentinels without touching `*temperature_c`,
        store the reading, then reject it if it is out of range. */
    method CheckSample(lsb: bv8, msb: bv8, dest: FloatCell) returns (r: Status)
      modifies dest
      ensures r == Validate(lsb, msb).status
      ensures dest.value == if Sentinel(RawSample(lsb, msb)) then old(dest.value) else Validate(lsb, msb).celsius
    {
      var raw := RawSample(lsb, msb);
      if raw == 0x0550 || raw == 0xFFFF || raw == 0x0000 {
        return ErrorCrc;
      }
      dest.value := raw as real / 16.0;
      if dest.value < -55.0 || dest.value > 125.0 {
        return ErrorCrc;
      }
      return Ok;
    }
  }

  // ---------------------------------------------------------------------
  // The trace of a transaction, step by step.
  // ---------------------------------------------------------------------

  /** The calls of ds18b20_read_temperature against a device script, when the
      transaction starts at sample `at`, appended to t. */
  function TransactionOn(t: Trace, pin: nat, irq: bool, script: seq<bool>, at: nat): Trace
  {
    if Level(script, at) then ResetOn(t, pin, irq, true)
    else
      var converted := ConvertOn(ResetOn(t, pin, irq, false), pin, irq);
      if Level(script, at + 1) then ResetOn(converted, pin, irq, true)
      else ScratchpadOn(RequestOn(ResetOn(converted, pin, irq, false), pin, irq), pin, irq, script, at + 2, ScratchpadSize)
  }

  /** The read slots of the first n scratchpad bytes, appended to t. */
  function ScratchpadOn(t: Trace, pin: nat, irq: bool, script: seq<bool>, base: nat, n: nat): Trace
  {
    if n == 0 then t else ReadByteOn(ScratchpadOn(t, pin, irq, script, base, n - 1), pin, irq, ScratchpadByte(script, base, n - 1))
  }

  /** SKIP ROM, CONVERT T and the conversion wait, appended to t. */
  function ConvertOn(t: Trace, pin: nat, irq: bool): Trace
  {
    Then(WriteByteOn(WriteByteOn(t, pin, irq, SkipRom), pin, irq, ConvertT), SleepMs(ConversionMs))
  }

  /** SKIP ROM and READ SCRATCHPAD, appended to t. */
  function RequestOn(t: Trace, pin: nat, irq: bool): Trace
  {
    WriteByteOn(WriteByteOn(t, pin, irq, SkipRom), pin, irq, ReadScratchpad)
  }

  /** The trace of the command prefix, call by call. */
  function CommandOn(t: Trace, pin: nat, irq: bool): Trace
  {
    RequestOn(ResetOn(ConvertOn(ResetOn(t, pin, irq, false), pin, irq), pin, irq, false), pin, irq)
  }

  lemma ExpandSnoc(t: Trace, pin: nat, irq: bool, steps: seq<BusStep>, st: BusStep)
    ensures Expand(t, pin, irq, steps + [st]) == StepOn(Expand(t, pin, irq, steps), pin, irq, st)
  {
    assert (steps + [st])[..|steps|] == steps;
  }

  /** The transaction when the first sample is high (no presence pulse). */
  lemma FirstResetAbsent(t: Trace, pin: nat, irq: bool, script: seq<bool>, at: nat)
    requires Level(script, at)
    ensures Expand(t, pin, irq, Transcript(script, at)) == ResetOn(t, pin, irq, true)
    ensures SamplesUsed(script, at) == 1
    ensures Outcome(script, at) == Reading(ErrorNoDevice, 0.0)
  {
    ExpandSnoc(t, pin, irq, [], ResetPulse(false));
  }

  /** The transaction when the device answers the first reset but not the second. */
  lemma SecondResetAbsent(t: Trace, pin: nat, irq: bool, script: seq<bool>, at: nat)
    requires !Level(script, at) && Level(script, at + 1)
    ensures Expand(t, pin, irq, Transcript(script, at))
         == ResetOn(ConvertOn(ResetOn(t, pin, irq, false), pin, irq), pin, irq, true)
    ensures SamplesUsed(script, at) == 2
    ensures Outcome(script, at) == Reading(ErrorNoDevice, 0.0)
  {
    var s := Transcript(script, at);
    ExpandSnoc(t, pin, irq, [], s[0]);
    ExpandSnoc(t, pin, irq, s[..1], s[1]);
    ExpandSnoc(t, pin, irq, s[..2], s[2]);
    ExpandSnoc(t, pin, irq, s[..3], s[3]);
    ExpandSnoc(t, pin, irq, s[..4], s[4]);
    assert s[..1] == [] + [s[0]] && s[..2] == s[..1] + [s[1]] && s[..3] == s[..2] + [s[2]];
    assert s[..4] == s[..3] + [s[3]] && s == s[..4] + [s[4]];
  }

  /** The command prefix expands to the command calls. */
  lemma CommandTrace(t: Trace, pin: nat, irq: bool)
    ensures Expand(t, pin, irq, CommandSteps()) == CommandOn(t, pin, irq)
  {
    var s0: seq<BusStep> := [];
    var s1 := s0 + [ResetPulse(true)];
    ExpandSnoc(t, pin, irq, s0, ResetPulse(true));
    var s2 := s1 + [Send(SkipRom)];
    ExpandSnoc(t, pin, irq, s1, Send(SkipRom));
    var s3 := s2 + [Send(ConvertT)];
    ExpandSnoc(t, pin, irq, s2, Send(ConvertT));
    var s4 := s3 + [Pause(ConversionMs)];
    ExpandSnoc(t, pin, irq, s3, Pause(ConversionMs));
    var s5 := s4 + [ResetPulse(true)];
    ExpandSnoc(t, pin, irq, s4, ResetPulse(true));
    var s6 := s5 + [Send(SkipRom)];
    ExpandSnoc(t, pin, irq, s5, Send(SkipRom));
    var s7 := s6 + [Send(ReadScratchpad)];
    ExpandSnoc(t, pin, irq, s6, Send(ReadScratchpad));
    assert s7 == CommandSteps();
  }

  lemma ReadsSnoc(steps: seq<BusStep>, script: seq<bool>, base: nat, n: nat)
    requires n > 0
    ensures steps + ScratchpadReads(script, base, n)
         == (steps + ScratchpadReads(script, base, n - 1)) + [Receive(ScratchpadByte(script, base, n - 1))]
  {
  }

  /** Each scratchpad byte received after some steps adds its read slots. */
  lemma {:induction false} ExpandReads(t: Trace, pin: nat, irq: bool, steps: seq<BusStep>, script: seq<bool>, base: nat, n: nat)
    ensures Expand(t, pin, irq, steps + ScratchpadReads(script, base, n))
         == ScratchpadOn(Expand(t, pin, irq, steps), pin, irq, script, base, n)
  {
    if n == 0 {
      assert steps + ScratchpadReads(script, base, 0) == steps;
    } else {
      ExpandReads(t, pin, irq, steps, script, base, n - 1);
      ReadsSnoc(steps, script, base, n);
      ExpandSnoc(t, pin, irq, steps + ScratchpadReads(script, base, n - 1), Receive(ScratchpadByte(script, base, n - 1)));
    }
  }

  /** After the command prefix, the scratchpad reads add their read slots. */
  lemma ReadsTrace(t: Trace, pin: nat, irq: bool, script: seq<bool>, base: nat, n: nat)
    ensures Expand(t, pin, irq, CommandSteps() + ScratchpadReads(script, base, n))
         == ScratchpadOn(CommandOn(t, pin, irq), pin, irq, script, base, n)
  {
    ExpandReads(t, pin, irq, CommandSteps(), script, base, n);
    CommandTrace(t, pin, irq);
  }

  /** The transaction when the device answers both resets: the driver's calls
      are the command prefix followed by the read slots of all nine scratchpad
      bytes, and the reading is decided on the first two. */
  lemma FullTrace(t: Trace, pin: nat, irq: bool, script: seq<bool>, at: nat)
    requires !Level(script, at) && !Level(script, at + 1)
    ensures Expand(t, pin, irq, Transcript(script, at))
         == ScratchpadOn(CommandOn(t, pin, irq), pin, irq, script, at + 2, ScratchpadSize)
    ensures SamplesUsed(script, at) == 2 + 8 * ScratchpadSize
    ensures Outcome(script, at) == Validate(ScratchpadByte(script, at + 2, 0), ScratchpadByte(script, at + 2, 1))
  {
    ReadsTrace(t, pin, irq, script, at + 2, ScratchpadSize);
  }

  /** Bit j of the byte accumulated over n slots is the level of slot j, and
      the bits of slots not yet read are clear. */
  lemma {:induction false} ByteFromBit(script: seq<bool>, k: nat, n: nat, j: nat)
    requires n <= 8 && j < 8
    ensures Bit(ByteFrom(script, k, n), j) == (j < n && Level(script, k + j))
  {
    if n > 0 {
      ByteFromBit(script, k, n - 1, j);
      if j == n - 1 {
        assert !Bit(ByteFrom(script, k, n - 1), j);
      }
    }
  }

  /** The read slots taken from a script are the read slots of the byte they
      assemble to. */
  lemma {:induction false} SlotsAreByte(t: Trace, pin: nat, irq: bool, script: seq<bool>, k: nat, n: nat)
    requires n <= 8
    ensures SlotsOn(t, pin, irq, script, k, n) == ReadBitsOn(t, pin, irq, ByteFrom(script, k, 8), n)
  {
    if n > 0 {
      SlotsAreByte(t, pin, irq, script, k, n - 1);
      ByteFromBit(script, k, 8, n - 1);
    }
  }

  /** A device that presents the bits of v, least significant first, makes
      ds18b20_read_byte return v: the bit order of ds18b20_read_byte is the
      bit order of ds18b20_write_byte. */
  lemma ReadByteRoundTrip(script: seq<bool>, k: nat, v: bv8)
    requires forall i :: 0 <= i < 8 ==> Level(script, k + i) == Bit(v, i)
    ensures ByteFrom(script, k, 8) == v
  {
    forall j | 0 <= j < 8
      ensures Bit(ByteFrom(script, k, 8), j) == Bit(v, j)
    {
      ByteFromBit(script, k, 8, j);
    }
    BitsDetermineByte(ByteFrom(script, k, 8), v);
  }

  /** The trace that ds18b20_read_temperature leaves is the protocol
      transcript described step by step. */
  lemma TransactionExpands(t: Trace, pin: nat, irq: bool, script: seq<bool>, at: nat)
    ensures TransactionOn(t, pin, irq, script, at) == Expand(t, pin, irq, Transcript(script, at))
  {
    if Level(script, at) {
      FirstResetAbsent(t, pin, irq, script, at);
    } else if Level(script, at + 1) {
      SecondResetAbsent(t, pin, irq, script, at);
    } else {
      FullTrace(t, pin, irq, script, at);
    }
  }

  lemma BytesSnoc(steps: seq<BusStep>, st: BusStep)
    ensures BytesWritten(steps + [st]) == BytesWritten(steps) + (if st.Send? then [st.value] else [])
    ensures BytesRead(steps + [st]) == BytesRead(steps) + (if st.Receive? then [st.value] else [])
  {
    assert (steps + [st])[..|steps|] == steps;
  }

  lemma BytesOfCommand()
    ensures BytesWritten(CommandSteps()) == [SkipRom, ConvertT, SkipRom, ReadScratchpad]
    ensures BytesRead(CommandSteps()) == []
  {
    var s0: seq<BusStep> := [];
    var s1 := s0 + [ResetPulse(true)];
    BytesSnoc(s0, ResetPulse(true));
    var s2 := s1 + [Send(SkipRom)];
    BytesSnoc(s1, Send(SkipRom));
    var s3 := s2 + [Send(ConvertT)];
    BytesSnoc(s2, Send(ConvertT));
    var s4 := s3 + [Pause(ConversionMs)];
    BytesSnoc(s3, Pause(ConversionMs));
    var s5 := s4 + [ResetPulse(true)];
    BytesSnoc(s4, ResetPulse(true));
    var s6 := s5 + [Send(SkipRom)];
    BytesSnoc(s5, Send(SkipRom));
    var s7 := s6 + [Send(ReadScratchpad)];
    BytesSnoc(s6, Send(ReadScratchpad));
    assert s7 == CommandSteps();
  }

  /** The first n scratchpad bytes, in the order they are read. */
  function ScratchpadBytes(script: seq<bool>, base: nat, n: nat): (r: seq<bv8>)
    ensures |r| == n
    ensures forall j :: 0 <= j < n ==> r[j] == ScratchpadByte(script, base, j)
  {
    if n == 0 then [] else ScratchpadBytes(script, base, n - 1) + [ScratchpadByte(script, base, n - 1)]
  }

  /** The bytes the full transaction sends and receives. */
  lemma {:induction false} BytesOfReads(script: seq<bool>, base: nat, n: nat)
    ensures BytesWritten(CommandSteps() + ScratchpadReads(script, base, n)) == [SkipRom, ConvertT, SkipRom, ReadScratchpad]
    ensures BytesRead(CommandSteps() + ScratchpadReads(script, base, n)) == ScratchpadBytes(script, base, n)
  {
    if n == 0 {
      assert CommandSteps() + ScratchpadReads(script, base, 0) == CommandSteps();
      BytesOfCommand();
    } else {
      BytesOfReads(script, base, n - 1);
      ReadsSnoc(CommandSteps(), script, base, n);
      BytesSnoc(CommandSteps() + ScratchpadReads(script, base, n - 1), Receive(ScratchpadByte(script, base, n - 1)));
    }
  }

  /**
   * What ds18b20_read_temperature puts on the bus on each path: nothing but
   * a reset when the first reset finds no device; SKIP ROM and CONVERT T
   * when only the second finds none; otherwise SKIP ROM, CONVERT T, SKIP
   * ROM, READ SCRATCHPAD, then it reads all nine scratchpad bytes.
   */
  lemma TranscriptBytes(script: seq<bool>, at: nat)
    ensures Level(script, at) ==> BytesWritten(Transcript(script, at)) == [] && BytesRead(Transcript(script, at)) == []
    ensures !Level(script, at) && Level(script, at + 1) ==>
      BytesWritten(Transcript(script, at)) == [SkipRom, ConvertT] && BytesRead(Transcript(script, at)) == []
    ensures !Level(script, at) && !Level(script, at + 1) ==>
      BytesWritten(Transcript(script, at)) == [SkipRom, ConvertT, SkipRom, ReadScratchpad]
      && BytesRead(Transcript(script, at)) == ScratchpadBytes(script, at + 2, ScratchpadSize)
  {
    if Level(script, at) {
      assert Transcript(script, at)[..0] == [];
    } else if Level(script, at + 1) {
      SecondAbsentBytes(script, at);
    } else {
      assert Transcript(script, at) == CommandSteps() + ScratchpadReads(script, at + 2, ScratchpadSize);
      BytesOfReads(script, at + 2, ScratchpadSize);
    }
  }

  /** After a missing second presence pulse only the first command was sent. */
  lemma SecondAbsentBytes(script: seq<bool>, at: nat)
    requires !Level(script, at) && Level(script, at + 1)
    ensures BytesWritten(Transcript(script, at)) == [SkipRom, ConvertT] && BytesRead(Transcript(script, at)) == []
  {
    var s0: seq<BusStep> := [];
    var s1 := s0 + [ResetPulse(true)];
    BytesSnoc(s0, ResetPulse(true));
    var s2 := s1 + [Send(SkipRom)];
    BytesSnoc(s1, Send(SkipRom));
    var s3 := s2 + [Send(ConvertT)];
    BytesSnoc(s2, Send(ConvertT));
    var s4 := s3 + [Pause(ConversionMs)];
    BytesSnoc(s3, Pause(ConversionMs));
    var s5 := s4 + [ResetPulse(false)];
    BytesSnoc(s4, ResetPulse(false));
    assert s5 == Transcript(script, at);
  }
}
