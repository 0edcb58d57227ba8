/**
 * What the traces of the DS18B20 driver say about time, about the line and
 * about interrupts: the length of every slot and reset, how long the host
 * holds the line low, when it samples, and that every timing-critical line
 * operation runs with interrupts masked and the interrupt state is restored.
 */
module Ds18b20Timing {
  import opened Hal
  import opened Bits
  import opened Ds18b20

  // ---------------------------------------------------------------------
  // The three phases every slot is built from.
  // ---------------------------------------------------------------------

  lemma LowPulseFacts(t: Trace, p: Pin, en: bool, pin: nat, us: nat)
    ensures PinAfter(LowPulse(t, pin, us), p) == Pin(Out, false)
    ensures BusyMicros(LowPulse(t, pin, us)) == BusyMicros(t) + us
    ensures SleepMillis(LowPulse(t, pin, us)) == SleepMillis(t)
    ensures LowMicros(LowPulse(t, pin, us), p) == LowMicros(t, p) + us
    ensures Samples(LowPulse(t, pin, us)) == Samples(t)
    ensures SamplesReleased(LowPulse(t, pin, us), p) == SamplesReleased(t, p)
    ensures IrqAfter(LowPulse(t, pin, us), en) == IrqAfter(t, en)
    ensures LineOpsMasked(LowPulse(t, pin, us), en) == (LineOpsMasked(t, en) && !IrqAfter(t, en))
  {
    var t1 := Then(t, SetDir(pin, Out));
    var t2 := Then(t1, Put(pin, false));
    assert PinAfter(t2, p) == Pin(Out, false);
    assert Samples(t2) == Samples(t1) == Samples(t);
    assert BusyMicros(t2) == BusyMicros(t1) == BusyMicros(t);
    assert SleepMillis(t2) == SleepMillis(t1) == SleepMillis(t);
    assert LowMicros(t2, p) == LowMicros(t1, p) == LowMicros(t, p);
    assert SamplesReleased(t2, p) == SamplesReleased(t1, p) == SamplesReleased(t, p);
    assert IrqAfter(t2, en) == IrqAfter(t1, en) == IrqAfter(t, en);
    assert LineOpsMasked(t2, en) == (LineOpsMasked(t1, en) && !IrqAfter(t, en));
    assert LineOpsMasked(t1, en) == (LineOpsMasked(t, en) && !IrqAfter(t, en));
  }

  lemma ReleaseFacts(t: Trace, p: Pin, en: bool, pin: nat, us: nat)
    ensures PinAfter(Release(t, pin, us), p) == Pin(In, PinAfter(t, p).latch)
    ensures BusyMicros(Release(t, pin, us)) == BusyMicros(t) + us
    ensures SleepMillis(Release(t, pin, us)) == SleepMillis(t)
    ensures LowMicros(Release(t, pin, us), p) == LowMicros(t, p)
    ensures Samples(Release(t, pin, us)) == Samples(t)
    ensures SamplesReleased(Release(t, pin, us), p) == SamplesReleased(t, p)
    ensures IrqAfter(Release(t, pin, us), en) == IrqAfter(t, en)
    ensures LineOpsMasked(Release(t, pin, us), en) == (LineOpsMasked(t, en) && !IrqAfter(t, en))
  {
    var t1 := Then(t, SetDir(pin, In));
    assert Samples(t1) == Samples(t);
  }

  lemma SampleFacts(t: Trace, p: Pin, en: bool, pin: nat, level: bool, us: nat)
    ensures PinAfter(Sample(t, pin, level, us), p) == PinAfter(t, p)
    ensures BusyMicros(Sample(t, pin, level, us)) == BusyMicros(t) + us
    ensures SleepMillis(Sample(t, pin, level, us)) == SleepMillis(t)
    ensures LowMicros(Sample(t, pin, level, us), p) == LowMicros(t, p) + (if PinAfter(t, p) == Pin(Out, false) then us else 0)
    ensures Samples(Sample(t, pin, level, us)) == Samples(t) + [ElapsedMicros(t)]
    ensures SamplesReleased(Sample(t, pin, level, us), p) == (SamplesReleased(t, p) && PinAfter(t, p).dir == In)
    ensures IrqAfter(Sample(t, pin, level, us), en) == IrqAfter(t, en)
    ensures LineOpsMasked(Sample(t, pin, level, us), en) == (LineOpsMasked(t, en) && !IrqAfter(t, en))
  {
    var t1 := Then(t, Get(pin, level));
    assert Samples(t1) == Samples(t) + [ElapsedMicros(t)];
  }

  /** Saving and restoring the interrupt state take no time and leave the
      line alone; a save is well formed only when it records the state in
      force. */
  lemma SaveFacts(t: Trace, p: Pin, en: bool, irq: bool)
    ensures PinAfter(Then(t, IrqSave(irq)), p) == PinAfter(t, p)
    ensures ElapsedMicros(Then(t, IrqSave(irq))) == ElapsedMicros(t)
    ensures LowMicros(Then(t, IrqSave(irq)), p) == LowMicros(t, p)
    ensures Samples(Then(t, IrqSave(irq))) == Samples(t)
    ensures SamplesReleased(Then(t, IrqSave(irq)), p) == SamplesReleased(t, p)
    ensures !IrqAfter(Then(t, IrqSave(irq)), en)
    ensures LineOpsMasked(Then(t, IrqSave(irq)), en) == (LineOpsMasked(t, en) && IrqAfter(t, en) == irq)
  {
  }

  lemma RestoreFacts(t: Trace, p: Pin, en: bool, irq: bool)
    ensures PinAfter(Then(t, IrqRestore(irq)), p) == PinAfter(t, p)
    ensures ElapsedMicros(Then(t, IrqRestore(irq))) == ElapsedMicros(t)
    ensures LowMicros(Then(t, IrqRestore(irq)), p) == LowMicros(t, p)
    ensures Samples(Then(t, IrqRestore(irq))) == Samples(t)
    ensures SamplesReleased(Then(t, IrqRestore(irq)), p) == SamplesReleased(t, p)
    ensures IrqAfter(Then(t, IrqRestore(irq)), en) == irq
    ensures LineOpsMasked(Then(t, IrqRestore(irq)), en) == LineOpsMasked(t, en)
  {
  }

  // ---------------------------------------------------------------------
  // Slots and the reset cycle.
  // ---------------------------------------------------------------------

  /**
   * ds18b20_reset: 810 µs in all, of which the host holds the line low for
   * the first 500; one sample, 570 µs after the start, with the line
   * released; the line is left released. The calls run masked exactly when
   * the saved state is the real one, and the state is restored.
   */
  lemma ResetCycle(t: Trace, p: Pin, en: bool, pin: nat, irq: bool, level: bool)
    ensures ElapsedMicros(ResetOn(t, pin, irq, level)) == ElapsedMicros(t) + ResetUs
    ensures LowMicros(ResetOn(t, pin, irq, level), p) == LowMicros(t, p) + ResetPulseUs
    ensures PinAfter(ResetOn(t, pin, irq, level), p) == Pin(In, false)
    ensures Samples(ResetOn(t, pin, irq, level)) == Samples(t) + [ElapsedMicros(t) + 570]
    ensures SamplesReleased(ResetOn(t, pin, irq, level), p) == SamplesReleased(t, p)
    ensures IrqAfter(ResetOn(t, pin, irq, level), en) == irq
    ensures LineOpsMasked(ResetOn(t, pin, irq, level), en) == (LineOpsMasked(t, en) && IrqAfter(t, en) == irq)
  {
    var t0 := Then(t, IrqSave(irq));
    var t1 := LowPulse(t0, pin, ResetPulseUs);
    var t2 := Release(t1, pin, PresenceWaitUs);
    var t3 := Sample(t2, pin, level, PresenceReadUs);
    SaveFacts(t, p, en, irq);
    LowPulseFacts(t0, p, en, pin, ResetPulseUs);
    ReleaseFacts(t1, p, en, pin, PresenceWaitUs);
    SampleFacts(t2, p, en, pin, level, PresenceReadUs);
    RestoreFacts(t3, p, en, irq);
  }

  /**
   * ds18b20_write_bit: a 70 µs slot whatever the bit. The host holds the
   * line low for 6 µs for a 1 and 60 µs for a 0, so the low phase ends
   * before the DS18B20 samples (15 µs into the slot) exactly when the bit
   * is 1. No sample is taken; the line is left released.
   */
  lemma WriteSlot(t: Trace, p: Pin, en: bool, pin: nat, irq: bool, bit: bool)
    ensures ElapsedMicros(WriteBitOn(t, pin, irq, bit)) == ElapsedMicros(t) + SlotUs
    ensures LowMicros(WriteBitOn(t, pin, irq, bit), p) == LowMicros(t, p) + (if bit then Write1LowUs else Write0LowUs)
    ensures (LowMicros(WriteBitOn(t, pin, irq, bit), p) - LowMicros(t, p) < 15) == bit
    ensures PinAfter(WriteBitOn(t, pin, irq, bit), p) == Pin(In, false)
    ensures Samples(WriteBitOn(t, pin, irq, bit)) == Samples(t)
    ensures SamplesReleased(WriteBitOn(t, pin, irq, bit), p) == SamplesReleased(t, p)
    ensures IrqAfter(WriteBitOn(t, pin, irq, bit), en) == irq
    ensures LineOpsMasked(WriteBitOn(t, pin, irq, bit), en) == (LineOpsMasked(t, en) && IrqAfter(t, en) == irq)
  {
    var t0 := Then(t, IrqSave(irq));
    var t1 := LowPulse(t0, pin, if bit then Write1LowUs else Write0LowUs);
    var t2 := Release(t1, pin, if bit then Write1HighUs else Write0HighUs);
    SaveFacts(t, p, en, irq);
    LowPulseFacts(t0, p, en, pin, if bit then Write1LowUs else Write0LowUs);
    ReleaseFacts(t1, p, en, pin, if bit then Write1HighUs else Write0HighUs);
    RestoreFacts(t2, p, en, irq);
  }

  /**
   * ds18b20_read_bit: a 70 µs slot whatever the level seen. The host holds
   * the line low for 6 µs, then samples once, 15 µs after the start of the
   * slot, with the line released; the line is left released.
   */
  lemma ReadSlot(t: Trace, p: Pin, en: bool, pin: nat, irq: bool, level: bool)
    ensures ElapsedMicros(ReadBitOn(t, pin, irq, level)) == ElapsedMicros(t) + SlotUs
    ensures LowMicros(ReadBitOn(t, pin, irq, level), p) == LowMicros(t, p) + ReadLowUs
    ensures PinAfter(ReadBitOn(t, pin, irq, level), p) == Pin(In, false)
    ensures Samples(ReadBitOn(t, pin, irq, level)) == Samples(t) + [ElapsedMicros(t) + 15]
    ensures SamplesReleased(ReadBitOn(t, pin, irq, level), p) == SamplesReleased(t, p)
    ensures IrqAfter(ReadBitOn(t, pin, irq, level), en) == irq
    ensures LineOpsMasked(ReadBitOn(t, pin, irq, level), en) == (LineOpsMasked(t, en) && IrqAfter(t, en) == irq)
  {
    var t0 := Then(t, IrqSave(irq));
    var t1 := LowPulse(t0, pin, ReadLowUs);
    var t2 := Release(t1, pin, ReadSampleUs);
    var t3 := Sample(t2, pin, level, ReadHighUs);
    SaveFacts(t, p, en, irq);
    LowPulseFacts(t0, p, en, pin, ReadLowUs);
    ReleaseFacts(t1, p, en, pin, ReadSampleUs);
    SampleFacts(t2, p, en, pin, level, ReadHighUs);
    RestoreFacts(t3, p, en, irq);
  }

  // ---------------------------------------------------------------------
  // Bytes.
  // ---------------------------------------------------------------------

  /** The instants of n read slots that start at `start`, back to back: 15 µs
      into each 70 µs slot. */
  function ReadInstants(start: nat, n: nat): (r: seq<nat>)
    ensures |r| == n
    ensures forall i :: 0 <= i < n ==> r[i] == start + SlotUs * i + 15
  {
    if n == 0 then [] else ReadInstants(start, n - 1) + [start + SlotUs * (n - 1) + 15]
  }

  /** Back-to-back read slots: the instants of a + b slots are those of the
      first a followed by those of the b that start 70a µs later. */
  lemma ReadInstantsSplit(start: nat, a: nat, b: nat)
    ensures ReadInstants(start, a) + ReadInstants(start + SlotUs * a, b) == ReadInstants(start, a + b)
  {
    var l, r := ReadInstants(start, a) + ReadInstants(start + SlotUs * a, b), ReadInstants(start, a + b);
    forall i | a <= i < a + b
      ensures l[i] == r[i]
    {
      assert l[i] == start + SlotUs * a + SlotUs * (i - a) + 15;
    }
  }

  /** How long ds18b20_write_byte(v) holds the line low over its first n
      slots: 6 µs for each 1 bit and 60 µs for each 0 bit. */
  function WriteLowMicros(v: bv8, n: nat): nat
    requires n <= 8
  {
    if n == 0 then 0 else WriteLowMicros(v, n - 1) + (if Bit(v, n - 1) then Write1LowUs else Write0LowUs)
  }

  /** Over n write slots the line is low for between 6n and 60n µs. */
  lemma {:induction false} WriteLowBounds(v: bv8, n: nat)
    requires n <= 8
    ensures Write1LowUs * n <= WriteLowMicros(v, n) <= Write0LowUs * n
  {
    if n > 0 {
      WriteLowBounds(v, n - 1);
    }
  }

  /** The low time of the three command bytes. */
  lemma CommandLowTimes()
    ensures WriteLowMicros(SkipRom, 8) == 264
    ensures WriteLowMicros(ConvertT, 8) == 372
    ensures WriteLowMicros(ReadScratchpad, 8) == 156
  {
    assert Bit(SkipRom, 0) == false && Bit(SkipRom, 1) == false && Bit(SkipRom, 2) && Bit(SkipRom, 3);
    assert Bit(SkipRom, 4) == false && Bit(SkipRom, 5) == false && Bit(SkipRom, 6) && Bit(SkipRom, 7);
    assert !Bit(ConvertT, 0) && !Bit(ConvertT, 1) && Bit(ConvertT, 2) && !Bit(ConvertT, 3);
    assert !Bit(ConvertT, 4) && !Bit(ConvertT, 5) && Bit(ConvertT, 6) && !Bit(ConvertT, 7);
    assert !Bit(ReadScratchpad, 0) && Bit(ReadScratchpad, 1) && Bit(ReadScratchpad, 2) && Bit(ReadScratchpad, 3);
    assert Bit(ReadScratchpad, 4) && Bit(ReadScratchpad, 5) && !Bit(ReadScratchpad, 6) && Bit(ReadScratchpad, 7);
  }

  /** The first n write slots of a byte: 70 µs each, no sample, the line
      left released, interrupts masked throughout and restored. */
  lemma {:induction false} WriteByteSlots(t: Trace, p: Pin, en: bool, pin: nat, irq: bool, v: bv8, n: nat)
    requires n <= 8
    ensures ElapsedMicros(WriteBitsOn(t, pin, irq, v, n)) == ElapsedMicros(t) + SlotUs * n
    ensures LowMicros(WriteBitsOn(t, pin, irq, v, n), p) == LowMicros(t, p) + WriteLowMicros(v, n)
    ensures Samples(WriteBitsOn(t, pin, irq, v, n)) == Samples(t)
    ensures SamplesReleased(WriteBitsOn(t, pin, irq, v, n), p) == SamplesReleased(t, p)
    ensures n > 0 ==> PinAfter(WriteBitsOn(t, pin, irq, v, n), p) == Pin(In, false)
    ensures IrqAfter(t, en) == irq ==>
      IrqAfter(WriteBitsOn(t, pin, irq, v, n), en) == irq
      && LineOpsMasked(WriteBitsOn(t, pin, irq, v, n), en) == LineOpsMasked(t, en)
  {
    if n > 0 {
      WriteByteSlots(t, p, en, pin, irq, v, n - 1);
      WriteSlot(WriteBitsOn(t, pin, irq, v, n - 1), p, en, pin, irq, Bit(v, n - 1));
    }
  }

  /** The first n read slots of a byte: 70 µs each, one sample 15 µs into
      each slot with the line released, the line left released, interrupts
      masked throughout and restored. */
  lemma {:induction false} ReadByteSlots(t: Trace, p: Pin, en: bool, pin: nat, irq: bool, v: bv8, n: nat)
    requires n <= 8
    ensures ElapsedMicros(ReadBitsOn(t, pin, irq, v, n)) == ElapsedMicros(t) + SlotUs * n
    ensures Samples(ReadBitsOn(t, pin, irq, v, n)) == Samples(t) + ReadInstants(ElapsedMicros(t), n)
    ensures SamplesReleased(ReadBitsOn(t, pin, irq, v, n), p) == SamplesReleased(t, p)
    ensures n > 0 ==> PinAfter(ReadBitsOn(t, pin, irq, v, n), p) == Pin(In, false)
    ensures IrqAfter(t, en) == irq ==>
      IrqAfter(ReadBitsOn(t, pin, irq, v, n), en) == irq
      && LineOpsMasked(ReadBitsOn(t, pin, irq, v, n), en) == LineOpsMasked(t, en)
  {
    if n > 0 {
      var u := ReadBitsOn(t, pin, irq, v, n - 1);
      ReadByteSlots(t, p, en, pin, irq, v, n - 1);
      ReadSlot(u, p, en, pin, irq, Bit(v, n - 1));
      assert Samples(t) + ReadInstants(ElapsedMicros(t), n)
          == Samples(t) + ReadInstants(ElapsedMicros(t), n - 1) + [ElapsedMicros(u) + 15];
    }
  }

  /** The first n read slots of a byte hold the line low for 6 µs each. */
  lemma {:induction false} ReadByteLow(t: Trace, p: Pin, en: bool, pin: nat, irq: bool, v: bv8, n: nat)
    requires n <= 8
    ensures LowMicros(ReadBitsOn(t, pin, irq, v, n), p) == LowMicros(t, p) + ReadLowUs * n
  {
    if n > 0 {
      ReadByteLow(t, p, en, pin, irq, v, n - 1);
      ReadSlot(ReadBitsOn(t, pin, irq, v, n - 1), p, en, pin, irq, Bit(v, n - 1));
    }
  }

  /** ds18b20_write_byte and ds18b20_read_byte each take 8 slots, 560 µs;
      the write holds the line low for the sum of its slots' low phases and
      the read for 48 µs; the read samples 8 times, 15 µs into each slot. */
  lemma ByteTiming(t: Trace, p: Pin, en: bool, pin: nat, irq: bool, v: bv8)
    ensures ElapsedMicros(WriteByteOn(t, pin, irq, v)) == ElapsedMicros(t) + 560
    ensures ElapsedMicros(ReadByteOn(t, pin, irq, v)) == ElapsedMicros(t) + 560
    ensures LowMicros(WriteByteOn(t, pin, irq, v), p) == LowMicros(t, p) + WriteLowMicros(v, 8)
    ensures LowMicros(ReadByteOn(t, pin, irq, v), p) == LowMicros(t, p) + 48
    ensures Samples(WriteByteOn(t, pin, irq, v)) == Samples(t)
    ensures Samples(ReadByteOn(t, pin, irq, v)) == Samples(t) + ReadInstants(ElapsedMicros(t), 8)
  {
    WriteByteSlots(t, p, en, pin, irq, v, 8);
    ReadByteSlots(t, p, en, pin, irq, v, 8);
    ReadByteLow(t, p, en, pin, irq, v, 8);
  }

  // ---------------------------------------------------------------------
  // ds18b20_init and ds18b20_read_temperature.
  // ---------------------------------------------------------------------

  /** ds18b20_init: 10 ms of settling, then the 810 µs probe; its one sample
      is taken 10570 µs after the call, with the line released. The set-up
      calls themselves run with interrupts as they were. */
  lemma InitTiming(t: Trace, p: Pin, en: bool, pin: nat, irq: bool, level: bool)
    ensures ElapsedMicros(ResetOn(SetupOn(t, pin), pin, irq, level)) == ElapsedMicros(t) + 10810
    ensures Samples(ResetOn(SetupOn(t, pin), pin, irq, level)) == Samples(t) + [ElapsedMicros(t) + 10570]
    ensures SamplesReleased(ResetOn(SetupOn(t, pin), pin, irq, level), p) == SamplesReleased(t, p)
    ensures PinAfter(ResetOn(SetupOn(t, pin), pin, irq, level), p) == Pin(In, false)
    ensures IrqAfter(t, en) == irq ==> IrqAfter(ResetOn(SetupOn(t, pin), pin, irq, level), en) == irq
  {
    var s := SetupOn(t, pin);
    var s1 := Then(t, GpioInit(pin));
    var s2 := Then(s1, SetDir(pin, In));
    var s3 := Then(s2, PullUp(pin));
    assert Samples(s) == Samples(s3) == Samples(s2) == Samples(s1) == Samples(t);
    assert ElapsedMicros(s) == ElapsedMicros(t) + 10000 by {
      assert BusyMicros(s) == BusyMicros(s3) == BusyMicros(s2) == BusyMicros(s1) == BusyMicros(t);
      assert SleepMillis(s) == SleepMillis(s3) + 10 && SleepMillis(s3) == SleepMillis(s2) == SleepMillis(s1) == SleepMillis(t);
    }
    assert SamplesReleased(s, p) == SamplesReleased(s3, p) == SamplesReleased(s2, p) == SamplesReleased(s1, p) == SamplesReleased(t, p);
    assert IrqAfter(s, en) == IrqAfter(s3, en) == IrqAfter(s2, en) == IrqAfter(s1, en) == IrqAfter(t, en);
    assert PinAfter(s, p) == PinAfter(s3, p) == PinAfter(s2, p) == Pin(In, false);
    ResetCycle(s, p, en, pin, irq, level);
  }

  /** One more byte of back-to-back read slots extends the instants. */
  lemma InstantsStep(before: seq<nat>, mid: seq<nat>, after: seq<nat>, e: nat, f: nat, n: nat)
    requires n > 0 && f == e + 560 * (n - 1)
    requires mid == before + ReadInstants(e, 8 * (n - 1))
    requires after == mid + ReadInstants(f, 8)
    ensures after == before + ReadInstants(e, 8 * n)
  {
    ReadInstantsSplit(e, 8 * (n - 1), 8);
    assert f == e + SlotUs * (8 * (n - 1));
    assert 8 * (n - 1) + 8 == 8 * n;
  }

  lemma {:induction false} ScratchpadElapsed(t: Trace, p: Pin, en: bool, pin: nat, irq: bool, script: seq<bool>, base: nat, n: nat)
    ensures ElapsedMicros(ScratchpadOn(t, pin, irq, script, base, n)) == ElapsedMicros(t) + 560 * n
  {
    if n > 0 {
      ScratchpadElapsed(t, p, en, pin, irq, script, base, n - 1);
      ByteTiming(ScratchpadOn(t, pin, irq, script, base, n - 1), p, en, pin, irq, ScratchpadByte(script, base, n - 1));
    }
  }

  lemma {:induction false} ScratchpadLow(t: Trace, p: Pin, en: bool, pin: nat, irq: bool, script: seq<bool>, base: nat, n: nat)
    ensures LowMicros(ScratchpadOn(t, pin, irq, script, base, n), p) == LowMicros(t, p) + 48 * n
  {
    if n > 0 {
      ScratchpadLow(t, p, en, pin, irq, script, base, n - 1);
      ByteTiming(ScratchpadOn(t, pin, irq, script, base, n - 1), p, en, pin, irq, ScratchpadByte(script, base, n - 1));
    }
  }

  lemma {:induction false} ScratchpadSamples(t: Trace, p: Pin, en: bool, pin: nat, irq: bool, script: seq<bool>, base: nat, n: nat)
    ensures Samples(ScratchpadOn(t, pin, irq, script, base, n)) == Samples(t) + ReadInstants(ElapsedMicros(t), 8 * n)
  {
    if n > 0 {
      var u := ScratchpadOn(t, pin, irq, script, base, n - 1);
      ScratchpadSamples(t, p, en, pin, irq, script, base, n - 1);
      ScratchpadElapsed(t, p, en, pin, irq, script, base, n - 1);
      ByteTiming(u, p, en, pin, irq, ScratchpadByte(script, base, n - 1));
      InstantsStep(Samples(t), Samples(u), Samples(ScratchpadOn(t, pin, irq, script, base, n)), ElapsedMicros(t), ElapsedMicros(u), n);
    }
  }

  /** The scratchpad reads: 560 µs, 48 µs low and 8 samples per byte, the
      slots back to back, so sample i is taken 70i + 15 µs after the start;
      every sample with the line released, interrupts restored. */
  lemma {:induction false} ScratchpadTiming(t: Trace, p: Pin, en: bool, pin: nat, irq: bool, script: seq<bool>, base: nat, n: nat)
    ensures ElapsedMicros(ScratchpadOn(t, pin, irq, script, base, n)) == ElapsedMicros(t) + 560 * n
    ensures LowMicros(ScratchpadOn(t, pin, irq, script, base, n), p) == LowMicros(t, p) + 48 * n
    ensures Samples(ScratchpadOn(t, pin, irq, script, base, n)) == Samples(t) + ReadInstants(ElapsedMicros(t), 8 * n)
    ensures SamplesReleased(ScratchpadOn(t, pin, irq, script, base, n), p) == SamplesReleased(t, p)
    ensures n > 0 ==> PinAfter(ScratchpadOn(t, pin, irq, script, base, n), p) == Pin(In, false)
    ensures IrqAfter(t, en) == irq ==>
      IrqAfter(ScratchpadOn(t, pin, irq, script, base, n), en) == irq
      && LineOpsMasked(ScratchpadOn(t, pin, irq, script, base, n), en) == LineOpsMasked(t, en)
  {
    ScratchpadElapsed(t, p, en, pin, irq, script, base, n);
    ScratchpadLow(t, p, en, pin, irq, script, base, n);
    ScratchpadSamples(t, p, en, pin, irq, script, base, n);
    if n > 0 {
      ScratchpadTiming(t, p, en, pin, irq, script, base, n - 1);
      ReadByteSlots(ScratchpadOn(t, pin, irq, script, base, n - 1), p, en, pin, irq, ScratchpadByte(script, base, n - 1), 8);
    }
  }

  /** SKIP ROM, CONVERT T and the 750 ms wait for the conversion; the line
      is low for 636 µs of it. */
  lemma ConvertTiming(t: Trace, p: Pin, en: bool, pin: nat, irq: bool)
    ensures ElapsedMicros(ConvertOn(t, pin, irq)) == ElapsedMicros(t) + 751120
    ensures LowMicros(ConvertOn(t, pin, irq), p) == LowMicros(t, p) + 636
    ensures Samples(ConvertOn(t, pin, irq)) == Samples(t)
    ensures SamplesReleased(ConvertOn(t, pin, irq), p) == SamplesReleased(t, p)
    ensures PinAfter(ConvertOn(t, pin, irq), p) == Pin(In, false)
    ensures IrqAfter(t, en) == irq ==>
      IrqAfter(ConvertOn(t, pin, irq), en) == irq
      && LineOpsMasked(ConvertOn(t, pin, irq), en) == LineOpsMasked(t, en)
  {
    var w := WriteByteOn(t, pin, irq, SkipRom);
    WriteByteSlots(t, p, en, pin, irq, SkipRom, 8);
    WriteByteSlots(w, p, en, pin, irq, ConvertT, 8);
    CommandLowTimes();
  }

  /** SKIP ROM and READ SCRATCHPAD; the line is low for 420 µs of it. */
  lemma RequestTiming(t: Trace, p: Pin, en: bool, pin: nat, irq: bool)
    ensures ElapsedMicros(RequestOn(t, pin, irq)) == ElapsedMicros(t) + 1120
    ensures LowMicros(RequestOn(t, pin, irq), p) == LowMicros(t, p) + 420
    ensures Samples(RequestOn(t, pin, irq)) == Samples(t)
    ensures SamplesReleased(RequestOn(t, pin, irq), p) == SamplesReleased(t, p)
    ensures IrqAfter(t, en) == irq ==>
      IrqAfter(RequestOn(t, pin, irq), en) == irq
      && LineOpsMasked(RequestOn(t, pin, irq), en) == LineOpsMasked(t, en)
  {
    var w := WriteByteOn(t, pin, irq, SkipRom);
    WriteByteSlots(t, p, en, pin, irq, SkipRom, 8);
    WriteByteSlots(w, p, en, pin, irq, ReadScratchpad, 8);
    CommandLowTimes();
  }

  /** The low time of ds18b20_read_temperature on each of its paths: 500 µs
      for the first reset alone, 1636 µs up to a failed second reset and
      2488 µs for a full read. */
  lemma TransactionLow(t: Trace, p: Pin, en: bool, pin: nat, irq: bool, script: seq<bool>, at: nat)
    ensures LowMicros(TransactionOn(t, pin, irq, script, at), p)
         == LowMicros(t, p) + (if Level(script, at) then 500 else if Level(script, at + 1) then 1636 else 2488)
  {
    var r1 := ResetOn(t, pin, irq, Level(script, at));
    ResetCycle(t, p, en, pin, irq, Level(script, at));
    if !Level(script, at) {
      var c := ConvertOn(r1, pin, irq);
      ConvertTiming(r1, p, en, pin, irq);
      ResetCycle(c, p, en, pin, irq, Level(script, at + 1));
      if !Level(script, at + 1) {
        var q := RequestOn(ResetOn(c, pin, irq, false), pin, irq);
        RequestTiming(ResetOn(c, pin, irq, false), p, en, pin, irq);
        ScratchpadLow(q, p, en, pin, irq, script, at + 2, ScratchpadSize);
      }
    }
  }

  /** The instants of the samples up to the second reset: the presence
      pulse of each reset, read 570 µs into it. */
  lemma ResetSamples(t: Trace, p: Pin, en: bool, pin: nat, irq: bool, first: bool, second: bool)
    ensures Samples(ResetOn(t, pin, irq, first)) == Samples(t) + [ElapsedMicros(t) + 570]
    ensures ElapsedMicros(ResetOn(ConvertOn(ResetOn(t, pin, irq, first), pin, irq), pin, irq, second))
         == ElapsedMicros(t) + 752740
    ensures Samples(ResetOn(ConvertOn(ResetOn(t, pin, irq, first), pin, irq), pin, irq, second))
         == Samples(t) + [ElapsedMicros(t) + 570, ElapsedMicros(t) + 752500]
  {
    var e := ElapsedMicros(t);
    var r1 := ResetOn(t, pin, irq, first);
    ResetCycle(t, p, en, pin, irq, first);
    var c := ConvertOn(r1, pin, irq);
    ConvertTiming(r1, p, en, pin, irq);
    ResetCycle(c, p, en, pin, irq, second);
    assert ElapsedMicros(c) == e + 751930;
    assert Samples(t) + [e + 570] + [e + 752500] == Samples(t) + [e + 570, e + 752500];
  }

  /** The instants of every sample of a full ds18b20_read_temperature: the
      two presence pulses, then the 72 scratchpad bits, 15 µs into slots
      that follow one another from 753860 µs on. */
  lemma FullSamples(t: Trace, p: Pin, en: bool, pin: nat, irq: bool, script: seq<bool>, at: nat)
    requires !Level(script, at) && !Level(script, at + 1)
    ensures var e := ElapsedMicros(t);
      Samples(TransactionOn(t, pin, irq, script, at))
      == Samples(t) + [e + 570, e + 752500] + ReadInstants(e + 753860, 8 * ScratchpadSize)
  {
    var r2 := ResetOn(ConvertOn(ResetOn(t, pin, irq, false), pin, irq), pin, irq, false);
    ResetSamples(t, p, en, pin, irq, false, false);
    var q := RequestOn(r2, pin, irq);
    RequestTiming(r2, p, en, pin, irq);
    ScratchpadSamples(q, p, en, pin, irq, script, at + 2, ScratchpadSize);
  }

  /** The instants of the samples of ds18b20_read_temperature on each of its
      paths. */
  lemma TransactionSamples(t: Trace, p: Pin, en: bool, pin: nat, irq: bool, script: seq<bool>, at: nat)
    ensures var e := ElapsedMicros(t);
      Samples(TransactionOn(t, pin, irq, script, at))
      == Samples(t) + (if Level(script, at) then [e + 570]
                       else if Level(script, at + 1) then [e + 570, e + 752500]
                       else [e + 570, e + 752500] + ReadInstants(e + 753860, 8 * ScratchpadSize))
  {
    if Level(script, at) {
      ResetSamples(t, p, en, pin, irq, true, true);
    } else if Level(script, at + 1) {
      ResetSamples(t, p, en, pin, irq, false, true);
    } else {
      FullSamples(t, p, en, pin, irq, script, at);
    }
  }

  /**
   * ds18b20_read_temperature, on each of its three paths: 810 µs when the
   * first reset finds no device, 752740 µs when the second finds none, and
   * 758900 µs for a full read. It takes exactly as many samples as the
   * driver consumes from the device, all with the line released; it leaves
   * the line released; every line operation runs with interrupts masked and
   * the interrupt state is restored. TransactionLow and TransactionSamples
   * give the low time and the sample instants of the same paths.
   */
  lemma TransactionTiming(t: Trace, p: Pin, en: bool, pin: nat, irq: bool, script: seq<bool>, at: nat)
    ensures ElapsedMicros(TransactionOn(t, pin, irq, script, at))
         == ElapsedMicros(t) + (if Level(script, at) then ResetUs else if Level(script, at + 1) then 752740 else 758900)
    ensures |Samples(TransactionOn(t, pin, irq, script, at))| == |Samples(t)| + SamplesUsed(script, at)
    ensures SamplesReleased(TransactionOn(t, pin, irq, script, at), p) == SamplesReleased(t, p)
    ensures PinAfter(TransactionOn(t, pin, irq, script, at), p) == Pin(In, false)
    ensures IrqAfter(t, en) == irq ==>
      IrqAfter(TransactionOn(t, pin, irq, script, at), en) == irq
      && LineOpsMasked(TransactionOn(t, pin, irq, script, at), en) == LineOpsMasked(t, en)
  {
    var r1 := ResetOn(t, pin, irq, Level(script, at));
    ResetCycle(t, p, en, pin, irq, Level(script, at));
    if !Level(script, at) {
      var c := ConvertOn(r1, pin, irq);
      ConvertTiming(r1, p, en, pin, irq);
      var r2 := ResetOn(c, pin, irq, Level(script, at + 1));
      ResetCycle(c, p, en, pin, irq, Level(script, at + 1));
      if !Level(script, at + 1) {
        var q := RequestOn(r2, pin, irq);
        RequestTiming(r2, p, en, pin, irq);
        ScratchpadTiming(q, p, en, pin, irq, script, at + 2, ScratchpadSize);
      }
    }
  }
}
