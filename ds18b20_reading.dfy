/**
 * What ds18b20_read_temperature makes of the two temperature bytes of the
 * scratchpad, and what it returns on each path of the transaction.
 */
module Ds18b20Reading {
  import opened Hal
  import opened Ds18b20

  // ---------------------------------------------------------------------
  // The raw sample.
  // ---------------------------------------------------------------------

  /** Every 16-bit two's complement value is the raw sample of the 16-bit
      word that encodes it. */
  lemma Int16RoundTrip(raw: int)
    requires -0x8000 <= raw < 0x8000
    ensures Int16(raw % 0x1_0000) == raw
  {
  }

  /** The raw sample determines both bytes: the low byte of its 16-bit word
      is `temp_lsb` and the high byte `temp_msb`. */
  lemma RawSampleBytes(lsb: bv8, msb: bv8)
    ensures (RawSample(lsb, msb) % 0x1_0000) % 256 == lsb as int
    ensures (RawSample(lsb, msb) % 0x1_0000) / 256 == msb as int
  {
    var u := msb as int * 256 + lsb as int;
    assert RawSample(lsb, msb) % 0x1_0000 == u;
  }

  // ---------------------------------------------------------------------
  // Validation as written.
  // ---------------------------------------------------------------------

  /** The reading is accepted exactly when the raw value lies in
      [-880, 2000] (that is, -55 °C to 125 °C in steps of 1/16) and is
      neither 0 nor 0x0550; an accepted reading is raw / 16. A sentinel
      leaves 0.0 in `*temperature_c`; an out-of-range value leaves raw / 16
      there and is reported as ERROR_CRC. */
  lemma ValidateAccepts(lsb: bv8, msb: bv8)
    ensures Validate(lsb, msb).status == Ok
        <==> -880 <= RawSample(lsb, msb) <= 2000 && RawSample(lsb, msb) != 0 && RawSample(lsb, msb) != 0x0550
    ensures Validate(lsb, msb).status == Ok || Validate(lsb, msb).status == ErrorCrc
    ensures RawSample(lsb, msb) == 0 || RawSample(lsb, msb) == 0x0550 ==> Validate(lsb, msb) == Reading(ErrorCrc, 0.0)
    ensures RawSample(lsb, msb) != 0 && RawSample(lsb, msb) != 0x0550 ==>
      Validate(lsb, msb).celsius == RawSample(lsb, msb) as real / 16.0
  {
    var raw := RawSample(lsb, msb);
    assert !Sentinel(raw) <==> raw != 0 && raw != 0x0550;
    assert raw as real / 16.0 < -55.0 <==> raw < -880;
    assert raw as real / 16.0 > 125.0 <==> raw > 2000;
  }

  /** An accepted reading is a temperature the DS18B20 can report. */
  lemma AcceptedInRange(lsb: bv8, msb: bv8)
    requires Validate(lsb, msb).status == Ok
    ensures -55.0 <= Validate(lsb, msb).celsius <= 125.0
    ensures Validate(lsb, msb).celsius != 0.0 && Validate(lsb, msb).celsius != 85.0
  {
    ValidateAccepts(lsb, msb);
  }

  /** Readings from the DS18B20 datasheet's table and the edges of the range. */
  lemma ValidateExamples()
    ensures Validate(0x91, 0x01) == Reading(Ok, 25.0625)
    ensures Validate(0x50, 0x05) == Reading(ErrorCrc, 0.0)       // 85 °C, the power-on value
    ensures Validate(0x00, 0x00) == Reading(ErrorCrc, 0.0)
    ensures Validate(0xD0, 0x07) == Reading(Ok, 125.0)
    ensures Validate(0xE0, 0x07) == Reading(ErrorCrc, 126.0)
    ensures Validate(0x90, 0xFC) == Reading(Ok, -55.0)
    ensures Validate(0x80, 0xFC) == Reading(ErrorCrc, -56.0)
    ensures Validate(0x5E, 0xFF) == Reading(Ok, -10.125)
  {
  }

  // ---------------------------------------------------------------------
  // The 0xFFFF sentinel.
  // ---------------------------------------------------------------------

  /** As written, the test against 0xFFFF compares the promoted int16_t with
      65535 and can never succeed. */
  lemma AllOnesNeverSentinel(lsb: bv8, msb: bv8)
    ensures RawSample(lsb, msb) != 0xFFFF
    ensures Sentinel(RawSample(lsb, msb)) == (RawSample(lsb, msb) == 0 || RawSample(lsb, msb) == 0x0550)
  {
  }

  /** So the all-ones scratchpad a bus with no driver reads is accepted as
      -0.0625 °C. */
  lemma AllOnesAccepted()
    ensures RawSample(0xFF, 0xFF) == -1
    ensures Validate(0xFF, 0xFF) == Reading(Ok, -0.0625)
  {
  }

  /** The sentinels as intended: 0x0550, the all-ones word (raw -1) and 0. */
  predicate IntendedSentinel(raw: int)
  {
    raw == 0x0550 || raw == -1 || raw == 0x0000
  }

  /** The validation with the all-ones word rejected. */
  function ValidateIntended(lsb: bv8, msb: bv8): (r: Reading)
    ensures r.status == Ok || r.status == ErrorCrc
    ensures RawSample(lsb, msb) != -1 ==> r == Validate(lsb, msb)
  {
    var raw := RawSample(lsb, msb);
    if IntendedSentinel(raw) then Reading(ErrorCrc, 0.0)
    else
      var celsius := raw as real / 16.0;
      if celsius < -55.0 || celsius > 125.0 then Reading(ErrorCrc, celsius)
      else Reading(Ok, celsius)
  }

  /** With the intended test, all three sentinel words are refused and leave
      0.0, and everything else is decided as before. */
  lemma ValidateIntendedAccepts(lsb: bv8, msb: bv8)
    ensures ValidateIntended(lsb, msb).status == Ok
        <==> -880 <= RawSample(lsb, msb) <= 2000 && !IntendedSentinel(RawSample(lsb, msb))
    ensures IntendedSentinel(RawSample(lsb, msb)) ==> ValidateIntended(lsb, msb) == Reading(ErrorCrc, 0.0)
    ensures ValidateIntended(0xFF, 0xFF) == Reading(ErrorCrc, 0.0)
  {
    var raw := RawSample(lsb, msb);
    assert raw as real / 16.0 < -55.0 <==> raw < -880;
    assert raw as real / 16.0 > 125.0 <==> raw > 2000;
    assert RawSample(0xFF, 0xFF) == -1;
  }

  // ---------------------------------------------------------------------
  // The result of a transaction.
  // ---------------------------------------------------------------------

  /** ds18b20_read_temperature never reports a timeout for a real
      destination; it reports no device exactly when one of the two resets
      saw no presence pulse, with 0.0 left in `*temperature_c`; otherwise
      the reading is decided on scratchpad bytes 0 and 1. */
  lemma OutcomeCases(script: seq<bool>, at: nat)
    ensures Outcome(script, at).status != ErrorTimeout
    ensures Outcome(script, at).status == ErrorNoDevice <==> Level(script, at) || Level(script, at + 1)
    ensures Outcome(script, at).status == ErrorNoDevice ==> Outcome(script, at).celsius == 0.0
    ensures Outcome(script, at).status == Ok ==>
      -55.0 <= Outcome(script, at).celsius <= 125.0
      && Outcome(script, at).celsius
         == RawSample(ScratchpadByte(script, at + 2, 0), ScratchpadByte(script, at + 2, 1)) as real / 16.0
  {
    if !Level(script, at) && !Level(script, at + 1) {
      var lsb, msb := ScratchpadByte(script, at + 2, 0), ScratchpadByte(script, at + 2, 1);
      ValidateAccepts(lsb, msb);
      if Validate(lsb, msb).status == Ok {
        AcceptedInRange(lsb, msb);
      }
    }
  }
}
