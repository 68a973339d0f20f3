/** The telemetry readers bms_get_voltage, bms_get_current, bms_get_soc,
    bms_get_full_capacity and the aggregator bms_get_stats of bms.c.
    Readings are exact reals: the single-precision rounding of the source's
    `(float)data * k` is not modelled. */
module Telemetry {
  import opened Registers
  import opened Transport

  // Scale factors, per least significant bit.
  const VOLTS_PER_LSB: real := 0.0003125
  const AMPS_PER_LSB: real := 0.0015625
  const AMP_HOURS_PER_LSB: real := 0.005

  /** The word read as a two's-complement `int16_t`: the one value in
      range that agrees with the unsigned reading modulo 2^16, negative
      exactly when the sign bit is set. */
  function Signed16(raw: bv16): (x: int)
    ensures -0x8000 <= x < 0x8000
    ensures x % 0x1_0000 == raw as int
    ensures x < 0 <==> raw >= 0x8000
  {
    UnsignedReading(raw);
    var u := raw as int;
    if u < 0x8000 then u else u - 0x1_0000
  }

  /** A word read as `uint16_t`. */
  lemma UnsignedReading(raw: bv16)
    ensures 0 <= raw as int < 0x1_0000
    ensures raw < 0x8000 <==> raw as int < 0x8000
  {
  }

  /** The sign bit of a word is bit 15. */
  lemma SignBitIsBitFifteen(raw: bv16)
    ensures raw >= 0x8000 <==> raw & 0x8000 != 0
  {
  }

  /** The four quantities, in the order bms_get_stats reads them. */
  datatype Quantity = Voltage | Current | RepCap | FullCap

  const STATS_ORDER: seq<Quantity> := [Voltage, Current, RepCap, FullCap]

  function RegisterOf(q: Quantity): (reg: bv16) {
    match q
    case Voltage => REG_VBAT
    case Current => REG_CBAT
    case RepCap => REG_REPCAP
    case FullCap => REG_FULLCAP
  }

  /** The physical value of raw word `raw` of quantity `q`: volts, amps
      (signed) or amp-hours, each within the span a 16-bit word can express. */
  function Scale(q: Quantity, raw: bv16): (r: real)
    ensures q == Voltage ==> 0.0 <= r <= 65535.0 * VOLTS_PER_LSB
    ensures q == Current ==> -32768.0 * AMPS_PER_LSB <= r <= 32767.0 * AMPS_PER_LSB
    ensures (q == RepCap || q == FullCap) ==> 0.0 <= r <= 65535.0 * AMP_HOURS_PER_LSB
  {
    UnsignedReading(raw);
    var u := raw as int;
    match q
    case Voltage => u as real * VOLTS_PER_LSB
    case Current => Signed16(raw) as real * AMPS_PER_LSB
    case RepCap => u as real * AMP_HOURS_PER_LSB
    case FullCap => u as real * AMP_HOURS_PER_LSB
  }

  /** Readings keep the order of their raw counts, unsigned for voltage and
      capacity, signed for current, so no two words give the same reading. */
  lemma ScaleOrder(q: Quantity, raw1: bv16, raw2: bv16)
    ensures q != Current ==> (raw1 as int < raw2 as int <==> Scale(q, raw1) < Scale(q, raw2))
    ensures q == Current ==> (Signed16(raw1) < Signed16(raw2) <==> Scale(q, raw1) < Scale(q, raw2))
    ensures Scale(q, raw1) == Scale(q, raw2) ==> raw1 == raw2
  {
    if q == Current {
      Signed16Injective(raw1, raw2);
    } else {
      UnsignedInjective(raw1, raw2);
    }
  }

  /** Distinct words are distinct `uint16_t` values. */
  lemma UnsignedInjective(a: bv16, b: bv16)
    ensures a as int == b as int ==> a == b
  {
    WordRoundTrip(a);
    WordRoundTrip(b);
  }

  /** A word converted to `uint16_t` and back is unchanged. */
  lemma WordRoundTrip(a: bv16)
    ensures (a as int) as bv16 == a
  {
  }

  /** Distinct words are distinct `int16_t` values. */
  lemma Signed16Injective(a: bv16, b: bv16)
    ensures Signed16(a) == Signed16(b) ==> a == b
  {
    if Signed16(a) == Signed16(b) {
      assert a as int == b as int;
      UnsignedInjective(a, b);
    }
  }

  /** Only the current can be negative, exactly when bit 15 is set: 0xFFFF is
      one step below zero; a zero word reads as zero in every quantity. */
  lemma ScaleSigns(q: Quantity, raw: bv16)
    ensures Scale(q, raw) < 0.0 <==> q == Current && raw & 0x8000 != 0
    ensures Scale(q, 0) == 0.0
    ensures Scale(Current, 0xFFFF) == -1.0 * AMPS_PER_LSB
  {
    SignBitIsBitFifteen(raw);
  }

  /** The result of one reader and the events it appended to the trace. */
  datatype ReaderOutcome = ReaderOutcome(status: Error, reading: real, events: seq<Event>)

  /** What a reader of `q` returns and leaves in its out-parameter (holding
      `prev` before the call) when called after history `h`: one read, and on
      success the scaled value; on failure the out-parameter is not written. */
  function ReaderRun(env: Environment, h: seq<Event>, q: Quantity, prev: real): (run: ReaderOutcome)
    ensures run.events == [ReadEvent(env, h, RegisterOf(q))]
    ensures run.status == run.events[0].status
    ensures run.reading == if run.status == Ok then Scale(q, run.events[0].value) else prev
  {
    var e := ReadEvent(env, h, RegisterOf(q));
    if e.status != Ok then ReaderOutcome(e.status, prev, [e])
    else ReaderOutcome(Ok, Scale(q, e.value), [e])
  }

  /** bms_get_voltage; `voltage0` is `*voltage` on entry. */
  method GetVoltage(bus: Bus, voltage0: real) returns (status: Error, voltage: real)
    modifies bus
    ensures var run := ReaderRun(bus.env, old(bus.trace), Voltage, voltage0);
      status == run.status && voltage == run.reading && bus.trace == old(bus.trace) + run.events
  {
    voltage := voltage0;
    var data;
    status, data := bus.RegRead(REG_VBAT);
    if status != Ok {
      return;
    }
    voltage := (data as int) as real * VOLTS_PER_LSB;
    return Ok, voltage;
  }

  /** bms_get_current; `current0` is `*current` on entry. */
  method GetCurrent(bus: Bus, current0: real) returns (status: Error, current: real)
    modifies bus
    ensures var run := ReaderRun(bus.env, old(bus.trace), Current, current0);
      status == run.status && current == run.reading && bus.trace == old(bus.trace) + run.events
  {
    current := current0;
    var data;
    status, data := bus.RegRead(REG_CBAT);
    if status != Ok {
      return;
    }
    current := Signed16(data) as real * AMPS_PER_LSB;
    return Ok, current;
  }

  /** bms_get_soc; `soc0` is `*soc` on entry. */
  method GetSoc(bus: Bus, soc0: real) returns (status: Error, soc: real)
    modifies bus
    ensures var run := ReaderRun(bus.env, old(bus.trace), RepCap, soc0);
      status == run.status && soc == run.reading && bus.trace == old(bus.trace) + run.events
  {
    soc := soc0;
    var data;
    status, data := bus.RegRead(REG_REPCAP);
    if status != Ok {
      return;
    }
    soc := (data as int) as real * AMP_HOURS_PER_LSB;
    return Ok, soc;
  }

  /** bms_get_full_capacity; `fullCap0` is `*full_cap` on entry. */
  method GetFullCapacity(bus: Bus, fullCap0: real) returns (status: Error, fullCap: real)
    modifies bus
    ensures var run := ReaderRun(bus.env, old(bus.trace), FullCap, fullCap0);
      status == run.status && fullCap == run.reading && bus.trace == old(bus.trace) + run.events
  {
    fullCap := fullCap0;
    var data;
    status, data := bus.RegRead(REG_FULLCAP);
    if status != Ok {
      return;
    }
    fullCap := (data as int) as real * AMP_HOURS_PER_LSB;
    return Ok, fullCap;
  }

  /** bms_stats_t. */
  datatype Snapshot = Snapshot(volts: real, amps: real, soc: real, cap: real)

  /** The field of a snapshot that holds quantity `q`. */
  function Field(s: Snapshot, q: Quantity): (x: real) {
    match q
    case Voltage => s.volts
    case Current => s.amps
    case RepCap => s.soc
    case FullCap => s.cap
  }

  /** The result of bms_get_stats, the caller's struct after it, and the
      events it appended to the trace. */
  datatype StatsOutcome = StatsOutcome(status: Error, stats: Snapshot, events: seq<Event>)

  /** What bms_get_stats returns and leaves in `*stats` (equal to `s0`
      before the call) when called after history `h`. */
  function StatsRun(env: Environment, h: seq<Event>, s0: Snapshot): (run: StatsOutcome)
    ensures 1 <= |run.events| <= 4
    ensures run.events[0] == ReadEvent(env, h, REG_VBAT)
    ensures forall k :: 0 <= k < |run.events| ==> run.events[k].Read?
  {
    var v := ReaderRun(env, h, Voltage, s0.volts);
    var s1 := s0.(volts := v.reading);
    if v.status != Ok then StatsOutcome(v.status, s1, v.events)
    else
      var h1 := h + v.events;
      var a := ReaderRun(env, h1, Current, s0.amps);
      var s2 := s1.(amps := a.reading);
      if a.status != Ok then StatsOutcome(a.status, s2, v.events + a.events)
      else
        var h2 := h1 + a.events;
        var c := ReaderRun(env, h2, RepCap, s0.soc);
        var s3 := s2.(soc := c.reading);
        if c.status != Ok then StatsOutcome(c.status, s3, v.events + a.events + c.events)
        else
          var h3 := h2 + c.events;
          var f := ReaderRun(env, h3, FullCap, s0.cap);
          StatsOutcome(f.status, s3.(cap := f.reading), v.events + a.events + c.events + f.events)
  }

  /** bms_get_stats; `stats0` is `*stats` on entry. */
  method GetStats(bus: Bus, stats0: Snapshot) returns (status: Error, stats: Snapshot)
    modifies bus
    ensures var run := StatsRun(bus.env, old(bus.trace), stats0);
      status == run.status && stats == run.stats && bus.trace == old(bus.trace) + run.events
  {
    stats := stats0;
    var reading;
    status, reading := GetVoltage(bus, stats.volts);
    stats := stats.(volts := reading);
    if status != Ok {
      return;
    }
    status, reading := GetCurrent(bus, stats.amps);
    stats := stats.(amps := reading);
    if status != Ok {
      return;
    }
    status, reading := GetSoc(bus, stats.soc);
    stats := stats.(soc := reading);
    if status != Ok {
      return;
    }
    status, reading := GetFullCapacity(bus, stats.cap);
    stats := stats.(cap := reading);
    if status != Ok {
      return;
    }
    return status, stats;
  }

  /** bms_get_stats only reads, and reads VBAT, CBAT, RepCap, FullCap in
      that order, stopping early; at least the voltage is read. */
  lemma StatsOrder(env: Environment, h: seq<Event>, s0: Snapshot)
    ensures var ev := StatsRun(env, h, s0).events;
      1 <= |ev| && FollowsProtocol(ev, [ReadStep(REG_VBAT), ReadStep(REG_CBAT), ReadStep(REG_REPCAP), ReadStep(REG_FULLCAP)])
  {
  }

  /** The first failed read ends the call and is its result; the call
      succeeds exactly when all four reads do. */
  lemma StatsFirstFailure(env: Environment, h: seq<Event>, s0: Snapshot)
    ensures var run := StatsRun(env, h, s0); var ev := run.events;
      run.status == Ok <==> (|ev| == 4 && forall k :: 0 <= k < 4 ==> ev[k].status == Ok)
    ensures var run := StatsRun(env, h, s0); var ev := run.events;
      run.status != Ok ==>
        run.status == ev[|ev| - 1].status && forall k :: 0 <= k < |ev| - 1 ==> ev[k].status == Ok
  {
  }

  /** Each field of the caller's struct holds its scaled reading when its
      read took place and succeeded, and is left as it was otherwise. */
  lemma StatsFields(env: Environment, h: seq<Event>, s0: Snapshot)
    ensures var run := StatsRun(env, h, s0); var ev := run.events;
      forall k :: 0 <= k < 4 ==>
        Field(run.stats, STATS_ORDER[k]) ==
          if k < |ev| && ev[k].status == Ok then Scale(STATS_ORDER[k], ev[k].value) else Field(s0, STATS_ORDER[k])
  {
  }
}
