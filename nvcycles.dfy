/** The non-volatile write-cycle counter bms_get_nv_writes_remaining of bms.c. */
module NvCycles {
  import opened Registers
  import opened Transport

  /** Written twice to CommStat to lift write protection. */
  const UNLOCK_PATTERN: bv16 := 0x0000
  /** Written twice to CommStat to restore write protection. */
  const LOCK_PATTERN: bv16 := 0x00F9
  /** The recall command written to the command register. */
  const RECALL_COMMAND: bv16 := 0xE29B
  /** The register holding the write-cycle history after a recall. */
  const REG_NV_HISTORY: bv16 := 0x01FD
  /** The settle time waited after the recall command. */
  const RECALL_DELAY_MS: nat := 10

  /** Bit 15 - k of `v`, counting k from the most significant end. */
  predicate BitFromTop(v: bv16, k: nat)
    requires k < 16
  {
    v & (0x8000 >> k) != 0
  }

  /** The number of leading zero bits of a 16-bit word (16 for zero). */
  function LeadingZeros(v: bv16): (n: nat)
    ensures n <= 16
    ensures forall j :: 0 <= j < n ==> !BitFromTop(v, j)
    ensures n < 16 ==> BitFromTop(v, n)
  {
    LeadingZerosFrom(v, 0)
  }

  function LeadingZerosFrom(v: bv16, i: nat): (n: nat)
    requires i <= 16
    requires forall j :: 0 <= j < i ==> !BitFromTop(v, j)
    ensures i <= n <= 16
    ensures forall j :: 0 <= j < n ==> !BitFromTop(v, j)
    ensures n < 16 ==> BitFromTop(v, n)
    decreases 16 - i
  {
    if i == 16 then 16
    else if BitFromTop(v, i) then i
    else LeadingZerosFrom(v, i + 1)
  }

  /** The leading-zero count lies in 0..7 exactly when the top byte is not
      zero; 0x8000 has none and 0x1000 has three. */
  lemma TopByteLeadingZeros(v: bv16)
    ensures LeadingZeros(v) < 8 <==> v & 0xFF00 != 0
    ensures LeadingZeros(0x8000) == 0 && LeadingZeros(0x1000) == 3
  {
    var n := LeadingZeros(v);
    if n >= 8 {
      assert !BitFromTop(v, 0) && !BitFromTop(v, 1) && !BitFromTop(v, 2) && !BitFromTop(v, 3);
      assert !BitFromTop(v, 4) && !BitFromTop(v, 5) && !BitFromTop(v, 6) && !BitFromTop(v, 7);
    } else {
      assert BitFromTop(v, n);
      TopBitInTopByte(v, n);
    }
    assert BitFromTop(0x8000, 0);
    assert !BitFromTop(0x1000, 0) && !BitFromTop(0x1000, 1) && !BitFromTop(0x1000, 2) && BitFromTop(0x1000, 3);
  }

  lemma TopBitInTopByte(v: bv16, k: nat)
    requires k < 8 && BitFromTop(v, k)
    ensures v & 0xFF00 != 0
  {
  }

  /** The bit-scan loop: `*count` becomes the MSB-first index of the first
      set bit of the top byte, and is left as it was when the top byte is zero. */
  method ScanTopByte(value: bv16, count0: u8) returns (count: u8)
    ensures value & 0xFF00 != 0 ==> count == LeadingZeros(value) && count < 8
    ensures value & 0xFF00 == 0 ==> count == count0
  {
    count := count0;
    TopByteLeadingZeros(value);
    for i: u8 := 0 to 8
      invariant forall j :: 0 <= j < i ==> !BitFromTop(value, j)
    {
      if BitFromTop(value, i) {
        count := i;
        break;
      }
    }
  }

  /** The result of a call, the count it leaves behind, and the events it
      appended to the trace. */
  datatype NvOutcome = NvOutcome(status: Error, count: u8, events: seq<Event>)

  /** What bms_get_nv_writes_remaining returns, leaves in `*count` (whose
      value before the call is `count0`) and does on the bus, when called
      after history `h`. */
  function NvWritesRun(env: Environment, h: seq<Event>, count0: u8): (run: NvOutcome)
    ensures 2 <= |run.events| <= 7
    ensures run.events[0] == WriteEvent(env, h, REG_COMMSTAT, UNLOCK_PATTERN)
    ensures run.count != count0 ==> |run.events| == 7 && run.count < 8
  {
    var w1 := WriteEvent(env, h, REG_COMMSTAT, UNLOCK_PATTERN);
    var w2 := WriteEvent(env, h + [w1], REG_COMMSTAT, UNLOCK_PATTERN);
    // only the second unlock write is checked
    if w2.status != Ok then NvOutcome(w2.status, count0, [w1, w2])
    else
      var w3 := WriteEvent(env, h + [w1, w2], REG_CMDREG, RECALL_COMMAND);
      if w3.status != Ok then NvOutcome(w3.status, count0, [w1, w2, w3])
      else
        var recalled := [w1, w2, w3, Delay(RECALL_DELAY_MS)];
        var r := ReadEvent(env, h + recalled, REG_NV_HISTORY);
        if r.status != Ok then NvOutcome(r.status, count0, recalled + [r])
        else
          var count := if r.value & 0xFF00 != 0 then LeadingZeros(r.value) else count0;
          var w4 := WriteEvent(env, h + recalled + [r], REG_COMMSTAT, LOCK_PATTERN);
          var w5 := WriteEvent(env, h + recalled + [r, w4], REG_COMMSTAT, LOCK_PATTERN);
          // only the second lock write is checked; its status is the result
          NvOutcome(w5.status, count, recalled + [r, w4, w5])
  }

  /** bms_get_nv_writes_remaining; `count0` is `*count` on entry and `count`
      is `*count` on exit. */
  method GetNvWritesRemaining(bus: Bus, count0: u8) returns (status: Error, count: u8)
    modifies bus
    ensures var run := NvWritesRun(bus.env, old(bus.trace), count0);
      status == run.status && count == run.count && bus.trace == old(bus.trace) + run.events
  {
    count := count0;
    var value: bv16 := UNLOCK_PATTERN;
    status := bus.RegWrite(REG_COMMSTAT, value);
    ghost var w1 := Write(REG_COMMSTAT, value, status);
    status := bus.RegWrite(REG_COMMSTAT, value);
    ghost var w2 := Write(REG_COMMSTAT, value, status);
    assert bus.trace == old(bus.trace) + [w1, w2];
    if status != Ok {
      return;
    }

    value := RECALL_COMMAND;
    status := bus.RegWrite(REG_CMDREG, value);
    ghost var w3 := Write(REG_CMDREG, value, status);
    assert bus.trace == old(bus.trace) + [w1, w2, w3];
    if status != Ok {
      return;
    }

    bus.Wait(RECALL_DELAY_MS);
    ghost var recalled := [w1, w2, w3, Delay(RECALL_DELAY_MS)];
    assert bus.trace == old(bus.trace) + recalled;

    status, value := bus.RegRead(REG_NV_HISTORY);
    ghost var r := Read(REG_NV_HISTORY, value, status);
    assert bus.trace == old(bus.trace) + recalled + [r];
    if status != Ok {
      return;
    }

    count := ScanTopByte(value, count);

    value := LOCK_PATTERN;
    status := bus.RegWrite(REG_COMMSTAT, value);
    ghost var w4 := Write(REG_COMMSTAT, value, status);
    assert bus.trace == old(bus.trace) + recalled + [r, w4];
    status := bus.RegWrite(REG_COMMSTAT, value);
    ghost var w5 := Write(REG_COMMSTAT, value, status);
    assert bus.trace == old(bus.trace) + (recalled + [r, w4, w5]);
    if status != Ok {
      return;
    }
    return Ok, count;
  }

  /** The fixed order of the protocol: unlock twice, recall, wait, read,
      lock twice. */
  const NV_PROTOCOL: seq<Step> :=
    [WriteStep(REG_COMMSTAT, UNLOCK_PATTERN), WriteStep(REG_COMMSTAT, UNLOCK_PATTERN),
     WriteStep(REG_CMDREG, RECALL_COMMAND), DelayStep(RECALL_DELAY_MS), ReadStep(REG_NV_HISTORY),
     WriteStep(REG_COMMSTAT, LOCK_PATTERN), WriteStep(REG_COMMSTAT, LOCK_PATTERN)]

  /** Every call issues a prefix of the protocol, at least both unlock writes. */
  lemma NvWritesOrder(env: Environment, h: seq<Event>, count0: u8)
    ensures var run := NvWritesRun(env, h, count0);
      2 <= |run.events| && FollowsProtocol(run.events, NV_PROTOCOL)
  {
  }

  /** The call succeeds exactly when the second unlock write, the recall
      command, the read and the second lock write succeed: the status of the
      first write of each CommStat pair is never looked at. A failure is the
      status of the last transaction issued. */
  lemma NvWritesStatus(env: Environment, h: seq<Event>, count0: u8)
    ensures var run := NvWritesRun(env, h, count0); var ev := run.events;
      run.status == Ok <==>
        (|ev| == 7 && ev[1].status == Ok && ev[2].status == Ok && ev[4].status == Ok && ev[6].status == Ok)
    ensures var run := NvWritesRun(env, h, count0); var ev := run.events;
      run.status != Ok ==> run.status == ev[|ev| - 1].status && |ev| in {2, 3, 5, 7}
  {
  }

  /** Once the unlock has gone through, a failure of the recall command or of
      the read returns without the re-lock writes, leaving the device unlocked. */
  lemma NvWritesFailureLeavesUnlocked(env: Environment, h: seq<Event>, count0: u8)
    ensures var run := NvWritesRun(env, h, count0); var ev := run.events;
      (ev[1].status == Ok && run.status != Ok && !Issued(ev, WriteStep(REG_COMMSTAT, LOCK_PATTERN)))
        <==> (|ev| == 3 || |ev| == 5)
  {
    var ev := NvWritesRun(env, h, count0).events;
    NvWritesOrder(env, h, count0);
    if |ev| == 7 {
      assert StepOf(ev[5]) == WriteStep(REG_COMMSTAT, LOCK_PATTERN);
    } else {
      assert forall k :: 0 <= k < |ev| ==> StepOf(ev[k]) == NV_PROTOCOL[k];
    }
  }

  /** `*count` is written only when the history read succeeds with a set bit
      in its top byte, and then holds that word's leading-zero count, 0..7. */
  lemma NvWritesCount(env: Environment, h: seq<Event>, count0: u8)
    ensures var run := NvWritesRun(env, h, count0); var ev := run.events;
      if |ev| >= 5 && ev[4].status == Ok && ev[4].value & 0xFF00 != 0
      then run.count == LeadingZeros(ev[4].value) && run.count < 8
      else run.count == count0
  {
    var run := NvWritesRun(env, h, count0);
    var ev := run.events;
    NvWritesCountSlot(env, h, count0);
    if |ev| >= 5 {
      TopByteLeadingZeros(ev[4].value);
    }
  }

  lemma NvWritesCountSlot(env: Environment, h: seq<Event>, count0: u8)
    ensures var run := NvWritesRun(env, h, count0); var ev := run.events;
      if |ev| >= 5 && ev[4].status == Ok && ev[4].value & 0xFF00 != 0
      then run.count == LeadingZeros(ev[4].value)
      else run.count == count0
  {
  }
}
