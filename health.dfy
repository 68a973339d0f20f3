/** The battery-health evaluator bms_bat_okay and the fixed-result
    operations of bms.c. */
module Health {
  import opened Registers
  import opened Transport

  /** bms_revive_blacklist: ProtAlrt faults after which the pack must never
      be reset, in the source's order. */
  const REVIVE_BLACKLIST: seq<bv16> := [BIT_OVP, BIT_IMBALANCE, BIT_PREQF, BIT_PMFAIL]

  /** OVP | PREQF | IMBALANCE | PMFAIL. */
  const BLACKLIST_UNION: bv16 := 0x09C0

  /** Some mask of `ms` shares a bit with `v`. */
  predicate AnyMaskHits(ms: seq<bv16>, v: bv16) {
    exists i :: 0 <= i < |ms| && MaskHits(ms[i], v)
  }

  /** `v` has a bit of mask `m` set. */
  predicate MaskHits(m: bv16, v: bv16) {
    v & m != 0
  }

  /** The blacklist masks are pairwise disjoint and their union is 0x09C0. */
  lemma BlacklistMasks()
    ensures forall i, j :: 0 <= i < j < |REVIVE_BLACKLIST| ==> REVIVE_BLACKLIST[i] & REVIVE_BLACKLIST[j] == 0
    ensures UnionOf(REVIVE_BLACKLIST) == BLACKLIST_UNION
  {
    var s := REVIVE_BLACKLIST;
    assert UnionOfFirst(s, 1) == 0x0800;
    assert UnionOfFirst(s, 2) == 0x0880;
    assert UnionOfFirst(s, 3) == 0x0980;
  }

  /** A blacklist hit is the same as a bit of 0x09C0 being set, and so does
      not depend on the order the blacklist is scanned in. */
  lemma BlacklistHitIsUnion(ms: seq<bv16>, v: bv16)
    requires multiset(ms) == multiset(REVIVE_BLACKLIST)
    ensures AnyMaskHits(ms, v) <==> v & BLACKLIST_UNION != 0
  {
    SameMasksSameHits(ms, REVIVE_BLACKLIST, v);
    var s := REVIVE_BLACKLIST;
    UnionBits(v);
    if v & BLACKLIST_UNION != 0 {
      if MaskHits(s[0], v) {
        assert MaskHits(s[0], v);
      } else if MaskHits(s[1], v) {
        assert MaskHits(s[1], v);
      } else if MaskHits(s[2], v) {
        assert MaskHits(s[2], v);
      } else {
        assert MaskHits(s[3], v);
      }
    }
  }

  lemma UnionBits(v: bv16)
    ensures v & BLACKLIST_UNION != 0 <==>
      (v & BIT_OVP != 0 || v & BIT_IMBALANCE != 0 || v & BIT_PREQF != 0 || v & BIT_PMFAIL != 0)
  {
  }

  /** Whether some mask hits depends only on which masks there are. */
  lemma SameMasksSameHits(ms: seq<bv16>, ns: seq<bv16>, v: bv16)
    requires multiset(ms) == multiset(ns)
    ensures AnyMaskHits(ms, v) <==> AnyMaskHits(ns, v)
  {
    if AnyMaskHits(ms, v) {
      var i :| 0 <= i < |ms| && MaskHits(ms[i], v);
      assert ms[i] in multiset(ns);
      var j :| 0 <= j < |ns| && ns[j] == ms[i];
    }
    if AnyMaskHits(ns, v) {
      var j :| 0 <= j < |ns| && MaskHits(ns[j], v);
      assert ns[j] in multiset(ms);
      var i :| 0 <= i < |ms| && ms[i] == ns[j];
    }
  }

  /** The loop of bms_bat_okay over the blacklist, with its early exit. */
  method ScanBlacklist(data: bv16) returns (hit: bool)
    ensures hit <==> AnyMaskHits(REVIVE_BLACKLIST, data)
  {
    var blacklist := REVIVE_BLACKLIST;
    var i := 0;
    while i < |blacklist|
      invariant 0 <= i <= |blacklist|
      invariant forall j :: 0 <= j < i ==> !MaskHits(blacklist[j], data)
    {
      if MaskHits(blacklist[i], data) {
        return true;
      }
      i := i + 1;
    }
    return false;
  }

  /** bms_full_reset: the shipped body does nothing and fails. */
  method FullReset(bus: Bus) returns (status: Error)
    modifies bus
    ensures status == ResetError
    ensures bus.trace == old(bus.trace) + [Reset]
  {
    bus.NoteFullReset();
    status := ResetError;
  }

  /** bms_apply_configuration: configuration is applied in the factory, so
      at run time the call does nothing and reports success. */
  function ApplyConfiguration(): (status: Error)
    ensures status == Ok
  {
    Ok
  }

  /** bms_clear_permfail: clearing a permanent failure is never possible
      in the shipped build. */
  function ClearPermFail(): (status: Error)
    ensures status == PermFailResetError
  {
    PermFailResetError
  }

  /** The result of a call and the events it appended to the trace. */
  datatype Outcome = Outcome(status: Error, events: seq<Event>)

  /** What bms_bat_okay returns and does on the bus, when called after
      history `h`. */
  function BatOkayRun(env: Environment, h: seq<Event>): (run: Outcome)
    ensures 1 <= |run.events| <= 4
    ensures run.events[0] == ReadEvent(env, h, REG_NBATTSTATUS)
    ensures run.events[0].status != Ok ==> run.status == run.events[0].status && |run.events| == 1
  {
    var e1 := ReadEvent(env, h, REG_NBATTSTATUS);
    if e1.status != Ok then Outcome(e1.status, [e1])
    else if e1.value & BIT_PERMFAIL != 0 then Outcome(PermFailError, [e1])
    else
      var e2 := ReadEvent(env, h + [e1], REG_STATUS);
      if e2.status != Ok then Outcome(e2.status, [e1, e2])
      else if e2.value & BIT_PROTALRT == 0 then Outcome(Ok, [e1, e2])
      else
        var e3 := ReadEvent(env, h + [e1, e2], REG_PROTALRT);
        if e3.status != Ok then Outcome(e3.status, [e1, e2, e3])
        else if AnyMaskHits(REVIVE_BLACKLIST, e3.value) then Outcome(CannotRecError, [e1, e2, e3])
        // bms_full_reset is called and its status, always BMS_RESET_ERROR, returned
        else Outcome(ResetError, [e1, e2, e3, Reset])
  }

  /** bms_bat_okay. */
  method BatOkay(bus: Bus) returns (status: Error)
    modifies bus
    ensures var run := BatOkayRun(bus.env, old(bus.trace));
      status == run.status && bus.trace == old(bus.trace) + run.events
  {
    var data: bv16;
    status, data := bus.RegRead(REG_NBATTSTATUS);
    if status != Ok {
      return;
    }
    if data & BIT_PERMFAIL != 0 {
      return PermFailError;
    }
    ghost var e1 := Read(REG_NBATTSTATUS, data, status);
    status, data := bus.RegRead(REG_STATUS);
    ghost var e2 := Read(REG_STATUS, data, status);
    assert bus.trace == old(bus.trace) + [e1, e2];
    if status != Ok {
      return;
    }
    if data & BIT_PROTALRT != 0 {
      status, data := bus.RegRead(REG_PROTALRT);
      ghost var e3 := Read(REG_PROTALRT, data, status);
      assert bus.trace == old(bus.trace) + [e1, e2, e3];
      if status != Ok {
        return;
      }
      var hit := ScanBlacklist(data);
      if hit {
        return CannotRecError;
      }
      status := FullReset(bus);
      if status != Ok {
        return;
      }
    }
    return Ok;
  }

  /** The order of bms_bat_okay's calls: nBattStatus, Status, ProtAlrt, reset. */
  const BAT_OKAY_PROTOCOL: seq<Step> :=
    [ReadStep(REG_NBATTSTATUS), ReadStep(REG_STATUS), ReadStep(REG_PROTALRT), ResetStep]

  /** Every call issues a prefix of the fixed order, at least the first read. */
  lemma BatOkayOrder(env: Environment, h: seq<Event>)
    ensures var run := BatOkayRun(env, h);
      1 <= |run.events| && FollowsProtocol(run.events, BAT_OKAY_PROTOCOL)
  {
  }

  /** A read that fails ends the call: its status is returned unchanged and
      nothing is read or reset after it. */
  lemma BatOkayReadFailureIsFinal(env: Environment, h: seq<Event>)
    ensures var run := BatOkayRun(env, h);
      forall k :: 0 <= k < |run.events| && run.events[k].Read? && run.events[k].status != Ok ==>
        k == |run.events| - 1 && run.status == run.events[k].status
  {
  }

  /** A set permanent-fail bit is reported at once: Status is not read and
      no reset is issued. */
  lemma BatOkayPermanentFailure(env: Environment, h: seq<Event>, nbatt: bv16)
    requires env(h, ReadReq(REG_NBATTSTATUS)) == Reply(Ok, nbatt)
    requires nbatt & BIT_PERMFAIL != 0
    ensures BatOkayRun(env, h) == Outcome(PermFailError, [Read(REG_NBATTSTATUS, nbatt, Ok)])
  {
  }

  /** Without a protection alert the pack is okay: ProtAlrt is not read and
      no reset is issued. */
  lemma BatOkayNoAlert(env: Environment, h: seq<Event>, nbatt: bv16, status: bv16)
    requires env(h, ReadReq(REG_NBATTSTATUS)) == Reply(Ok, nbatt)
    requires nbatt & BIT_PERMFAIL == 0
    requires env(h + [Read(REG_NBATTSTATUS, nbatt, Ok)], ReadReq(REG_STATUS)) == Reply(Ok, status)
    requires status & BIT_PROTALRT == 0
    ensures BatOkayRun(env, h) == Outcome(Ok, [Read(REG_NBATTSTATUS, nbatt, Ok), Read(REG_STATUS, status, Ok)])
  {
  }

  /** A blacklisted fault in ProtAlrt, that is a bit of 0x09C0, means the
      pack cannot be recovered, and no reset is issued. */
  lemma BatOkayBlacklisted(env: Environment, h: seq<Event>, nbatt: bv16, status: bv16, alert: bv16)
    requires env(h, ReadReq(REG_NBATTSTATUS)) == Reply(Ok, nbatt)
    requires nbatt & BIT_PERMFAIL == 0
    requires env(h + [Read(REG_NBATTSTATUS, nbatt, Ok)], ReadReq(REG_STATUS)) == Reply(Ok, status)
    requires status & BIT_PROTALRT != 0
    requires env(h + [Read(REG_NBATTSTATUS, nbatt, Ok), Read(REG_STATUS, status, Ok)], ReadReq(REG_PROTALRT)) == Reply(Ok, alert)
    requires alert & BLACKLIST_UNION != 0
    ensures BatOkayRun(env, h) ==
      Outcome(CannotRecError, [Read(REG_NBATTSTATUS, nbatt, Ok), Read(REG_STATUS, status, Ok), Read(REG_PROTALRT, alert, Ok)])
  {
    BlacklistHitIsUnion(REVIVE_BLACKLIST, alert);
  }

  /** A protection alert with no blacklisted fault leads to exactly one full
      reset, whose failure BMS_RESET_ERROR is the result. */
  lemma BatOkayRevivable(env: Environment, h: seq<Event>, nbatt: bv16, status: bv16, alert: bv16)
    requires env(h, ReadReq(REG_NBATTSTATUS)) == Reply(Ok, nbatt)
    requires nbatt & BIT_PERMFAIL == 0
    requires env(h + [Read(REG_NBATTSTATUS, nbatt, Ok)], ReadReq(REG_STATUS)) == Reply(Ok, status)
    requires status & BIT_PROTALRT != 0
    requires env(h + [Read(REG_NBATTSTATUS, nbatt, Ok), Read(REG_STATUS, status, Ok)], ReadReq(REG_PROTALRT)) == Reply(Ok, alert)
    requires alert & BLACKLIST_UNION == 0
    ensures BatOkayRun(env, h) ==
      Outcome(ResetError, [Read(REG_NBATTSTATUS, nbatt, Ok), Read(REG_STATUS, status, Ok), Read(REG_PROTALRT, alert, Ok), Reset])
  {
    BlacklistHitIsUnion(REVIVE_BLACKLIST, alert);
  }

  /** A reset is issued exactly when all three reads succeed, the
      permanent-fail bit is clear, the protection-alert bit is set and no
      blacklisted fault is latched; it is then the last event, issued once. */
  lemma BatOkayResetIffRevivable(env: Environment, h: seq<Event>)
    ensures var run := BatOkayRun(env, h); var ev := run.events;
      Issued(ev, ResetStep) <==>
        (|ev| >= 3 && ev[0].status == Ok && ev[0].value & BIT_PERMFAIL == 0
         && ev[1].status == Ok && ev[1].value & BIT_PROTALRT != 0
         && ev[2].status == Ok && ev[2].value & BLACKLIST_UNION == 0)
    ensures var ev := BatOkayRun(env, h).events;
      forall k :: 0 <= k < |ev| && ev[k] == Reset ==> k == |ev| - 1
  {
    var ev := BatOkayRun(env, h).events;
    assert forall k :: 0 <= k < |ev| && k < 3 ==> ev[k].Read?;
    if |ev| >= 3 {
      BlacklistHitIsUnion(REVIVE_BLACKLIST, ev[2].value);
    }
    if |ev| == 4 {
      assert StepOf(ev[3]) == ResetStep;
    }
  }

  /** The pack is reported okay exactly when both status reads succeed and
      neither the permanent-fail nor the protection-alert bit is set; then
      ProtAlrt is never read and no reset is issued. */
  lemma BatOkayOkIffHealthy(env: Environment, h: seq<Event>)
    ensures var run := BatOkayRun(env, h); var ev := run.events;
      run.status == Ok <==>
        (|ev| == 2 && ev[0].status == Ok && ev[0].value & BIT_PERMFAIL == 0
         && ev[1].status == Ok && ev[1].value & BIT_PROTALRT == 0)
    ensures var run := BatOkayRun(env, h);
      run.status == Ok ==> !Issued(run.events, ReadStep(REG_PROTALRT)) && !Issued(run.events, ResetStep)
  {
  }
}
