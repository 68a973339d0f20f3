# MAX17320 fuel-gauge driver, modelled in Dafny

This project models the decision logic of a driver for the MAX17320 battery
fuel gauge (`bms.c`, `bms.h`). It covers:

- the register map, the bit masks, register-bank selection and error codes;
- the battery-health evaluator `bms_bat_okay`;
- the non-volatile write-cycle counter `bms_get_nv_writes_remaining`;
- the four telemetry readers and `bms_get_stats`;
- the three fixed-result operations `bms_full_reset`, `bms_apply_configuration`
  and `bms_clear_permfail`.

The register transport (`bms_reg_read`, `bms_reg_write`) is a collaborator
whose default bodies are meant to be replaced at link time. Here it is an
*environment*: a total function that answers each request with a status and,
for a read, a 16-bit word. The answer may depend on everything the bus has
seen before. Every call appends one event to a transaction trace (`Read`,
`Write`, `Reset`, `Delay`). The `Reset` event records that `bms_full_reset` was
called. That function issues no bus traffic, but recording the call lets the
"never reset when …" rules be stated as properties of the trace.

Layout:

| file | module | models |
|---|---|---|
| registers.dfy | `Registers` | `bms.h`: addresses, masks, `BMS_I2C_ADDR`, `bms_error_t` |
| transport.dfy | `Transport` | the transport as an environment, the trace, `Bus` |
| health.dfy | `Health` | `bms_revive_blacklist`, `bms_bat_okay`, the fixed-result operations |
| nvcycles.dfy | `NvCycles` | `bms_get_nv_writes_remaining` and its bit scan |
| telemetry.dfy | `Telemetry` | scale conversions, the four readers, `bms_get_stats` |

Each driver routine is a method taking the `Bus`. Its postcondition ties its
result and the events it appended to a pure function of the environment and the
trace before the call (`BatOkayRun`, `NvWritesRun`, `ReaderRun`, `StatsRun`).
The lemmas beside each function state the properties the source was written
to have. For example:

- the order of the bus calls;
- a failed transaction ends the call, and its status is returned unchanged;
- when a reset happens, and when it cannot;
- which fields of the caller's output are written.

The blacklist scan and the bit scan are loops in the source. They are
methods with loop invariants, proved against a declarative specification:
"some mask hits" and "leading-zero count".

Some behaviour of the code is worth stating outright:

- `bms_apply_configuration` does nothing at run time and returns `BMS_OK`
  (bms.c:46-53).
- `bms_full_reset` returns `BMS_RESET_ERROR` unconditionally (bms.c:41-44),
  and `bms_clear_permfail` returns `BMS_PERM_FAIL_RESET_ERROR`
  unconditionally (bms.c:351-354).
- So in `bms_bat_okay`, once a reset is called, the fall-through to
  `return BMS_OK` (bms.c:130-143) cannot be reached. A protection alert with
  only TOOHOTD (0x0010) latched ends in `ResetError` (`BatOkayRevivable`).
- `bms_get_stats` reads voltage, current, state of charge and capacity, in
  that order (bms.c:304-338).
- When the top byte of the history word is zero, `*count` keeps the caller's
  value (bms.c:275-282). The model takes that value in and hands it back.

The source also has three compile-level slips, which the model resolves:

- bms.c:119 returns `BMS_CANNOT_REC`, which the enum does not declare. The
  model uses `CannotRecError` (`BMS_CANNOT_REC_ERROR`, bms.h:61).
- `bms_get_stats` takes a `bms_stats *` (bms.h:214, bms.c:300), but the
  typedef is `bms_stats_t` (bms.h:54).
- The enum at bms.h:57-63 is a `typedef` with no name, so only
  `enum bms_error_t` exists.

The model treats `bms_error_t` as the datatype `Registers.Error` and the
stats struct as `Telemetry.Snapshot`.

## Model

| member | source | states |
|---|---|---|
| `Registers.BankAddress` | bms.h:6-9 | the bank address is 0x16 exactly when the register is above 0xFF, and 0x6C otherwise |
| `Registers.RegisterBanks` | bms.h:9-23 | nBattStatus (0x01A8) selects the high address; Status, ProtStatus, ProtAlrt, VBat, Current, CommStat, Command, Config2, RepCap and FullCap select the low one |
| `Registers.ProtAlrtBitsPositional` | bms.h:28-43 | each of the sixteen ProtAlrt masks CHGWDT…LDET is a single bit, mask i being bit 15 - i |
| `Registers.ProtAlrtBitsDisjoint` | bms.h:28-43 | no two ProtAlrt masks share a bit |
| `Registers.ProtAlrtBitsCoverWord` | bms.h:28-43 | the OR of the sixteen ProtAlrt masks is 0xFFFF |
| `Registers.StatusBitsAreBitFifteen` | bms.h:25-28 | PERMFAIL and PROTALRT are both bit 15 alone, equal in value to CHGWDT |
| `Registers.Error.Code` | bms.h:57-63 | the enumerators are numbered below 7, so they fit `uint8_t`; only `BMS_OK` is 0 |
| `Registers.FromCode` | bms.h:57-63 | every value 0..6 is the code of an enumerator, namely the one returned |
| `Registers.CodeRoundTrip` | bms.c:62-69 | holding a status in a `uint8_t` and returning it as `bms_error_t` gives back the same enumerator; distinct enumerators have distinct codes |
| `Transport.Bus.RegRead` | bms.c:36-39 | a read answers with the environment's status and word for this history, and appends exactly that read to the trace |
| `Transport.Bus.RegWrite` | bms.c:31-34 | a write answers with the environment's status for this history, and appends exactly that write to the trace |
| `Transport.Bus.Wait` | bms.c:26-29 | a delay only appends `Delay(ms)` to the trace |
| `Transport.Bus.NoteFullReset` | bms.c:128 | the call of `bms_full_reset` only appends the `Reset` record to the trace |
| `Health.BlacklistMasks` | bms.c:9 | the four blacklist masks OVP, IMBALANCE, PREQF, PMFAIL are pairwise disjoint and their OR is 0x09C0 |
| `Health.SameMasksSameHits` | bms.c:110-121 | whether some mask shares a bit with a word depends only on the multiset of masks, not on their order |
| `Health.BlacklistHitIsUnion` | bms.c:9 | a word hits the blacklist, scanned in any order, exactly when it has a bit of 0x09C0 set |
| `Health.ScanBlacklist` | bms.c:110-121 | the early-exit loop over the blacklist reports a hit exactly when some blacklist mask shares a bit with the ProtAlrt word |
| `Health.FullReset` | bms.c:41-44 | the full reset always reports `BMS_RESET_ERROR`; its only trace entry is the `Reset` call record |
| `Health.ApplyConfiguration` | bms.c:46-53 | applying the configuration never fails: it reports `BMS_OK` |
| `Health.ClearPermFail` | bms.c:351-354 | clearing a permanent failure never succeeds: it reports `BMS_PERM_FAIL_RESET_ERROR` |
| `Health.BatOkayRun` | bms.c:55-144 | a call issues one to four events, the first always the nBattStatus read after the given history; when that read fails it is the only event and its status is the result |
| `Health.BatOkay` | bms.c:55-144 | the routine's result and the events it appends are `BatOkayRun` of the bus's environment and its trace before the call |
| `Health.BatOkayOrder` | bms.c:55-144 | the calls are a prefix of read nBattStatus, read Status, read ProtAlrt, reset, and include at least the first read |
| `Health.BatOkayReadFailureIsFinal` | bms.c:62-108 | a failed read is the last event of the call and its status is returned unchanged, so nothing is read or reset after it |
| `Health.BatOkayPermanentFailure` | bms.c:73-79 | with the nBattStatus read succeeding and bit 15 set, the result is `BMS_PERM_FAIL_ERROR` and the trace holds only that read |
| `Health.BatOkayNoAlert` | bms.c:93-143 | with both reads succeeding, permanent-fail clear and protection-alert clear, the result is `BMS_OK` after exactly those two reads: ProtAlrt is not read and nothing is reset |
| `Health.BatOkayBlacklisted` | bms.c:110-121 | with the alert set and ProtAlrt having a bit of 0x09C0, the result is `BMS_CANNOT_REC_ERROR` after the three reads, with no reset |
| `Health.BatOkayRevivable` | bms.c:127-136 | with the alert set and ProtAlrt free of 0x09C0, exactly one reset follows the three reads and its `BMS_RESET_ERROR` is returned |
| `Health.BatOkayResetIffRevivable` | bms.c:99-136 | a reset is issued if and only if all three reads succeed, permanent-fail is clear, the alert is set and no blacklisted fault is latched; a reset is always the last event |
| `Health.BatOkayOkIffHealthy` | bms.c:73-143 | the result is `BMS_OK` if and only if the call made exactly two successful reads with permanent-fail and protection-alert both clear; an OK call never reads ProtAlrt and never resets |
| `NvCycles.LeadingZeros` | bms.c:274-282 | the count n is at most 16, the top n bits are clear and, if n < 16, bit 15 - n is set |
| `NvCycles.TopByteLeadingZeros` | bms.c:274-282 | the leading-zero count is below 8 exactly when the top byte is non-zero; 0x8000 gives 0 and 0x1000 gives 3 |
| `NvCycles.ScanTopByte` | bms.c:274-282 | with some bit of the top byte set, the loop stores the word's leading-zero count, which is 0..7; otherwise the caller's count is untouched |
| `NvCycles.NvWritesRun` | bms.c:230-298 | a call issues two to seven events, the first always the unlock write of 0x0000 to CommStat; `*count` changes only in a call that issues all seven, and then to a value below 8 |
| `NvCycles.GetNvWritesRemaining` | bms.c:230-298 | the routine's status, final `*count` and appended events are `NvWritesRun` of the bus's environment, its trace before the call and the caller's count |
| `NvCycles.NvWritesOrder` | bms.c:235-290 | the calls are a prefix of: write 0x0000 twice to CommStat, write 0xE29B to the command register, delay 10 ms, read 0x01FD, write 0x00F9 twice to CommStat; both unlock writes are always issued |
| `NvCycles.NvWritesStatus` | bms.c:237-297 | the call succeeds if and only if the second unlock write, the recall command, the read and the second lock write succeed, so the first write of each pair is never checked; a failure is the status of the last call issued |
| `NvCycles.NvWritesFailureLeavesUnlocked` | bms.c:248-272 | a failure after a successful unlock with no re-lock write happens exactly when the recall command or the 0x01FD read fails |
| `NvCycles.NvWritesCount` | bms.c:263-282 | `*count` changes only when the 0x01FD read succeeds with a non-zero top byte, and then holds the word's leading-zero count, below 8 |
| `Telemetry.Signed16` | bms.c:169-183 | the current word read as `int16_t` is the one value in -32768..32767 congruent to the raw word modulo 2^16, negative exactly when bit 15 is set |
| `Telemetry.Scale` | bms.c:161-225 | a voltage lies in 0..65535 × 0.3125e-3 V, a current in -32768..32767 × 1.5625e-3 A, a charge or capacity in 0..65535 × 5e-3 Ah |
| `Telemetry.ScaleOrder` | bms.c:161-225 | a reading is strictly increasing in its raw count, as `uint16_t` for voltage and capacity and as `int16_t` for current, so distinct words give distinct readings |
| `Telemetry.ScaleSigns` | bms.c:167-185 | only a current reading can be negative, and it is negative exactly when bit 15 is set; raw 0 reads as 0; raw 0xFFFF current reads as -1 × 1.5625e-3 |
| `Telemetry.ReaderRun` | bms.c:146-228 | a reader issues exactly one read, of its quantity's register; its status is the read's; the output is the scaled word when the read succeeds and the caller's old value otherwise |
| `Telemetry.GetVoltage` | bms.c:146-165 | one VBAT read; on success the output is raw × 0.3125e-3, on failure it keeps its old value and the read's status is returned; the status, output and appended event are `ReaderRun` of `Voltage` |
| `Telemetry.GetCurrent` | bms.c:167-186 | one current-register read; on success the output is the signed raw value × 1.5625e-3, on failure it keeps its old value; the status, output and appended event are `ReaderRun` of `Current` |
| `Telemetry.GetSoc` | bms.c:188-207 | one RepCap read; on success the output is raw × 5e-3, on failure it keeps its old value; the status, output and appended event are `ReaderRun` of `RepCap` |
| `Telemetry.GetFullCapacity` | bms.c:209-228 | one FullCap read; on success the output is raw × 5e-3, on failure it keeps its old value; the status, output and appended event are `ReaderRun` of `FullCap` |
| `Telemetry.StatsRun` | bms.c:300-349 | the aggregator issues one to four events, all reads, the first always the VBAT read after the given history |
| `Telemetry.GetStats` | bms.c:300-349 | the routine's status, the caller's struct after the call and the appended events are `StatsRun` of the bus's environment, its trace before the call and the caller's struct |
| `Telemetry.StatsOrder` | bms.c:300-348 | the aggregator only reads, doing a prefix of VBAT, current, RepCap, FullCap in that order and at least VBAT |
| `Telemetry.StatsFirstFailure` | bms.c:304-348 | the call succeeds if and only if all four reads do; otherwise its status is that of the last read, and every earlier read succeeded |
| `Telemetry.StatsFields` | bms.c:300-348 | each struct field holds its scaled reading if its read took place and succeeded, and keeps the caller's value otherwise |

## Left out

- Logging: `bms_print`, `bms_log` and every `BMS_DEBUG` block (bms.c:3-24 and the `#ifdef` blocks) are a diagnostic side channel that never changes control flow or results.
- The default bodies of `bms_reg_read` and `bms_reg_write` (bms.c:31-39) are replaced by the environment. An environment that answers every read with `BMS_I2C_MEM_READ_ERROR` and every write with `BMS_I2C_MEM_WRITE_ERROR` is the default build.
- `bms_delay` timing: the 10 ms wait is recorded only as the trace event `Delay(10)`.
- Floating point: readings are exact reals, so the single-precision rounding of `(float)data * k` is not modelled.
- Byte layout: each two-byte transfer delivers or takes a 16-bit word directly. The `(uint8_t*)&data` cast, host endianness and the `len` argument (always 2) are not modelled.
- Out-pointers: the caller's storage behind `*voltage`, `*count`, `*stats` and so on is passed in and handed back as a value. Aliasing between such pointers is not modelled.
- Bank selection: `BMS_I2C_ADDR` is modelled as a function, but bms.c never uses it. Choosing the bank is left to the transport, so the trace records register addresses only.
- `T_BMS_POR_TIMEOUT_MS` (bms.h:11) is unused. `BMS_REG_PROTSTATUS` and `BMS_REG_CNFG2` are declared but never accessed. They appear as constants only.
- Concurrency: the driver is single-threaded. Interleaving callers on the same device is outside the model.
