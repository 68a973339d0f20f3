/** The register map, bit masks, bank selection and error codes of the
    MAX17320 fuel-gauge driver (bms.h). */
module Registers {

  /** An unsigned 8-bit quantity, as `uint8_t`. */
  type u8 = x: int | 0 <= x < 256

  // Bus addresses of the two register banks.
  const BMS_I2C_L_ADDR: u8 := 0x6C
  const BMS_I2C_H_ADDR: u8 := 0x16

  /** BMS_I2C_ADDR: the bank that holds register `reg`; every register
      above 0xFF lives behind the high address, the rest behind the low one. */
  function BankAddress(reg: bv16): (a: u8)
    ensures a == BMS_I2C_H_ADDR || a == BMS_I2C_L_ADDR
    ensures a == BMS_I2C_H_ADDR <==> 0xFF < reg
  {
    if reg > 0xFF then BMS_I2C_H_ADDR else BMS_I2C_L_ADDR
  }

  // Register addresses.
  const REG_STATUS: bv16 := 0x0000
  const REG_PROTSTATUS: bv16 := 0x00D9
  const REG_PROTALRT: bv16 := 0x00AF
  const REG_NBATTSTATUS: bv16 := 0x01A8
  const REG_VBAT: bv16 := 0x00DA
  const REG_CBAT: bv16 := 0x001C
  const REG_COMMSTAT: bv16 := 0x0061
  const REG_CMDREG: bv16 := 0x0060
  const REG_CNFG2: bv16 := 0x00AB
  const REG_REPCAP: bv16 := 0x0005
  const REG_FULLCAP: bv16 := 0x0035

  /** The named registers other than nBattStatus. */
  const LOW_BANK_REGISTERS: seq<bv16> :=
    [REG_STATUS, REG_PROTSTATUS, REG_PROTALRT, REG_VBAT, REG_CBAT,
     REG_COMMSTAT, REG_CMDREG, REG_CNFG2, REG_REPCAP, REG_FULLCAP]

  /** nBattStatus is reached through the high bank, every other named
      register through the low bank. */
  lemma RegisterBanks()
    ensures BankAddress(REG_NBATTSTATUS) == BMS_I2C_H_ADDR
    ensures forall i :: 0 <= i < |LOW_BANK_REGISTERS| ==> BankAddress(LOW_BANK_REGISTERS[i]) == BMS_I2C_L_ADDR
  {
  }

  // Bit 15 of nBattStatus and of Status.
  const BIT_PERMFAIL: bv16 := 0x8000
  const BIT_PROTALRT: bv16 := 0x8000

  // The bits of the ProtAlrt register.
  const BIT_CHGWDT: bv16 := 0x8000
  const BIT_TOOHOTC: bv16 := 0x4000
  const BIT_FULL: bv16 := 0x2000
  const BIT_TOOCOLDC: bv16 := 0x1000
  const BIT_OVP: bv16 := 0x0800
  const BIT_OCCP: bv16 := 0x0400
  const BIT_QOVFLW: bv16 := 0x0200
  const BIT_PREQF: bv16 := 0x0100
  const BIT_IMBALANCE: bv16 := 0x0080
  const BIT_PMFAIL: bv16 := 0x0040
  const BIT_DIEHOT: bv16 := 0x0020
  const BIT_TOOHOTD: bv16 := 0x0010
  const BIT_UVP: bv16 := 0x0008
  const BIT_ODCP: bv16 := 0x0004
  const BIT_RESDFAULT: bv16 := 0x0002
  const BIT_LDET: bv16 := 0x0001

  /** The ProtAlrt masks in declaration order, most significant first. */
  const PROTALRT_BITS: seq<bv16> :=
    [BIT_CHGWDT, BIT_TOOHOTC, BIT_FULL, BIT_TOOCOLDC, BIT_OVP, BIT_OCCP,
     BIT_QOVFLW, BIT_PREQF, BIT_IMBALANCE, BIT_PMFAIL, BIT_DIEHOT,
     BIT_TOOHOTD, BIT_UVP, BIT_ODCP, BIT_RESDFAULT, BIT_LDET]

  /** The bitwise OR of a list of masks. */
  function UnionOf(ms: seq<bv16>): (u: bv16)
    ensures forall i :: 0 <= i < |ms| ==> ms[i] & u == ms[i]
  {
    UnionOfFirst(ms, |ms|)
  }

  /** The bitwise OR of the first `n` masks of `ms`. */
  function UnionOfFirst(ms: seq<bv16>, n: nat): (u: bv16)
    requires n <= |ms|
    ensures forall i :: 0 <= i < n ==> ms[i] & u == ms[i]
  {
    if n == 0 then 0 else UnionOfFirst(ms, n - 1) | ms[n - 1]
  }

  /** A mask with exactly one bit set. */
  predicate SingleBit(m: bv16) {
    m != 0 && m & (m - 1) == 0
  }

  /** Mask i of ProtAlrt stands for bit 15 - i alone. */
  lemma ProtAlrtBitsPositional()
    ensures |PROTALRT_BITS| == 16
    ensures forall i :: 0 <= i < 16 ==> PROTALRT_BITS[i] == 0x8000 >> i && SingleBit(PROTALRT_BITS[i])
  {
    var s := PROTALRT_BITS;
    assert s[0] == 0x8000 >> 0 && s[1] == 0x8000 >> 1 && s[2] == 0x8000 >> 2 && s[3] == 0x8000 >> 3;
    assert s[4] == 0x8000 >> 4 && s[5] == 0x8000 >> 5 && s[6] == 0x8000 >> 6 && s[7] == 0x8000 >> 7;
    assert s[8] == 0x8000 >> 8 && s[9] == 0x8000 >> 9 && s[10] == 0x8000 >> 10 && s[11] == 0x8000 >> 11;
    assert s[12] == 0x8000 >> 12 && s[13] == 0x8000 >> 13 && s[14] == 0x8000 >> 14 && s[15] == 0x8000 >> 15;
    forall i | 0 <= i < 16
      ensures s[i] == 0x8000 >> i && SingleBit(s[i])
    {
      ShiftedBitIsSingle(i);
    }
  }

  lemma ShiftedBitIsSingle(i: nat)
    requires i < 16
    ensures SingleBit(0x8000 >> i)
  {
  }

  /** No two of the sixteen ProtAlrt masks share a bit. */
  lemma ProtAlrtBitsDisjoint()
    ensures forall i, j :: 0 <= i < j < |PROTALRT_BITS| ==> PROTALRT_BITS[i] & PROTALRT_BITS[j] == 0
  {
    ProtAlrtBitsPositional();
    forall i, j | 0 <= i < j < 16
      ensures PROTALRT_BITS[i] & PROTALRT_BITS[j] == 0
    {
      ShiftedBitsDisjoint(i, j);
    }
  }

  /** Together the sixteen ProtAlrt masks cover the whole word. */
  lemma ProtAlrtBitsCoverWord()
    ensures UnionOf(PROTALRT_BITS) == 0xFFFF
  {
    ProtAlrtBitsPositional();
    UnionOfPositionalBits(PROTALRT_BITS, 16);
  }

  /** Masks standing for bits 15, 14, ... in turn: the first n of them
      together cover the top n bits of the word. */
  lemma {:induction false} UnionOfPositionalBits(ms: seq<bv16>, n: nat)
    requires n <= |ms| && n <= 16
    requires forall i :: 0 <= i < n ==> ms[i] == 0x8000 >> i
    ensures UnionOfFirst(ms, n) == !(0xFFFF >> n)
  {
    if n > 0 {
      UnionOfPositionalBits(ms, n - 1);
      TopBitsStep(n - 1);
    }
  }

  lemma TopBitsStep(k: nat)
    requires k < 16
    ensures !(0xFFFF as bv16 >> k) | (0x8000 >> k) == !(0xFFFF as bv16 >> (k + 1))
  {
  }

  lemma ShiftedBitsDisjoint(i: nat, j: nat)
    requires i < j < 16
    ensures (0x8000 as bv16 >> i) & (0x8000 as bv16 >> j) == 0
  {
  }

  /** The permanent-fail and protection-alert bits are both bit 15; as a
      value they equal CHGWDT, though each is tested against its own register. */
  lemma StatusBitsAreBitFifteen()
    ensures BIT_PERMFAIL == BIT_PROTALRT == BIT_CHGWDT == PROTALRT_BITS[0]
    ensures SingleBit(BIT_PERMFAIL) && BIT_PERMFAIL & 0x7FFF == 0
  {
  }

  /** bms_error_t. */
  datatype Error =
    | Ok
    | ResetError
    | I2cMemWriteError
    | I2cMemReadError
    | CannotRecError
    | PermFailError
    | PermFailResetError
  {
    /** The enumerator's value; it fits the `uint8_t status` variables. */
    function Code(): (c: u8)
      ensures c < 7
      ensures c == 0 <==> this == Ok
    {
      match this
      case Ok => 0
      case ResetError => 1
      case I2cMemWriteError => 2
      case I2cMemReadError => 3
      case CannotRecError => 4
      case PermFailError => 5
      case PermFailResetError => 6
    }
  }

  /** The enumerator with value `c`: converting a `uint8_t status` back to
      bms_error_t. */
  function FromCode(c: u8): (e: Error)
    requires c < 7
    ensures e.Code() == c
  {
    if c == 0 then Ok
    else if c == 1 then ResetError
    else if c == 2 then I2cMemWriteError
    else if c == 3 then I2cMemReadError
    else if c == 4 then CannotRecError
    else if c == 5 then PermFailError
    else PermFailResetError
  }

  /** Storing an error in a `uint8_t` and reading it back loses nothing, so
      the seven enumerators are distinct. */
  lemma CodeRoundTrip(e: Error, e': Error)
    ensures FromCode(e.Code()) == e
    ensures e.Code() == e'.Code() ==> e == e'
  {
    if e.Code() == e'.Code() {
      assert FromCode(e.Code()) == e;
      assert FromCode(e'.Code()) == e';
    }
  }
}
