/** The LTC2941 driver class. The two-wire bus and the chip behind it are
    replaced by the chip's register file, eight bytes at addresses 0x00 to
    0x07; the driver's own state is the cached prescaler multiplier, the
    configured full capacity and the software accumulator of expended
    charge. */
module Ltc2941Driver {
  import opened Ltc2941Header
  import opened Ltc2941Bytes

  datatype Option<T> = None | Some(value: T)

  /** Unsigned 32-bit arithmetic wraps modulo this value. */
  const UINT32_MODULUS: int := 0x1_0000_0000

  /** Charge, in mAh, of one count of the accumulated-charge register at
      prescaler M = 128 with a 50 milliohm sense resistor. */
  const CHARGE_LSB: real := 0.085

  /** Sense resistor, in ohms. The driver's constructor sets it and no
      operation changes it, so it is a constant of the model. */
  const RESISTOR: real := 0.050

  /** Multiplier M for each prescaler code 0..7. */
  const PRESCALAR_TABLE: seq<int> := [1, 2, 4, 8, 16, 32, 64, 128]

  /** The table entry for code p is 2^p. */
  lemma {:induction false} PrescalarTableIsPowersOfTwo()
    ensures |PRESCALAR_TABLE| == 8
    ensures forall p :: 0 <= p < 8 ==> PRESCALAR_TABLE[p] == Pow2(p)
  {
    assert Pow2(7) == 128;
  }

  // ---------------------------------------------------------------------
  // Masked update of a control-register field

  /** Read-modify-write of one register byte: every bit set in `mask` keeps its
      current value, every bit clear in `mask` takes the bit of `val << shift`. */
  function UpdateByte(current: bv8, mask: bv8, shift: bv8, val: bv8): (r: bv8)
    requires shift < 8
    ensures r & mask == current & mask
    ensures r & !mask == (val << shift) & !mask
  {
    (current & mask) | ((val << shift) & !mask)
  }

  /** Writing a value that fits a field's width through that field's mask and
      position makes the field read back as the value and leaves the other
      three fields as they were. */
  lemma UpdateFieldReadsBack(ctrl: bv8, f: ControlField, val: bv8)
    requires FitsField(val, f)
    ensures FieldValue(UpdateByte(ctrl, FieldMask(f), FieldPos(f), val), f) == val
    ensures forall g: ControlField :: g != f ==>
      FieldValue(UpdateByte(ctrl, FieldMask(f), FieldPos(f), val), g) == FieldValue(ctrl, g)
  {
  }

  /** The control byte that initialisation leaves behind: battery alert and
      alert pin off, prescaler code 7, shutdown bit as it was. */
  lemma InitializedControl(ctrl: bv8)
    ensures var c := UpdateByte(UpdateByte(UpdateByte(ctrl, VBAT_ALERT_MASK, VBAT_ALERT_POS, 0),
                                           ALERT_MODE_MASK, ALERT_MODE_POS, 0),
                                PRESCALAR_MASK, PRESCALAR_POS, 7);
      && c == (ctrl & 0x01) | 0x38
      && FieldValue(c, BatteryAlertField) == 0
      && FieldValue(c, PrescalerField) == 7
      && FieldValue(c, AlertModeField) == 0
      && FieldValue(c, ShutdownField) == FieldValue(ctrl, ShutdownField)
  {
  }

  // ---------------------------------------------------------------------
  // Expended charge: 16-bit hardware counter plus 32-bit software accumulator

  /** Result of one expended-charge reading: the new accumulator, the word
      written back to the accumulated-charge register (if any), and the raw
      expended count the reading reports. */
  datatype ExpendReading = ExpendReading(accumulator: UInt32, rewrite: Option<UInt16>, total: UInt32)

  /** Counts of charge the accumulated-charge register word `raw` holds: the
      register counts towards 0xFFFF, and a word of 0 reads as nothing held. */
  function Held(raw: UInt16): int {
    if raw == 0 then 0 else 0xFFFF - raw
  }

  /** What a reading should produce from register word `raw` and accumulator
      `acc`: the total is always the charge held plus the accumulator, in
      wrapping 32-bit arithmetic; once 0xF000 or more counts are held, 0xF000
      of them move into the accumulator and the register is reprogrammed 0xF000
      counts further from its floor. */
  function ExpendFrom(raw: UInt16, acc: UInt32): ExpendReading {
    if 0xF000 <= Held(raw) then
      ExpendReading((acc + 0xF000) % UINT32_MODULUS, Some(raw + 0xF000), (Held(raw) + acc) % UINT32_MODULUS)
    else
      ExpendReading(acc, None, (Held(raw) + acc) % UINT32_MODULUS)
  }

  /** Moving 0xF000 counts from the register into the wrapping accumulator
      does not change their wrapping 32-bit sum. */
  lemma RebaseKeepsTotal(data: int, acc: UInt32)
    requires 0xF000 <= data <= 0xFFFF
    ensures (data - 0xF000 + (acc + 0xF000) % UINT32_MODULUS) % UINT32_MODULUS
         == (data + acc) % UINT32_MODULUS
  {
    if acc + 0xF000 >= UINT32_MODULUS {
      assert (acc + 0xF000) % UINT32_MODULUS == acc + 0xF000 - UINT32_MODULUS;
      assert (data + acc - UINT32_MODULUS) % UINT32_MODULUS == (data + acc) % UINT32_MODULUS;
    }
  }

  /** The getters' arithmetic on the register word `raw` and accumulator `acc`,
      step by step: take the complement, read 0xFFFF as nothing spent, and
      rebase 0xF000 counts into the accumulator once that many are held. */
  method ExpendSteps(raw: UInt16, acc: UInt32) returns (total: UInt32, acc': UInt32, rewrite: Option<UInt16>)
    ensures ExpendReading(acc', rewrite, total) == ExpendFrom(raw, acc)
  {
    acc' := acc;
    rewrite := None;
    var data := 0xFFFF - raw;
    if data == 0xFFFF {
      data := 0;
    } else if data >= 0xF000 {
      RebaseKeepsTotal(data, acc);
      acc' := (acc' + 0xF000) % UINT32_MODULUS;
      data := data - 0xF000;
      rewrite := Some(0xFFFF - data);
    }
    total := (data + acc') % UINT32_MODULUS;
  }

  /** A reading rebases exactly when 0xFFFF - raw lies in [0xF000, 0xFFFE]; a
      word of 0 reports the accumulator alone; the rewritten word lies in
      [0xF001, 0xFFFF]. */
  lemma ExpendRebaseCases(raw: UInt16, acc: UInt32)
    ensures ExpendFrom(raw, acc).rewrite.Some? <==> 0xF000 <= 0xFFFF - raw <= 0xFFFE
    ensures raw == 0 ==> ExpendFrom(raw, acc) == ExpendReading(acc, None, acc)
    ensures ExpendFrom(raw, acc).rewrite.Some? ==> 0xF001 <= ExpendFrom(raw, acc).rewrite.value <= 0xFFFF
  {
  }

  /** Unless the 32-bit accumulator wraps, a reading either leaves it alone or
      adds exactly 0xF000 to it, and it adds only when it rebases. */
  lemma AccumulatorGrowsBy0xF000(raw: UInt16, acc: UInt32)
    requires acc + 0xF000 < UINT32_MODULUS
    ensures ExpendFrom(raw, acc).rewrite.None? ==> ExpendFrom(raw, acc).accumulator == acc
    ensures ExpendFrom(raw, acc).rewrite.Some? ==> ExpendFrom(raw, acc).accumulator == acc + 0xF000
  {
  }

  /** Reading again right after a reading, with the register as that reading
      left it, reports the same total and rewrites nothing: the rebase loses
      and duplicates no charge. */
  lemma ExpendReadingIsStable(raw: UInt16, acc: UInt32)
    ensures var e := ExpendFrom(raw, acc);
            var raw' := if e.rewrite.Some? then e.rewrite.value else raw;
            var e' := ExpendFrom(raw', e.accumulator);
            e'.total == e.total && e'.accumulator == e.accumulator && e'.rewrite == None
  {
    if 0xF000 <= Held(raw) {
      RebaseKeepsTotal(Held(raw), acc);
    }
  }

  // ---------------------------------------------------------------------
  // Capacity calibration: choosing a prescaler for a battery capacity

  /** Charge, in mAh, of one register count at multiplier M = prescalar. */
  function LsbMAh(prescalar: int): real {
    (CHARGE_LSB * (prescalar as real) * 0.05) / (RESISTOR * 128.0)
  }

  /** The prescaler's count is coarse enough that 65536 counts cover mAh. */
  predicate Fits(mAh: int, prescalar: int) {
    (mAh as real) / 65536.0 <= LsbMAh(prescalar)
  }

  /** With the 50 milliohm resistor the search condition is an integer one. */
  lemma FitsExactly(mAh: int, prescalar: int)
    ensures Fits(mAh, prescalar) <==> mAh * 25 <= 1088 * prescalar
  {
  }

  /** Index of the first table prescaler, from index i on, that fits mAh;
      8 when none does. */
  function FirstFitFrom(mAh: int, i: nat): (k: nat)
    requires i <= 8
    ensures i <= k <= 8
    ensures k < 8 ==> Fits(mAh, PRESCALAR_TABLE[k])
    ensures forall j :: i <= j < k ==> !Fits(mAh, PRESCALAR_TABLE[j])
    decreases 8 - i
  {
    if i == 8 then 8
    else if Fits(mAh, PRESCALAR_TABLE[i]) then i
    else FirstFitFrom(mAh, i + 1)
  }

  function FirstFit(mAh: int): nat {
    FirstFitFrom(mAh, 0)
  }

  /** Every capacity the driver accepts has a prescaler that fits. */
  lemma FirstFitFound(mAh: int)
    requires 0 <= mAh <= BATTERY_MAX
    ensures FirstFit(mAh) < 8
  {
    FitsExactly(mAh, 128);
  }

  /** A prescaler fits whenever a smaller table entry does, so the first fit
      is the smallest fitting multiplier and every later one fits too. */
  lemma {:induction false} FitsFromFirstFitOn(mAh: int, j: nat)
    requires FirstFit(mAh) <= j < 8
    ensures Fits(mAh, PRESCALAR_TABLE[j])
  {
    var k := FirstFit(mAh);
    FitsExactly(mAh, PRESCALAR_TABLE[k]);
    FitsExactly(mAh, PRESCALAR_TABLE[j]);
  }

  /** The capacity limit is exactly the largest capacity M = 128 can cover. */
  lemma BatteryMaxIsLargestFit()
    ensures Fits(BATTERY_MAX, 128) && !Fits(BATTERY_MAX + 1, 128)
    ensures FirstFit(BATTERY_MAX) == 7
  {
    FitsExactly(BATTERY_MAX, 128);
    FitsExactly(BATTERY_MAX + 1, 128);
    FitsExactly(BATTERY_MAX, 64);
    assert FirstFitFrom(BATTERY_MAX, 7) == 7;
  }

  /** The linear search over the prescaler table for the first entry whose
      count covers mAh / 65536; 8 when no entry does. */
  method FindPrescaler(mAh: int) returns (i: nat)
    ensures i == FirstFit(mAh)
  {
    var qLSB := (mAh as real) / 65536.0;
    i := 0;
    while i < 8
      invariant i <= 8
      invariant FirstFitFrom(mAh, i) == FirstFit(mAh)
    {
      var temp := LsbMAh(PRESCALAR_TABLE[i]);
      if qLSB <= temp {
        break;
      }
      i := i + 1;
    }
  }

  /** Register count that represents mAh at multiplier prescalar: mAh
      divided by the charge per count, truncated. */
  function FullScaleCount(mAh: nat, prescalar: int): (count: int)
    requires prescalar in PRESCALAR_TABLE && Fits(mAh, prescalar)
    ensures 0 <= count < 0x1_0000
    ensures (count as real) * LsbMAh(prescalar) <= mAh as real
    ensures (mAh as real) < ((count + 1) as real) * LsbMAh(prescalar)
  {
    FullScaleCountBounds(mAh, prescalar);
    (mAh * 128000) / (85 * prescalar)
  }

  lemma FullScaleCountBounds(mAh: nat, prescalar: int)
    requires prescalar in PRESCALAR_TABLE && Fits(mAh, prescalar)
    ensures var count := (mAh * 128000) / (85 * prescalar);
      && 0 <= count < 0x1_0000
      && (count as real) * LsbMAh(prescalar) <= mAh as real
      && (mAh as real) < ((count + 1) as real) * LsbMAh(prescalar)
  {
    FitsExactly(mAh, prescalar);
    var d := 85 * prescalar;
    var count := (mAh * 128000) / d;
    assert count * d <= mAh * 128000 < (count + 1) * d;
    assert mAh * 128000 <= 65536 * d;
    assert mAh * 128000 != 65536 * d;
    assert LsbMAh(prescalar) == (d as real) / 128000.0;
  }

  // ---------------------------------------------------------------------
  // The driver

  class LTC2941 {
    /** The chip's register file, addresses 0x00 to 0x07. */
    const regs: array<UInt8>
    /** Cached prescaler multiplier M used by the conversions. */
    var prescalar: int
    /** Configured full battery capacity, in mAh. */
    var powerMaxAMh: UInt16
    /** Software accumulator of expended charge, in register counts. */
    var powerExpend: UInt32

    ghost predicate Valid()
      reads this
    {
      regs.Length == REGISTER_COUNT && prescalar in PRESCALAR_TABLE
    }

    /** The word held by the accumulated-charge register pair. */
    function AccumulatedCharge(): UInt16
      requires Valid()
      reads this, regs
    {
      JoinBytes(regs[ACCUM_CHARGE_MSB_REG], regs[ACCUM_CHARGE_LSB_REG])
    }

    /** The control register byte. */
    function Control(): bv8
      requires Valid()
      reads this, regs
    {
      regs[CONTROL_REG] as bv8
    }

    constructor (device: array<UInt8>)
      requires device.Length == REGISTER_COUNT
      ensures Valid() && regs == device
      ensures prescalar == 128 && powerMaxAMh == BATTERY_MAX && powerExpend == 0
    {
      regs := device;
      prescalar := 128;
      powerMaxAMh := BATTERY_MAX;
      powerExpend := 0;
    }

    /** Disable the battery alert and the alert pin, select M = 128 and put the
      accumulated-charge register at its top, 0xFFFF. */
    method Initialize()
      requires Valid()
      modifies this, regs
      ensures Valid()
      ensures FieldValue(Control(), BatteryAlertField) == 0
      ensures FieldValue(Control(), PrescalerField) == 7
      ensures FieldValue(Control(), AlertModeField) == 0
      ensures FieldValue(Control(), ShutdownField) == FieldValue(old(Control()), ShutdownField)
      ensures Control() == (old(Control()) & 0x01) | 0x38
      ensures AccumulatedCharge() == 0xFFFF
      ensures regs[..] == WithWord(old(regs[..])[CONTROL_REG := regs[CONTROL_REG]], ACCUM_CHARGE_MSB_REG, 0xFFFF)
      ensures prescalar == 128
      ensures powerMaxAMh == old(powerMaxAMh) && powerExpend == old(powerExpend)
    {
      ghost var r0 := regs[..];
      ghost var c0 := Control();
      SetBatteryAlert(VbatAlertOff);
      ghost var c1 := Control();
      assert c1 == UpdateByte(c0, VBAT_ALERT_MASK, VBAT_ALERT_POS, 0);
      SetAlertConfig(AlertDisabled);
      ghost var c2 := Control();
      assert c2 == UpdateByte(c1, ALERT_MODE_MASK, ALERT_MODE_POS, 0);
      assert regs[..] == r0[CONTROL_REG := regs[CONTROL_REG]];
      SetPrescaler(M128);
      ghost var c3 := Control();
      assert c3 == UpdateByte(c2, PRESCALAR_MASK, PRESCALAR_POS, 7);
      ghost var r3 := regs[..];
      assert r3 == r0[CONTROL_REG := regs[CONTROL_REG]];
      SetAccumulatedCharge(0xFFFF);
      assert regs[CONTROL_REG] == r3[CONTROL_REG];
      assert Control() == c3 == UpdateByte(UpdateByte(UpdateByte(c0, VBAT_ALERT_MASK, VBAT_ALERT_POS, 0),
                                                      ALERT_MODE_MASK, ALERT_MODE_POS, 0),
                                           PRESCALAR_MASK, PRESCALAR_POS, 7);
      InitializedControl(c0);
    }

    /** Fit the register range to a battery of mAh: pick the smallest prescaler
      whose 65536 counts cover mAh, remember it and the capacity, and, when
      flag is set, load the register with the count for a full battery. The
      control register is not written. */
    method SetBatteryFullMAh(mAh: UInt16, flag: bool := true)
      requires Valid()
      modifies this, regs
      ensures Valid()
      ensures powerExpend == old(powerExpend)
      ensures mAh > BATTERY_MAX || FirstFit(mAh) == 8 ==>
        prescalar == old(prescalar) && powerMaxAMh == old(powerMaxAMh) && regs[..] == old(regs[..])
      ensures mAh <= BATTERY_MAX && FirstFit(mAh) < 8 ==>
        && prescalar == PRESCALAR_TABLE[FirstFit(mAh)]
        && powerMaxAMh == mAh
        && regs[..] == if flag
                       then WithWord(old(regs[..]), ACCUM_CHARGE_MSB_REG, FullScaleCount(mAh, prescalar))
                       else old(regs[..])
    {
      if mAh > BATTERY_MAX {
        return;
      }
      var i := FindPrescaler(mAh);
      if i >= 8 {
        return;
      }
      powerMaxAMh := mAh;
      prescalar := PRESCALAR_TABLE[i];
      var count := FullScaleCount(mAh, prescalar);
      if flag {
        SetAccumulatedCharge(count);
      }
    }

    /** Set the battery-voltage alert field (control bits 7-6). */
    method SetBatteryAlert(voltage: VbatAlert)
      requires Valid()
      modifies regs
      ensures FieldValue(Control(), BatteryAlertField) == VbatAlertCode(voltage)
      ensures forall g: ControlField :: g != BatteryAlertField ==>
        FieldValue(Control(), g) == FieldValue(old(Control()), g)
      ensures Control() == UpdateByte(old(Control()), VBAT_ALERT_MASK, VBAT_ALERT_POS, VbatAlertCode(voltage))
      ensures regs[..] == old(regs[..])[CONTROL_REG := regs[CONTROL_REG]]
    {
      UpdateReg(CONTROL_REG, VBAT_ALERT_MASK, VBAT_ALERT_POS, VbatAlertCode(voltage));
      UpdateFieldReadsBack(old(Control()), BatteryAlertField, VbatAlertCode(voltage));
    }

    /** Select the prescaler (control bits 5-3) and cache its multiplier. */
    method SetPrescaler(prescale: Prescale)
      requires Valid()
      modifies this, regs
      ensures Valid()
      ensures prescalar == PRESCALAR_TABLE[PrescaleCode(prescale)]
      ensures FieldValue(Control(), PrescalerField) == PrescaleCode(prescale)
      ensures prescalar == PRESCALAR_TABLE[FieldValue(Control(), PrescalerField)]
      ensures forall g: ControlField :: g != PrescalerField ==>
        FieldValue(Control(), g) == FieldValue(old(Control()), g)
      ensures Control() == UpdateByte(old(Control()), PRESCALAR_MASK, PRESCALAR_POS, PrescaleCode(prescale))
      ensures regs[..] == old(regs[..])[CONTROL_REG := regs[CONTROL_REG]]
      ensures powerMaxAMh == old(powerMaxAMh) && powerExpend == old(powerExpend)
    {
      prescalar := PRESCALAR_TABLE[PrescaleCode(prescale)];
      UpdateReg(CONTROL_REG, PRESCALAR_MASK, PRESCALAR_POS, PrescaleCode(prescale));
      UpdateFieldReadsBack(old(Control()), PrescalerField, PrescaleCode(prescale));
    }

    /** Configure the alert pin (control bits 2-1). */
    method SetAlertConfig(config: AlertConf)
      requires Valid()
      modifies regs
      ensures FieldValue(Control(), AlertModeField) == AlertConfCode(config)
      ensures forall g: ControlField :: g != AlertModeField ==>
        FieldValue(Control(), g) == FieldValue(old(Control()), g)
      ensures Control() == UpdateByte(old(Control()), ALERT_MODE_MASK, ALERT_MODE_POS, AlertConfCode(config))
      ensures regs[..] == old(regs[..])[CONTROL_REG := regs[CONTROL_REG]]
    {
      UpdateReg(CONTROL_REG, ALERT_MODE_MASK, ALERT_MODE_POS, AlertConfCode(config));
      UpdateFieldReadsBack(old(Control()), AlertModeField, AlertConfCode(config));
    }

    /** Set or clear the shutdown bit (control bit 0). */
    method SetShutdown(enable: bool)
      requires Valid()
      modifies regs
      ensures FieldValue(Control(), ShutdownField) == if enable then 1 else 0
      ensures forall g: ControlField :: g != ShutdownField ==>
        FieldValue(Control(), g) == FieldValue(old(Control()), g)
      ensures Control() == UpdateByte(old(Control()), SHUTDOWN_MASK, SHUTDOWN_POS, if enable then 1 else 0)
      ensures regs[..] == old(regs[..])[CONTROL_REG := regs[CONTROL_REG]]
    {
      var val: bv8 := if enable then 1 else 0;
      UpdateReg(CONTROL_REG, SHUTDOWN_MASK, SHUTDOWN_POS, val);
      UpdateFieldReadsBack(old(Control()), ShutdownField, val);
    }

    method SetAccumulatedCharge(thresh: UInt16)
      requires Valid()
      modifies regs
      ensures regs[..] == WithWord(old(regs[..]), ACCUM_CHARGE_MSB_REG, thresh)
    {
      Write16(ACCUM_CHARGE_MSB_REG, thresh);
    }

    method SetChargeThresholdHigh(thresh: UInt16)
      requires Valid()
      modifies regs
      ensures regs[..] == WithWord(old(regs[..]), CHARGE_THRESH_HIGH_MSB_REG, thresh)
    {
      Write16(CHARGE_THRESH_HIGH_MSB_REG, thresh);
    }

    method SetChargeThresholdLow(thresh: UInt16)
      requires Valid()
      modifies regs
      ensures regs[..] == WithWord(old(regs[..]), CHARGE_THRESH_LOW_MSB_REG, thresh)
    {
      Write16(CHARGE_THRESH_LOW_MSB_REG, thresh);
    }

    method GetStatus() returns (status: UInt8)
      requires Valid()
      ensures status == regs[STATUS_REG]
    {
      status := Read8(STATUS_REG);
    }

    /** The integer part shared by the two expended-charge getters: read the
      register, rebase it into the accumulator when it is close to its floor,
      and return the raw expended count (register part plus accumulator). */
    method RawExpend() returns (total: UInt32)
      requires Valid()
      modifies this, regs
      ensures Valid()
      ensures var e := ExpendFrom(old(AccumulatedCharge()), old(powerExpend));
        && total == e.total
        && powerExpend == e.accumulator
        && (e.rewrite.None? ==> regs[..] == old(regs[..]))
        && (e.rewrite.Some? ==>
              regs[..] == WithWord(old(regs[..]), ACCUM_CHARGE_MSB_REG, e.rewrite.value))
      ensures prescalar == old(prescalar) && powerMaxAMh == old(powerMaxAMh)
    {
      var raw := Read16(ACCUM_CHARGE_MSB_REG);
      var acc;
      var rewrite;
      total, acc, rewrite := ExpendSteps(raw, powerExpend);
      powerExpend := acc;
      if rewrite.Some? {
        SetAccumulatedCharge(rewrite.value);
      }
    }

    method Write8(reg: nat, val: UInt8)
      requires Valid() && reg < REGISTER_COUNT
      modifies regs
      ensures regs[..] == old(regs[..])[reg := val]
    {
      regs[reg] := val;
    }

    /** Send the most significant byte to reg and the least significant byte
      to reg + 1. */
    method Write16(reg: nat, val: UInt16)
      requires Valid() && reg + 1 < REGISTER_COUNT
      modifies regs
      ensures regs[..] == WithWord(old(regs[..]), reg, val)
    {
      regs[reg] := HighByte(val);
      regs[reg + 1] := LowByte(val);
    }

    method Read8(reg: nat) returns (v: UInt8)
      requires Valid() && reg < REGISTER_COUNT
      ensures v == regs[reg]
    {
      v := regs[reg];
    }

    /** Read the byte pair at reg, reg + 1 as one word, first byte most
      significant: the inverse of Write16. */
    method Read16(reg: nat) returns (v: UInt16)
      requires Valid() && reg + 1 < REGISTER_COUNT
      ensures HighByte(v) == regs[reg] && LowByte(v) == regs[reg + 1]
      ensures v == JoinBytes(regs[reg], regs[reg + 1])
    {
      var msb := regs[reg];
      var lsb := regs[reg + 1];
      v := JoinBytes(msb, lsb);
      JoinThenSplit(msb, lsb);
    }

    /** Read-modify-write of register reg under the keep-mask convention. */
    method UpdateReg(reg: nat, mask: bv8, shift: bv8, val: bv8)
      requires Valid() && reg < REGISTER_COUNT && shift < 8
      modifies regs
      ensures regs[..] == old(regs[..])[reg := UpdateByte(old(regs[reg]) as bv8, mask, shift, val) as int]
    {
      var cur := Read8(reg);
      var tmp := cur as bv8;
      tmp := tmp & mask;
      tmp := tmp | ((val << shift) & !mask);
      assert tmp == UpdateByte(cur as bv8, mask, shift, val);
      Write8(reg, tmp as int);
    }
  }

  /** Two expended-charge readings in a row report the same total. */
  method ReadExpendTwice(d: LTC2941) returns (first: UInt32, second: UInt32)
    requires d.Valid()
    modifies d, d.regs
    ensures first == second
  {
    first := d.RawExpend();
    ExpendReadingIsStable(old(d.AccumulatedCharge()), old(d.powerExpend));
    second := d.RawExpend();
  }
}
