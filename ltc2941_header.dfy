/** Register map, control-register field layout, limits and enumerations of the
    LTC2941 coulomb counter, as the driver's header declares them. */
module Ltc2941Header {

  /** Device register addresses (one byte each). */
  const STATUS_REG: nat := 0x00
  const CONTROL_REG: nat := 0x01
  const ACCUM_CHARGE_MSB_REG: nat := 0x02
  const ACCUM_CHARGE_LSB_REG: nat := 0x03
  const CHARGE_THRESH_HIGH_MSB_REG: nat := 0x04
  const CHARGE_THRESH_HIGH_LSB_REG: nat := 0x05
  const CHARGE_THRESH_LOW_MSB_REG: nat := 0x06
  const CHARGE_THRESH_LOW_LSB_REG: nat := 0x07

  /** Number of byte registers the device exposes (addresses 0x00 to 0x07). */
  const REGISTER_COUNT: nat := 8

  /** Control-register masks. A mask has a 1 for every bit to KEEP when a field
      is written; its complement selects the bits of the field itself. */
  const VBAT_ALERT_MASK: bv8 := 0x3F
  const PRESCALAR_MASK: bv8 := 0xC7
  const ALERT_MODE_MASK: bv8 := 0xF9
  const SHUTDOWN_MASK: bv8 := 0xFE

  /** Bit position of the least significant bit of each control-register field. */
  const VBAT_ALERT_POS: bv8 := 6
  const PRESCALAR_POS: bv8 := 3
  const ALERT_MODE_POS: bv8 := 1
  const SHUTDOWN_POS: bv8 := 0

  /** Largest battery capacity, in mAh, the driver accepts. */
  const BATTERY_MAX: nat := 5570

  type UInt8 = x: int | 0 <= x < 0x100
  type UInt16 = x: int | 0 <= x < 0x1_0000
  type UInt32 = x: int | 0 <= x < 0x1_0000_0000

  /** Battery-voltage alert threshold (control bits 7-6). */
  datatype VbatAlert = VbatAlertOff | Vbat2_8V | Vbat2_9V | Vbat3_0V

  /** Coulomb-counter prescaler selection M (control bits 5-3). */
  datatype Prescale = M1 | M2 | M4 | M8 | M16 | M32 | M64 | M128

  /** Configuration of the AL/CC pin (control bits 2-1). */
  datatype AlertConf = AlertDisabled | ChargeComplete | AlertMode

  /** The numeric value of each alert-threshold enumerator; it fits the 2-bit field. */
  function VbatAlertCode(v: VbatAlert): (c: bv8)
    ensures c < 4
  {
    match v
    case VbatAlertOff => 0
    case Vbat2_8V => 1
    case Vbat2_9V => 2
    case Vbat3_0V => 3
  }

  /** The numeric value of each prescaler enumerator; it fits the 3-bit field. */
  function PrescaleCode(p: Prescale): (c: bv8)
    ensures c < 8
  {
    match p
    case M1 => 0
    case M2 => 1
    case M4 => 2
    case M8 => 3
    case M16 => 4
    case M32 => 5
    case M64 => 6
    case M128 => 7
  }

  /** The numeric value of each alert-mode enumerator; it fits the 2-bit field. */
  function AlertConfCode(a: AlertConf): (c: bv8)
    ensures c < 3
  {
    match a
    case AlertDisabled => 0
    case ChargeComplete => 1
    case AlertMode => 2
  }

  /** The four bit fields of the control register. */
  datatype ControlField = BatteryAlertField | PrescalerField | AlertModeField | ShutdownField

  function FieldMask(f: ControlField): bv8 {
    match f
    case BatteryAlertField => VBAT_ALERT_MASK
    case PrescalerField => PRESCALAR_MASK
    case AlertModeField => ALERT_MODE_MASK
    case ShutdownField => SHUTDOWN_MASK
  }

  function FieldPos(f: ControlField): (p: bv8)
    ensures p < 8
  {
    match f
    case BatteryAlertField => VBAT_ALERT_POS
    case PrescalerField => PRESCALAR_POS
    case AlertModeField => ALERT_MODE_POS
    case ShutdownField => SHUTDOWN_POS
  }

  /** Field widths from the device's control-register layout. */
  function FieldWidth(f: ControlField): bv8 {
    match f
    case BatteryAlertField => 2
    case PrescalerField => 3
    case AlertModeField => 2
    case ShutdownField => 1
  }

  /** The bits a field occupies, built from its width and position; they are
      exactly the complement of the header's mask for that field. */
  function FieldBits(f: ControlField): (b: bv8)
    ensures b == !FieldMask(f)
    ensures FieldPos(f) + FieldWidth(f) <= 8
  {
    (((1 as bv8) << FieldWidth(f)) - 1) << FieldPos(f)
  }

  /** Whether `val` fits in the width of field `f`. */
  predicate FitsField(val: bv8, f: ControlField) {
    val >> FieldWidth(f) == 0
  }

  /** The value stored in field `f` of control byte `ctrl`. */
  function FieldValue(ctrl: bv8, f: ControlField): bv8 {
    (ctrl & !FieldMask(f)) >> FieldPos(f)
  }

  /** The four fields tile the control byte: no bit belongs to two fields and
      every bit belongs to one. */
  lemma FieldsPartitionControlByte()
    ensures forall f: ControlField, g: ControlField :: f != g ==> FieldBits(f) & FieldBits(g) == 0
    ensures FieldBits(BatteryAlertField) | FieldBits(PrescalerField)
            | FieldBits(AlertModeField) | FieldBits(ShutdownField) == 0xFF
  {
  }

  /** Every enumerator fits the width of the field it is written to. */
  lemma EnumeratorsFitFields(v: VbatAlert, p: Prescale, a: AlertConf)
    ensures FitsField(VbatAlertCode(v), BatteryAlertField)
    ensures FitsField(PrescaleCode(p), PrescalerField)
    ensures FitsField(AlertConfCode(a), AlertModeField)
  {
  }

  /** The three 16-bit registers are MSB/LSB pairs at consecutive addresses,
      most significant byte at the lower address, inside the register file. */
  lemma WordRegistersArePairs()
    ensures ACCUM_CHARGE_LSB_REG == ACCUM_CHARGE_MSB_REG + 1 < REGISTER_COUNT
    ensures CHARGE_THRESH_HIGH_LSB_REG == CHARGE_THRESH_HIGH_MSB_REG + 1 < REGISTER_COUNT
    ensures CHARGE_THRESH_LOW_LSB_REG == CHARGE_THRESH_LOW_MSB_REG + 1 < REGISTER_COUNT
  {
  }

  /** The capacity limit fits the 16-bit capacity field and parameter. */
  lemma BatteryMaxFitsUInt16()
    ensures BATTERY_MAX < 0x1_0000
  {
  }

  function Pow2(n: nat): (r: nat)
    ensures r >= 1
  {
    if n == 0 then 1 else 2 * Pow2(n - 1)
  }
}
