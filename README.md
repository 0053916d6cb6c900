# LTC2941 coulomb-counter driver, modelled in Dafny

This project models the Arduino driver for the LTC2941 battery gas gauge,
the `LTC2941` class. The two-wire bus and the chip behind it are replaced by
the chip's register file: eight bytes at addresses 0x00 to 0x07 (status,
control, and three most-significant-byte-first word registers). The driver
object holds that register file and its own three fields:

- the cached prescaler multiplier `prescalar`;
- the configured full capacity `powerMaxAMh`;
- the 32-bit software accumulator of expended charge `powerExpend`.

The project has three modules:

- `Ltc2941Header` (`ltc2941_header.dfy`) holds the header's register
  addresses, the control-register masks and bit positions, the capacity
  limit and the three enumerations. It proves the mask layout, enumerator
  widths and register pairing.
- `Ltc2941Bytes` (`ltc2941_bytes.dfy`) splits and joins 16-bit words into
  byte pairs and proves the round trip.
- `Ltc2941Driver` (`ltc2941_driver.dfy`) holds the class `LTC2941` with
  imperative methods over the register array, mirroring `LTC2941.cpp`. Next
  to the class are the value-level functions that specify those methods:
  - the masked byte update;
  - the expended-charge reading with its rebase;
  - the prescaler search and the full-scale count.

  The lemmas about those functions are also in this module.

Integer widths are explicit:

- bytes are `UInt8` and words `UInt16` (subsets of `int`);
- control bytes are `bv8`;
- the accumulator wraps modulo 2^32 exactly as the `uint32_t` field does.

The capacity search is stated over exact reals, using the source's own
formula. With the fixed 50 milliohm resistor, that condition is proved
equivalent to `mAh * 25 <= 1088 * M`.

In the source, `updateReg` computes `(val << shift) & ~mask` in `int` and
stores only the low byte. The model computes the same expression in `bv8`.
Only the low byte is ever stored, so the two agree.

## Model

| member | source | states |
|---|---|---|
| Ltc2941Header.VbatAlertCode | LTC2941.h:59-65 | each battery-alert enumerator has its header value, which is below 4 (fits two bits) |
| Ltc2941Header.PrescaleCode | LTC2941.h:67-77 | each prescaler enumerator has its header value, which is below 8 (fits three bits) |
| Ltc2941Header.AlertConfCode | LTC2941.h:79-84 | each alert-mode enumerator has its header value, which is below 3 |
| Ltc2941Header.FieldPos | LTC2941.h:52-55 | every field position lies inside the byte |
| Ltc2941Header.FieldBits | LTC2941.h:47-55 | a field's bits, built from its width and position, are exactly the complement of the header's keep-mask for it, and the field ends inside the byte |
| Ltc2941Header.FieldsPartitionControlByte | LTC2941.h:47-50 | the four field complements are pairwise disjoint and together cover all eight bits |
| Ltc2941Header.EnumeratorsFitFields | LTC2941.h:59-84 | every enumerator value fits the width of the field it is written to |
| Ltc2941Header.WordRegistersArePairs | LTC2941.h:40-45 | the three word registers are MSB/LSB pairs at consecutive addresses, MSB at the lower one, inside the register file |
| Ltc2941Header.BatteryMaxFitsUInt16 | LTC2941.h:57 | the 5570 mAh limit fits the 16-bit capacity field and parameter |
| Ltc2941Bytes.JoinThenSplit | LTC2941.cpp:216-230 | a word assembled from a byte pair splits back into the same MSB and LSB |
| Ltc2941Bytes.SplitThenJoin | LTC2941.cpp:193-199 | splitting a word into `v >> 8` and `v & 0xff` and joining them gives the word back |
| Ltc2941Bytes.WithWord | LTC2941.cpp:193-199 | storing a word at reg leaves the pair reg, reg+1 reading back as that word, keeps the length and leaves every other register as it was |
| Ltc2941Driver.PrescalarTableIsPowersOfTwo | LTC2941.cpp:33 | the prescaler table has eight entries and entry p is 2^p |
| Ltc2941Driver.UpdateByte | LTC2941.cpp:232-241 | bits set in the mask keep their old value; bits clear in the mask take the bits of `val << shift` |
| Ltc2941Driver.UpdateFieldReadsBack | LTC2941.cpp:86-101 | writing a value that fits through a field's mask and position makes that field read back as the value and leaves the other three fields unchanged |
| Ltc2941Driver.InitializedControl | LTC2941.cpp:43-46 | the three control updates of initialisation give the old shutdown bit together with 0x38: alert 00, prescaler 111, alert mode 00, shutdown bit kept |
| Ltc2941Driver.RebaseKeepsTotal | LTC2941.cpp:155-161 | moving 0xF000 counts from the register into the wrapping 32-bit accumulator does not change their wrapping sum |
| Ltc2941Driver.ExpendSteps | LTC2941.cpp:151-159 | the getters' step-by-step arithmetic (complement, 0xFFFF read as nothing, rebase at 0xF000) yields exactly the declarative reading: total = held + accumulator mod 2^32, rebase iff at least 0xF000 held |
| Ltc2941Driver.ExpendRebaseCases | LTC2941.cpp:151-159 | a reading rebases if and only if `0xFFFF - raw` lies in [0xF000, 0xFFFE]; a word of 0 reports the accumulator alone and writes nothing; a rewritten word lies in [0xF001, 0xFFFF] |
| Ltc2941Driver.AccumulatorGrowsBy0xF000 | LTC2941.cpp:155-157 | without 32-bit wrap, the accumulator stays the same when nothing is rebased and grows by exactly 0xF000 when it is |
| Ltc2941Driver.ExpendReadingIsStable | LTC2941.cpp:151-161 | a second reading on the register a reading left behind reports the same total, keeps the accumulator and rewrites nothing: the rebase loses no charge |
| Ltc2941Driver.FitsExactly | LTC2941.cpp:58-62 | with the 50 milliohm resistor, "mAh/65536 <= LSB at M" holds if and only if `mAh * 25 <= 1088 * M` |
| Ltc2941Driver.FirstFitFrom | LTC2941.cpp:60-65 | the search result from index i is the first index at or after i whose entry fits, or 8 when none does |
| Ltc2941Driver.FirstFitFound | LTC2941.cpp:54-69 | every capacity up to 5570 mAh has a fitting prescaler, so the "no prescaler" exit is unreachable after the range guard |
| Ltc2941Driver.FitsFromFirstFitOn | LTC2941.cpp:60-65 | every table entry from the first fit onward also fits, so the first fit is the smallest fitting multiplier |
| Ltc2941Driver.BatteryMaxIsLargestFit | LTC2941.h:57 | 5570 mAh is exactly the largest capacity M = 128 covers, and it selects index 7 |
| Ltc2941Driver.FindPrescaler | LTC2941.cpp:58-65 | the `for` loop with `break` returns the index of the first table entry whose LSB is at least mAh/65536, or 8 |
| Ltc2941Driver.FullScaleCount | LTC2941.cpp:75-79 | the count for a full battery fits 16 bits and is the truncated quotient: count LSBs do not exceed mAh, count+1 LSBs do |
| Ltc2941Driver.FullScaleCountBounds | LTC2941.cpp:75-79 | the integer quotient `mAh*128000 / (85*M)` is below 65536 and brackets mAh between count and count+1 LSBs |
| Ltc2941Driver.LTC2941.constructor | LTC2941.cpp:35-41 | a new driver has prescaler 128, capacity 5570 mAh and accumulator 0 |
| Ltc2941Driver.LTC2941.Initialize | LTC2941.cpp:43-48 | afterwards the alert, prescaler and alert-mode fields are 0, 7 and 0, shutdown is unchanged, the accumulated charge is 0xFFFF, no other register changes, the cached prescaler is 128 and capacity and accumulator are unchanged |
| Ltc2941Driver.LTC2941.SetBatteryFullMAh | LTC2941.cpp:50-84 | above 5570 mAh, or with no fitting prescaler, nothing changes; otherwise the cached prescaler is the first fitting table entry and the capacity is mAh; the accumulated-charge register gets the full-scale count only when flag is set; the control register is never written |
| Ltc2941Driver.LTC2941.SetBatteryAlert | LTC2941.cpp:86-88 | the alert field reads back as the enumerator, the other fields and all other registers are unchanged |
| Ltc2941Driver.LTC2941.SetPrescaler | LTC2941.cpp:90-94 | the prescaler field reads back as the code, the cached multiplier is the table entry for the field it wrote, the other fields and registers are unchanged |
| Ltc2941Driver.LTC2941.SetAlertConfig | LTC2941.cpp:96-98 | the alert-mode field reads back as the enumerator, the other fields and registers are unchanged |
| Ltc2941Driver.LTC2941.SetShutdown | LTC2941.cpp:99-101 | the shutdown bit reads back as the flag, the other fields and registers are unchanged |
| Ltc2941Driver.LTC2941.SetAccumulatedCharge | LTC2941.cpp:103-105 | registers 0x02/0x03 hold the word, every other register is unchanged |
| Ltc2941Driver.LTC2941.SetChargeThresholdHigh | LTC2941.cpp:107-109 | registers 0x04/0x05 hold the word, every other register is unchanged |
| Ltc2941Driver.LTC2941.SetChargeThresholdLow | LTC2941.cpp:111-113 | registers 0x06/0x07 hold the word, every other register is unchanged |
| Ltc2941Driver.LTC2941.GetStatus | LTC2941.cpp:115-117 | returns the status register byte |
| Ltc2941Driver.LTC2941.RawExpend | LTC2941.cpp:147-165 | returns the expended reading's total, stores its accumulator, and rewrites the accumulated-charge register only when the reading rebases |
| Ltc2941Driver.LTC2941.Write8 | LTC2941.cpp:186-191 | the addressed register holds the byte, no other changes |
| Ltc2941Driver.LTC2941.Write16 | LTC2941.cpp:193-199 | MSB at reg, LSB at reg+1, no other changes |
| Ltc2941Driver.LTC2941.Read8 | LTC2941.cpp:201-214 | returns the addressed register byte |
| Ltc2941Driver.LTC2941.Read16 | LTC2941.cpp:216-230 | returns the word whose high byte is at reg and low byte at reg+1 (the inverse of Write16) |
| Ltc2941Driver.LTC2941.UpdateReg | LTC2941.cpp:232-241 | the addressed register becomes the keep-mask update of its old byte; no other register changes |
| Ltc2941Driver.ReadExpendTwice | LTC2941.cpp:167-184 | two expended-charge readings in a row report the same raw total |

## Left out

- The Wire transport is not modelled: `beginTransmission`, `requestFrom`, `available`, `endTransmission` and the device address 0x64. The register file stands in for the chip. Read8 and Read16 always find their bytes, so the source's fallback of returning 0 when no bytes arrive is not modelled.
- The chip's own behaviour is not modelled: its counter changing between calls, and its status bits. The register file changes only through the driver.
- `getCoulombs`, `getmAh`, `getPercent` and the final float lines of `getCoulombsExpend` and `getmAhExpend` are not modelled, because they are float conversions. This includes the 3.6 factor, and `getPercent`'s division by `powerMaxAMh`, which can be 0 after a capacity of 0.
- SetBatteryFullMAh: the prescaler search is stated over exact reals rather than `float`. The count is the exact floor of mAh divided by the LSB, rather than a float quotient cast to `uint16_t`. Float rounding at the boundaries is not modelled.
- SetBatteryFullMAh: as in the source, it does not reprogram the control register's prescaler field. The cached multiplier can therefore differ from the field until SetPrescaler is called.
- AccumulatorGrowsBy0xF000: requires that the accumulator does not pass 2^32. Everywhere else the wrap is modelled modulo 2^32.
- RawExpend: the arithmetic runs in ExpendSteps on values, and RawExpend applies the result to the object. So the store to `powerExpend` happens after the arithmetic rather than in the middle of it. The final state is the same, because nothing else reads the state in between.
- `getCoulombsExpend` and `getmAhExpend` have identical integer logic, so RawExpend models both.
- The `resistor` field is the constant `RESISTOR`, because the constructor sets it to 0.050 and nothing changes it.
- `prescalar` is an `int` kept to the table entries (at most 128) by `Valid`. In the source it is a `uint16_t`.
- The global instance `ltc2941` and the Arduino includes are not modelled. A driver is constructed over a caller-supplied register array.
