# Cheshire boot-disk flasher and CLINT register map, in Dafny

This project models two pieces of the Cheshire RISC-V SoC's boot software.

**The boot-disk flasher** (`sw/boot/flash.c`). `main` reads the RTC reference frequency from a 32-bit
register, has the CLINT measure the core clock, and switches on the boot-target mode:

- mode 1 flashes an SD card over SPI;
- mode 2 flashes an S25FS512S NOR flash over SPI;
- mode 3 flashes a 24FC1025 EEPROM over I2C;
- any other mode prints a diagnostic and returns -1.

Each backend builds a device handle, calls the device's init routine and returns a nonzero status at once.
After a successful init, the SPI backends spin on the CLINT timer for a settle delay:

- the SD card runs at a fixed 24 MHz on chip select 0, with the last chip select as dummy, and waits 1000 us;
- the NOR flash runs at `min(40 MHz, core/4)` on chip select 1 and waits 350 us;
- the EEPROM waits nothing.

A delay of `d` microseconds becomes `(d * rtc) / 1_000_000 + 1` ticks, evaluated in `uint64_t`.

**The CLINT register map** (`sw/include/regs/clint.h`). These are the generated offsets of the
machine software-interrupt pending bits (MSIP), the four harts' 64-bit `mtimecmp` registers and the
64-bit `mtime` register. The timer registers are those of the RISC-V Privileged Architecture,
section 3.2.1 (v1.12), at the SiFive CLINT positions. The MSIP bits of all four harts sit in one
32-bit register at offset 0, bit i for hart i.

Files:

- `machine_int.dfy` (module `MachineInt`): C's `uint32_t`, `uint64_t` and `int`, plus the wrapping `uint64_t` operators.
- `clint.dfy` (module `Clint`): the layout as functions of the hart index, the generated literal table, and the layout lemmas.
- `flash.dfy` (module `Flash`): the frequency and tick functions; `BootRun`, which gives the trace and exit of one run of `main`; the lemmas about them; and the class `Board`.

In `Board`, each foreign platform call is a method that only appends an event to `trace`. Its
result is a constant fixed when the board is built. The flasher routines are `Board` methods, and
each is proved to produce exactly the events and exit of the matching run function.

Where the source's comments differ from its code, the model follows the code:

- The NOR backend waits 350 us (flash.c:43), not the 300 us t_PU named in its comment. `NorWaitCoversPowerUp` proves that 350 us covers 300 us.
- The comments say the wait is rounded up by an extra tick. The code takes the truncated quotient plus one, not a ceiling plus one. At 32768 Hz the SD wait is 33 ticks, where a ceiling plus one would give 34. At 1 MHz the NOR wait is 351 ticks. See `SettleTicksFigures`.
- An unsupported mode does not reach any backend, but -1 does not identify it. An init routine that returns -1 makes `main` return -1 as well (`BootExit`).

## Model

| member | source | states |
|---|---|---|
| `Clint.GeneratedConstants` | sw/include/regs/clint.h:17-62 | The hart-indexed layout reproduces every generated literal: MSIP bits 0..3 at offset 0, mtimecmp low/high 0x4000..0x401c, mtime 0xbff8/0xbffc. There are exactly NUM_CORES entries of each kind, and the register width is 4 bytes. |
| `Clint.MsipBitsFit` | sw/include/regs/clint.h:17-32 | NUM_CORES <= FIELDS_PER_REG * MULTIREG_COUNT. Hart i's pending bit is bit i of MSIP register 0, at offset 0. Distinct harts have distinct bits. |
| `Clint.HalfOffset` | sw/include/regs/clint.h:35-62 | The high half of a 64-bit timer register sits one word after the low half, inside the register's 8 bytes; only the low half is at distance 0. |
| `Clint.MsipRegIndex` | sw/include/regs/clint.h:23-28 | Every hart's pending bit lies in one of the MULTIREG_COUNT MSIP registers. |
| `Clint.MsipOffset` | sw/include/regs/clint.h:24-28 | Every hart's pending bit is in the register at MSIP_REG_OFFSET. |
| `Clint.MsipBit` | sw/include/regs/clint.h:23-32 | A hart's field of width MSIP_P_FIELD_WIDTH lies inside the 32-bit register. |
| `Clint.MtimecmpOffset` | sw/include/regs/clint.h:35-56 | Each hart's mtimecmp halves are word-aligned and lie inside the block [0x4000, 0x4000 + 8 * NUM_CORES). |
| `Clint.MtimeOffset` | sw/include/regs/clint.h:59-62 | The mtime halves are word-aligned and lie above the whole mtimecmp block. |
| `Clint.Offset` | sw/include/regs/clint.h:28-62 | Every register offset is a multiple of REG_WIDTH / 8 = 4. |
| `Clint.MtimecmpRegs` | sw/include/regs/clint.h:35-56 | The mtimecmp registers of harts `from` and up number 2 * (NUM_CORES - from). `MtimecmpRegsShape` states their order: one (low, high) pair per hart, by hart. |
| `Clint.RegisterMap` | sw/include/regs/clint.h:28-62 | The map has 1 + 2 * NUM_CORES + 2 entries: MSIP register 0 first, mtime low and high last. `RegisterMapOrdered`, `RegisterMapComplete` and `OffsetInjective` state its order, completeness and freedom from overlap. |
| `Clint.HighWordFollowsLow` | sw/include/regs/clint.h:35-62 | The high word of every mtimecmp register, and of mtime, is at its low offset + 4. |
| `Clint.MtimecmpRegsShape` | sw/include/regs/clint.h:35-56 | The mtimecmp part of the map is one (low, high) pair per hart, in hart order. |
| `Clint.RegisterMapOrdered` | sw/include/regs/clint.h:28-62 | The map lists 1 + 2 * NUM_CORES + 2 valid registers at strictly increasing offsets. So offsets are pairwise distinct, and MSIP lies below the mtimecmp block, which lies below mtime. |
| `Clint.RegisterMapComplete` | sw/include/regs/clint.h:28-62 | A register is valid exactly when the map lists it. |
| `Clint.OffsetInjective` | sw/include/regs/clint.h:28-62 | Two valid registers have the same offset exactly when they are the same register, so no two overlap. |
| `MachineInt.MulU64` | sw/boot/flash.c:32 | `uint64_t` multiplication is the product reduced modulo 2^64: the result differs from the true product by a multiple of 2^64, and equals it whenever the product is below 2^64. |
| `MachineInt.AddU64` | sw/boot/flash.c:32 | `uint64_t` addition is the true sum below 2^64, and the sum minus 2^64 above. |
| `MachineInt.DivU64` | sw/boot/flash.c:39 | Unsigned division truncates: q * b <= a < (q + 1) * b. |
| `Flash.Min` | sw/boot/flash.c:39 | The `MIN` of the NOR frequency is at most both arguments and equals one of them. |
| `Flash.SdcardHandle` | sw/boot/flash.c:25-29 | The SD handle runs at exactly 24 MHz, below the 25 MHz ceiling, on chip select 0. Its dummy select is the last physical one (numCs - 1), and it differs from csid 0 exactly when there are at least two chip selects. |
| `Flash.NorSpiFreq` | sw/boot/flash.c:39 | The NOR frequency is at most 40 MHz and at most a quarter of the core clock, and it equals one of the two: it is `min(40_000_000, core_freq / 4)`. |
| `Flash.NorHandle` | sw/boot/flash.c:38-40 | The NOR handle uses chip select 1 and a frequency of exactly `min(40 MHz, core_freq / 4)`, so within both ceilings. |
| `Flash.NorSpiFreqMonotone` | sw/boot/flash.c:39 | A faster core clock never lowers the NOR frequency. |
| `Flash.SettleTicks` | sw/boot/flash.c:32 | The tick count is at least 1, and its duration at the reference frequency exceeds the requested delay (ticks * 10^6 > d * rtc). One tick fewer would not exceed the delay, so it is the least such count. |
| `Flash.SpinTarget` | sw/boot/flash.c:32-43 | The `uint64_t` evaluation of `(d * rtc) / (1000 * 1000) + 1` is never 0, since the guard tick cannot wrap. When `d * rtc` fits in 64 bits it equals `SettleTicks`. `SpinTargetExact` and `WideReferenceFrequencyWraps` state when that holds and when it fails. |
| `Flash.SettleTicksMonotone` | sw/boot/flash.c:31-43 | The tick count is non-decreasing in the delay and in the reference frequency. |
| `Flash.NorWaitCoversPowerUp` | sw/boot/flash.c:42-43 | The tick count passed for 350 us is at least the one for the 300 us t_PU, and its duration at the reference frequency exceeds 300 us. |
| `Flash.SpinTargetExact` | sw/boot/flash.c:54-65 | The reference frequency comes from a 32-bit register, so the `uint64_t` products 1000 * rtc and 350 * rtc cannot wrap, and the spin argument equals the exact tick count. |
| `Flash.WideReferenceFrequencyWraps` | sw/boot/flash.c:23 | For a reference frequency wider than 32 bits, the 64-bit product can wrap: the SD wait would shrink to 1 tick in place of 18446744073710. |
| `Flash.SettleTicksFigures` | sw/boot/flash.c:31-43 | Worked figures: 1000 us at 32768 Hz is 33 ticks; 350 us at 1 MHz is 351 ticks; 300 us at 1 MHz is 301 ticks. |
| `Flash.SettleDelayUs` | sw/boot/flash.c:31-52 | Exactly the SD card and the NOR flash have a settle delay; the EEPROM has none. Its values are stated by `SettleTicksFigures` and used by `BootSpinFollowsInit`. |
| `Flash.InitThenSpin` | sw/boot/flash.c:30-44 | An SPI backend's run starts with its init. The run returns the init status exactly when that status is nonzero (`CHECK_CALL`), and it contains the spin exactly when the status is 0. |
| `Flash.SpiSdcardRun` | sw/boot/flash.c:23-34 | `flash_spi_sdcard` returns exactly when init fails. Its handle and spin are stated by `BootRunShape` and `BootSpins` for mode 1. |
| `Flash.SpiS25fs512sRun` | sw/boot/flash.c:36-45 | `flash_spi_s25fs512s` returns exactly when init fails. Its handle and spin are stated by `BootRunShape` and `BootSpins` for mode 2. |
| `Flash.I2c24fc1025Run` | sw/boot/flash.c:47-52 | `flash_i2c_24fc1025` does one init with the core frequency and nothing else, and returns exactly when that init fails. |
| `Flash.ModeDevice` | sw/boot/flash.c:61-70 | Exactly modes 1, 2 and 3 select a backend. `BootSelectsOneBackend` states which one each selects. |
| `Flash.BootRun` | sw/boot/flash.c:54-72 | Every run has at least two events, and the first is the core-frequency query with (rtc, 2500). `BootRunShape`, `BootExit`, `BootSpins` and `BootSpinFollowsInit` state the rest. |
| `Flash.BootRunShape` | sw/boot/flash.c:54-71 | Every run first queries the core frequency with (rtc, 2500). Then it either prints the diagnostic and stops, or initialises the selected device with the measured core frequency and its handle: 24 MHz on chip select 0 with dummy select numCs - 1 for mode 1, `min(40 MHz, core_freq / 4)` on chip select 1 for mode 2, the empty I2C handle for mode 3. That init is followed by one spin of the device's settle ticks exactly when the device has a settle delay and its init returned 0. |
| `Flash.BootSelectsOneBackend` | sw/boot/flash.c:61-71 | Modes 1, 2 and 3 initialise exactly one backend each: SD, NOR and I2C respectively. Any other mode initialises none. |
| `Flash.BootExit` | sw/boot/flash.c:30-71 | A nonzero init status is returned unchanged, and a zero status leaves the return value undefined. An unsupported mode returns -1. The diagnostic is printed exactly when the mode is unsupported. |
| `Flash.BootSpins` | sw/boot/flash.c:30-43 | The run spins exactly once when mode 1 or 2 has a successful init: for SettleTicks(1000, rtc) or SettleTicks(350, rtc). Otherwise it never spins. |
| `Flash.BootSpinFollowsInit` | sw/boot/flash.c:30-43 | Every spin comes right after the init of a backend that returned 0 and has a settle delay, and its argument is a tick count whose duration at the reference frequency exceeds that delay. |
| `Flash.BootI2cPath` | sw/boot/flash.c:47-51 | Mode 3 queries the core frequency, then initialises the EEPROM with the core frequency alone: no reference frequency, no spin. |
| `Flash.Board.ClintGetCoreFreq` | sw/boot/flash.c:57 | The measurement returns the board's core frequency and records the query. |
| `Flash.Board.SpiSdcardInit` | sw/boot/flash.c:30 | The SD init records the handle and core frequency it was given, and returns the board's status. |
| `Flash.Board.SpiS25fs512sInit` | sw/boot/flash.c:41 | The NOR init records the handle and core frequency it was given, and returns the board's status. |
| `Flash.Board.I2c24fc1025Init` | sw/boot/flash.c:50 | The EEPROM init records the core frequency it was given, and returns the board's status. |
| `Flash.Board.ClintSpinUntil` | sw/boot/flash.c:32 | The spin records the value passed and nothing else. |
| `Flash.Board.ReportUnsupportedMode` | sw/boot/flash.c:69 | The diagnostic print records one diagnostic event. |
| `Flash.Board.FlashSpiSdcard` | sw/boot/flash.c:23-34 | `flash_spi_sdcard` appends exactly `SpiSdcardRun`'s events and returns its exit: init, then a spin of the 1000 us ticks if init returned 0. |
| `Flash.Board.FlashSpiS25fs512s` | sw/boot/flash.c:36-45 | `flash_spi_s25fs512s` appends exactly `SpiS25fs512sRun`'s events and returns its exit: init at `min(40 MHz, core/4)`, then a spin of the 350 us ticks if init returned 0. |
| `Flash.Board.FlashI2c24fc1025` | sw/boot/flash.c:47-52 | `flash_i2c_24fc1025` appends exactly one init event and returns its exit. |
| `Flash.Board.FlashMain` | sw/boot/flash.c:54-72 | `main` appends exactly `BootRun(tgtmode, Environment())`'s events and returns its exit, so every `BootRun` lemma holds of the real trace. |

## Left out

- The sector read/write loop, GPT lookup, retries and verification: the source has only placeholder comments for them (flash.c:33, 44, 51).
- `len`, `offs` and `img_base`: they are uninitialised in `main` and never used by the backends, so they are not parameters of the model.
- `tgtmode` is not declared in the file, so it is taken as a plain parameter of `FlashMain`.
- The value a backend returns when init succeeds: the C functions fall off their end, so it is undefined. The model records it as `Undefined` and states nothing more about it.
- The bodies of `spi_sdcard_init`, `spi_s25fs512s_init`, `i2c_24fc1025_init`, `clint_get_core_freq` and `clint_spin_until` are not shown.
  - Each is a `Board` method that records its arguments. Its result is a constant fixed when the board is built.
- The handle contents an init routine may write back are not modelled, because nothing reads the handle afterwards.
- The model does not decide whether `clint_spin_until` takes an absolute deadline or a duration; only the value passed is recorded.
- BootSpinFollowsInit, NorWaitCoversPowerUp, SettleTicks: what they prove is about the tick count passed to `clint_spin_until`, not about how long the wait really lasts, which depends on that routine's body and on `mtime`.
- `CHECK_CALL` and `MIN` come from `util.h`, which is not part of this model.
  - `CHECK_CALL` is modelled as "return the call's status if it is nonzero".
  - `MIN(a, b)` is modelled as the smaller of `a` and `b`.
- `SPI_HOST_PARAM_NUM_C_S` comes from a header that is not part of this model. It is a board constant of type `CsCount` (at least 1, because the SD card uses chip select 0).
- The register read `*reg32(...)` is the board constant `rtcFreqReg` of type `u32`.
- The text of the unsupported-mode `printf`: its format has a `%d` with no argument, and only the fact that a diagnostic is printed is recorded.
- `sw/tests/mbox_test.c` is not part of this model: it is raw PLIC and mailbox register traffic, inline CSR writes and an interrupt wait loop.
