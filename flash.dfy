/** The boot-disk flasher: `main` maps the boot-target mode to one of three
    storage backends (SD card over SPI, S25FS512S NOR flash over SPI,
    24FC1025 EEPROM over I2C); each backend builds its device handle, calls
    the device's init routine, and the SPI backends then spin on the CLINT
    timer for the device's settle delay.

    The bus frequencies and the settle tick counts are pure functions. The
    platform calls whose code is not part of this model (the device init
    routines, the core-frequency measurement, the timer spin and the
    diagnostic print) are methods of `Board` that append an `Event` to a
    trace; what they return is fixed when the board is built. Each flasher
    routine is a `Board` method whose effect on the trace and whose return
    value are tied to a function (`BootRun` and the per-backend runs), and
    the dispatch, ordering and timing properties are lemmas about those
    functions. */
module Flash {
  import opened MachineInt

  datatype Option<T> = None | Some(value: T)

  // Constants of the flasher.
  const MICROS_PER_SECOND: nat := 1000 * 1000
  const SD_SPI_FREQ: nat := 24 * 1000 * 1000
  /** The SD card's SPI clock ceiling, as stated beside the handle. */
  const SD_SPI_FREQ_MAX: nat := 25 * 1000 * 1000
  const SD_CSID: nat := 0
  const NOR_SPI_FREQ_CAP: nat := 40 * 1000 * 1000
  const NOR_CORE_FREQ_DIVISOR: nat := 4
  const NOR_CSID: nat := 1
  /** Settle delays actually waited, in microseconds. */
  const SD_SETTLE_US: nat := 1000
  const NOR_SETTLE_US: nat := 350
  /** The S25FS512S power-up time t_PU named beside the NOR wait. */
  const NOR_T_PU_US: nat := 300
  /** Second argument of the core-frequency measurement. */
  const CORE_FREQ_MEASURE_CYCLES: nat := 2500
  /** Exit status of `main` for an unsupported mode. */
  const UNSUPPORTED_MODE_EXIT: int := -1

  /** Number of SPI host chip selects; at least one, since the SD card is on CS 0. */
  type CsCount = n: nat | n >= 1 witness 1

  datatype Device = SpiSdcard | SpiS25fs512s | I2c24fc1025

  /** The handle each backend passes to its init routine. The I2C handle is
      an uninitialised local, so it carries nothing. */
  datatype Handle =
    | SpiSdcardHandle(spiFreq: nat, csid: nat, csidDummy: nat)
    | SpiS25fs512sHandle(spiFreq: nat, csid: nat)
    | I2cHandle

  /** What the platform observes, in order. */
  datatype Event =
    | CoreFreqQuery(rtcFreq: nat, cycles: nat)
    | Init(dev: Device, handle: Handle, coreFreq: nat)
    | Spin(target: nat)
    | Diagnostic

  /** How a routine returns: with a status, or by falling off the end of an
      `int` function, which leaves the value undefined. */
  datatype Exit = Returned(code: int) | Undefined

  datatype Run = Run(events: seq<Event>, exit: Exit)

  /** Everything the foreign code decides: the RTC-frequency register, the
      measured core frequency, the SPI host's chip-select count and the
      status each init routine returns. */
  datatype Env = Env(rtcFreq: u32, coreFreq: u64, numCs: CsCount,
                     sdStatus: i32, norStatus: i32, i2cStatus: i32)

  function InitStatus(env: Env, dev: Device): int {
    match dev
    case SpiSdcard => env.sdStatus
    case SpiS25fs512s => env.norStatus
    case I2c24fc1025 => env.i2cStatus
  }

  /** The smaller of two values, as the `MIN` macro of the flasher selects it. */
  function Min(a: nat, b: nat): (m: nat)
    ensures m <= a && m <= b
    ensures m == a || m == b
  {
    if a < b then a else b
  }

  // ---------------------------------------------------------------- handles

  /** The SD card handle: a fixed 24 MHz clock, below the card's 25 MHz
      ceiling, on chip select 0, with the last physical chip select as the
      dummy select. */
  function SdcardHandle(numCs: CsCount): (h: Handle)
    ensures h.SpiSdcardHandle?
    ensures h.spiFreq == SD_SPI_FREQ && h.spiFreq < SD_SPI_FREQ_MAX && h.csid == SD_CSID
    ensures h.csidDummy < numCs && h.csidDummy + 1 == numCs
    ensures h.csidDummy != h.csid <==> numCs > 1
  {
    SpiSdcardHandle(SD_SPI_FREQ, SD_CSID, numCs - 1)
  }

  /** The NOR bus frequency: the smaller of 40 MHz and a quarter of the core
      clock. */
  function NorSpiFreq(coreFreq: u64): (f: nat)
    ensures f <= NOR_SPI_FREQ_CAP && f * NOR_CORE_FREQ_DIVISOR <= coreFreq
    ensures f == NOR_SPI_FREQ_CAP || f == coreFreq / NOR_CORE_FREQ_DIVISOR
  {
    Min(NOR_SPI_FREQ_CAP, DivU64(coreFreq, NOR_CORE_FREQ_DIVISOR))
  }

  function NorHandle(coreFreq: u64): (h: Handle)
    ensures h.SpiS25fs512sHandle? && h.csid == NOR_CSID
    ensures h.spiFreq == Min(NOR_SPI_FREQ_CAP, coreFreq / NOR_CORE_FREQ_DIVISOR)
    ensures h.spiFreq <= NOR_SPI_FREQ_CAP && h.spiFreq * NOR_CORE_FREQ_DIVISOR <= coreFreq
  {
    SpiS25fs512sHandle(NorSpiFreq(coreFreq), NOR_CSID)
  }

  /** A faster core never lowers the NOR bus frequency. */
  lemma NorSpiFreqMonotone(c1: u64, c2: u64)
    requires c1 <= c2
    ensures NorSpiFreq(c1) <= NorSpiFreq(c2)
  {
    assert DivU64(c1, 4) <= DivU64(c2, 4);
  }

  // ------------------------------------------------------------ settle ticks

  /** Reference-clock ticks waited for a settle delay of `delayUs`
      microseconds: the truncated tick count plus one guard tick. It is the
      least tick count whose duration strictly exceeds the delay. */
  function SettleTicks(delayUs: nat, rtcFreq: nat): (ticks: nat)
    ensures ticks >= 1
    ensures ticks * MICROS_PER_SECOND > delayUs * rtcFreq
    ensures (ticks - 1) * MICROS_PER_SECOND <= delayUs * rtcFreq
  {
    delayUs * rtcFreq / MICROS_PER_SECOND + 1
  }

  /** The same expression as the flasher evaluates it, in `uint64_t`. The
      quotient is far below 2^64 - 1, so the guard tick never wraps and the
      result is at least 1; when the product fits it is `SettleTicks`. */
  function SpinTarget(delayUs: u64, rtcFreq: u64): (t: u64)
    ensures t >= 1
    ensures delayUs * rtcFreq < U64_LIMIT ==> t == SettleTicks(delayUs, rtcFreq)
  {
    AddU64(DivU64(MulU64(delayUs, rtcFreq), 1000 * 1000), 1)
  }

  /** The tick count grows with the delay and with the reference frequency. */
  lemma SettleTicksMonotone(d1: nat, d2: nat, r1: nat, r2: nat)
    requires d1 <= d2 && r1 <= r2
    ensures SettleTicks(d1, r1) <= SettleTicks(d2, r2)
  {
    MulLe(d1, d2, r1);
    assert r1 * d2 <= r2 * d2 by { MulLe(r1, r2, d2); }
    assert d1 * r1 <= d2 * r2;
  }

  /** Waiting 350 us covers the 300 us power-up time of the NOR flash: the
      tick count passed for 350 us is at least the one for t_PU, and its
      duration at the reference frequency exceeds t_PU. */
  lemma NorWaitCoversPowerUp(rtcFreq: nat)
    ensures SettleTicks(NOR_SETTLE_US, rtcFreq) >= SettleTicks(NOR_T_PU_US, rtcFreq)
    ensures SettleTicks(NOR_SETTLE_US, rtcFreq) * MICROS_PER_SECOND > NOR_T_PU_US * rtcFreq
  {
    SettleTicksMonotone(NOR_T_PU_US, NOR_SETTLE_US, rtcFreq, rtcFreq);
    MulLe(NOR_T_PU_US, NOR_SETTLE_US, rtcFreq);
  }

  /** With a 32-bit delay and a 32-bit reference frequency the 64-bit
      evaluation neither wraps in the product nor in the guard tick, so it
      is exactly `SettleTicks`. */
  lemma SpinTargetExact(delayUs: u64, rtcFreq: u64)
    requires delayUs < U32_LIMIT && rtcFreq < U32_LIMIT
    ensures MulU64(delayUs, rtcFreq) == delayUs * rtcFreq
    ensures SpinTarget(delayUs, rtcFreq) == SettleTicks(delayUs, rtcFreq)
  {
    MulBelow(delayUs, rtcFreq, U32_LIMIT);
    assert U32_LIMIT * U32_LIMIT == U64_LIMIT;
  }

  /** A reference frequency wider than 32 bits could make the 64-bit product
      wrap: `1000 * rtc` reduced modulo 2^64 is 384, so one tick is waited
      instead of 18446744073710. */
  lemma WideReferenceFrequencyWraps()
    ensures SpinTarget(1000, 18446744073709552) == 1
    ensures SettleTicks(1000, 18446744073709552) == 18446744073710
  {
    assert MulU64(1000, 18446744073709552) == 384;
  }

  // ---------------------------------------------------------------- runs

  /** The settle delay a backend waits after a successful init, if any. */
  function SettleDelayUs(dev: Device): (d: Option<nat>)
    ensures d.Some? <==> dev != I2c24fc1025
  {
    match dev
    case SpiSdcard => Some(SD_SETTLE_US)
    case SpiS25fs512s => Some(NOR_SETTLE_US)
    case I2c24fc1025 => None
  }

  /** Init, then (only if init returned 0) spin for `target` ticks. A nonzero
      status is returned at once; otherwise the routine falls off its end. */
  function InitThenSpin(dev: Device, h: Handle, coreFreq: u64, status: i32, target: u64): (r: Run)
    ensures 1 <= |r.events| && r.events[0] == Init(dev, h, coreFreq)
    ensures r.exit.Returned? <==> status != 0
    ensures r.exit.Returned? ==> r.exit.code == status
    ensures status == 0 <==> exists i :: 0 <= i < |r.events| && r.events[i] == Spin(target)
  {
    if status != 0 then Run([Init(dev, h, coreFreq)], Returned(status))
    else
      var r := Run([Init(dev, h, coreFreq), Spin(target)], Undefined);
      assert r.events[1] == Spin(target);
      r
  }

  function SpiSdcardRun(coreFreq: u64, rtcFreq: u64, numCs: CsCount, status: i32): (r: Run)
    ensures r.exit.Returned? <==> status != 0
  {
    InitThenSpin(SpiSdcard, SdcardHandle(numCs), coreFreq, status, SpinTarget(1000, rtcFreq))
  }

  function SpiS25fs512sRun(coreFreq: u64, rtcFreq: u64, status: i32): (r: Run)
    ensures r.exit.Returned? <==> status != 0
  {
    InitThenSpin(SpiS25fs512s, NorHandle(coreFreq), coreFreq, status, SpinTarget(350, rtcFreq))
  }

  /** The I2C backend gets no reference frequency and does not spin. */
  function I2c24fc1025Run(coreFreq: u64, status: i32): (r: Run)
    ensures r.events == [Init(I2c24fc1025, I2cHandle, coreFreq)]
    ensures r.exit.Returned? <==> status != 0
  {
    Run([Init(I2c24fc1025, I2cHandle, coreFreq)], if status != 0 then Returned(status) else Undefined)
  }

  /** The backend a boot-target mode selects. */
  function ModeDevice(mode: int): (d: Option<Device>)
    ensures d.Some? <==> 1 <= mode <= 3
  {
    if mode == 1 then Some(SpiSdcard)
    else if mode == 2 then Some(SpiS25fs512s)
    else if mode == 3 then Some(I2c24fc1025)
    else None
  }

  /** One run of `main`: query the core frequency, then run the selected
      backend, or print a diagnostic and return -1. */
  function BootRun(mode: int, env: Env): (r: Run)
    ensures |r.events| >= 2 && r.events[0] == CoreFreqQuery(env.rtcFreq, CORE_FREQ_MEASURE_CYCLES)
  {
    var query := [CoreFreqQuery(env.rtcFreq, CORE_FREQ_MEASURE_CYCLES)];
    var run :=
      if mode == 1 then SpiSdcardRun(env.coreFreq, env.rtcFreq, env.numCs, env.sdStatus)
      else if mode == 2 then SpiS25fs512sRun(env.coreFreq, env.rtcFreq, env.norStatus)
      else if mode == 3 then I2c24fc1025Run(env.coreFreq, env.i2cStatus)
      else Run([Diagnostic], Returned(UNSUPPORTED_MODE_EXIT));
    Run(query + run.events, run.exit)
  }

  /** The devices initialised in a trace, in order. */
  function Inits(t: seq<Event>): seq<Device>
  {
    if t == [] then []
    else (if t[0].Init? then [t[0].dev] else []) + Inits(t[1..])
  }

  /** The spin targets of a trace, in order. */
  function Spins(t: seq<Event>): seq<nat>
  {
    if t == [] then []
    else (if t[0].Spin? then [t[0].target] else []) + Spins(t[1..])
  }

  /** The shape of every run `main` can make. */
  lemma BootRunShape(mode: int, env: Env)
    ensures var t := BootRun(mode, env).events;
      && |t| >= 2 && t[0] == CoreFreqQuery(env.rtcFreq, CORE_FREQ_MEASURE_CYCLES)
      && (ModeDevice(mode).None? ==> t == [t[0], Diagnostic])
      && (ModeDevice(mode).Some? ==> t[1].Init? && t[1].dev == ModeDevice(mode).value && t[1].coreFreq == env.coreFreq)
      && (mode == 1 ==> t[1].handle == SpiSdcardHandle(SD_SPI_FREQ, SD_CSID, env.numCs - 1))
      && (mode == 2 ==> t[1].handle == SpiS25fs512sHandle(Min(NOR_SPI_FREQ_CAP, env.coreFreq / NOR_CORE_FREQ_DIVISOR), NOR_CSID))
      && (mode == 3 ==> t[1].handle == I2cHandle)
      && (ModeDevice(mode).Some? && SettleDelayUs(ModeDevice(mode).value).Some? && InitStatus(env, ModeDevice(mode).value) == 0 ==>
            |t| == 3 && t[2] == Spin(SettleTicks(SettleDelayUs(ModeDevice(mode).value).value, env.rtcFreq)))
      && (ModeDevice(mode).Some? && (SettleDelayUs(ModeDevice(mode).value).None? || InitStatus(env, ModeDevice(mode).value) != 0) ==> |t| == 2)
  {
    SpinTargetExact(1000, env.rtcFreq);
    SpinTargetExact(350, env.rtcFreq);
  }

  /** Modes 1, 2 and 3 initialise exactly one backend, SD, NOR and I2C
      respectively; any other mode initialises none. */
  lemma BootSelectsOneBackend(mode: int, env: Env)
    ensures Inits(BootRun(mode, env).events) ==
      if mode == 1 then [SpiSdcard]
      else if mode == 2 then [SpiS25fs512s]
      else if mode == 3 then [I2c24fc1025]
      else []
  {
    var t := BootRun(mode, env).events;
    BootRunShape(mode, env);
    assert Inits(t) == Inits(t[1..]);
    if |t| == 3 {
      assert t[1..][1..] == [t[2]];
      assert Inits(t[1..][1..]) == [];
    } else {
      assert t[1..][1..] == [];
    }
  }

  /** A supported mode returns what its backend returns: the init status if
      it is nonzero, and otherwise an undefined value; any other mode prints
      a diagnostic and returns -1. The exit status alone does not tell an
      unsupported mode apart: an init routine may itself return -1. */
  lemma BootExit(mode: int, env: Env)
    ensures ModeDevice(mode).Some? && InitStatus(env, ModeDevice(mode).value) != 0 ==>
      BootRun(mode, env).exit == Returned(InitStatus(env, ModeDevice(mode).value))
    ensures ModeDevice(mode).Some? && InitStatus(env, ModeDevice(mode).value) == 0 ==>
      BootRun(mode, env).exit == Undefined
    ensures ModeDevice(mode).None? ==> BootRun(mode, env).exit == Returned(UNSUPPORTED_MODE_EXIT)
    ensures ModeDevice(mode).None? <==> Diagnostic in BootRun(mode, env).events
  {
    BootRunShape(mode, env);
  }

  /** The run spins exactly when an SPI backend's init returned 0, and then
      once, for the ticks of that backend's settle delay at the reference
      frequency the board reported. */
  lemma BootSpins(mode: int, env: Env)
    ensures Spins(BootRun(mode, env).events) ==
      if mode == 1 && env.sdStatus == 0 then [SettleTicks(SD_SETTLE_US, env.rtcFreq)]
      else if mode == 2 && env.norStatus == 0 then [SettleTicks(NOR_SETTLE_US, env.rtcFreq)]
      else []
  {
    var t := BootRun(mode, env).events;
    BootRunShape(mode, env);
    assert Spins(t) == Spins(t[1..]);
    if |t| == 3 {
      assert t[1..][1..] == [t[2]];
      assert Spins(t[1..][1..]) == [t[2].target];
    } else {
      assert t[1..][1..] == [];
    }
  }

  /** Every spin comes right after the init of an SPI backend that returned
      0, and its argument is a tick count whose duration at the reference
      frequency exceeds that backend's settle delay. */
  lemma BootSpinFollowsInit(mode: int, env: Env, i: nat)
    requires i < |BootRun(mode, env).events| && BootRun(mode, env).events[i].Spin?
    ensures var t := BootRun(mode, env).events;
      && i >= 1 && t[i - 1].Init?
      && InitStatus(env, t[i - 1].dev) == 0
      && SettleDelayUs(t[i - 1].dev).Some?
      && t[i].target * MICROS_PER_SECOND > SettleDelayUs(t[i - 1].dev).value * env.rtcFreq
  {
    BootRunShape(mode, env);
  }

  /** Mode 3 initialises the EEPROM with the core frequency alone and never
      spins. */
  lemma BootI2cPath(env: Env)
    ensures BootRun(3, env).events ==
      [CoreFreqQuery(env.rtcFreq, CORE_FREQ_MEASURE_CYCLES), Init(I2c24fc1025, I2cHandle, env.coreFreq)]
  {
  }

  /** The worked figures of the tick formula (floor, then one guard tick). */
  lemma SettleTicksFigures()
    ensures SettleTicks(SD_SETTLE_US, 32768) == 33
    ensures SettleTicks(NOR_SETTLE_US, 1_000_000) == 351
    ensures SettleTicks(NOR_T_PU_US, 1_000_000) == 301
  {
  }

  // ---------------------------------------------------------------- board

  /** The platform the flasher runs on. Its constants are what the foreign
      code returns; `trace` records each call made into it. */
  class Board {
    const rtcFreqReg: u32
    const measuredCoreFreq: u64
    const numCs: CsCount
    const sdInitStatus: i32
    const norInitStatus: i32
    const i2cInitStatus: i32
    var trace: seq<Event>

    function Environment(): Env {
      Env(rtcFreqReg, measuredCoreFreq, numCs, sdInitStatus, norInitStatus, i2cInitStatus)
    }

    constructor (rtcFreq: u32, coreFreq: u64, numCs: CsCount, sdStatus: i32, norStatus: i32, i2cStatus: i32)
      ensures Environment() == Env(rtcFreq, coreFreq, numCs, sdStatus, norStatus, i2cStatus)
      ensures trace == []
    {
      rtcFreqReg := rtcFreq;
      measuredCoreFreq := coreFreq;
      this.numCs := numCs;
      sdInitStatus := sdStatus;
      norInitStatus := norStatus;
      i2cInitStatus := i2cStatus;
      trace := [];
    }

    /** The CLINT core-frequency measurement. */
    method ClintGetCoreFreq(rtcFreq: u32, cycles: nat) returns (coreFreq: u64)
      modifies this`trace
      ensures coreFreq == measuredCoreFreq
      ensures trace == old(trace) + [CoreFreqQuery(rtcFreq, cycles)]
    {
      coreFreq := measuredCoreFreq;
      trace := trace + [CoreFreqQuery(rtcFreq, cycles)];
    }

    method SpiSdcardInit(device: Handle, coreFreq: u64) returns (status: i32)
      modifies this`trace
      ensures status == sdInitStatus
      ensures trace == old(trace) + [Init(SpiSdcard, device, coreFreq)]
    {
      status := sdInitStatus;
      trace := trace + [Init(SpiSdcard, device, coreFreq)];
    }

    method SpiS25fs512sInit(device: Handle, coreFreq: u64) returns (status: i32)
      modifies this`trace
      ensures status == norInitStatus
      ensures trace == old(trace) + [Init(SpiS25fs512s, device, coreFreq)]
    {
      status := norInitStatus;
      trace := trace + [Init(SpiS25fs512s, device, coreFreq)];
    }

    method I2c24fc1025Init(coreFreq: u64) returns (status: i32)
      modifies this`trace
      ensures status == i2cInitStatus
      ensures trace == old(trace) + [Init(I2c24fc1025, I2cHandle, coreFreq)]
    {
      status := i2cInitStatus;
      trace := trace + [Init(I2c24fc1025, I2cHandle, coreFreq)];
    }

    /** The CLINT spin; only the value passed is recorded. */
    method ClintSpinUntil(target: u64)
      modifies this`trace
      ensures trace == old(trace) + [Spin(target)]
    {
      trace := trace + [Spin(target)];
    }

    /** The unsupported-mode message of `main`. */
    method ReportUnsupportedMode()
      modifies this`trace
      ensures trace == old(trace) + [Diagnostic]
    {
      trace := trace + [Diagnostic];
    }

    method FlashSpiSdcard(coreFreq: u64, rtcFreq: u64) returns (r: Exit)
      modifies this`trace
      ensures trace == old(trace) + SpiSdcardRun(coreFreq, rtcFreq, numCs, sdInitStatus).events
      ensures r == SpiSdcardRun(coreFreq, rtcFreq, numCs, sdInitStatus).exit
    {
      var device := SpiSdcardHandle(SD_SPI_FREQ, SD_CSID, numCs - 1);
      var status := SpiSdcardInit(device, coreFreq);
      if status != 0 {
        return Returned(status);
      }
      ClintSpinUntil(AddU64(DivU64(MulU64(1000, rtcFreq), 1000 * 1000), 1));
      r := Undefined;
    }

    method FlashSpiS25fs512s(coreFreq: u64, rtcFreq: u64) returns (r: Exit)
      modifies this`trace
      ensures trace == old(trace) + SpiS25fs512sRun(coreFreq, rtcFreq, norInitStatus).events
      ensures r == SpiS25fs512sRun(coreFreq, rtcFreq, norInitStatus).exit
    {
      var device := SpiS25fs512sHandle(Min(NOR_SPI_FREQ_CAP, DivU64(coreFreq, NOR_CORE_FREQ_DIVISOR)), NOR_CSID);
      var status := SpiS25fs512sInit(device, coreFreq);
      if status != 0 {
        return Returned(status);
      }
      ClintSpinUntil(AddU64(DivU64(MulU64(350, rtcFreq), 1000 * 1000), 1));
      r := Undefined;
    }

    method FlashI2c24fc1025(coreFreq: u64) returns (r: Exit)
      modifies this`trace
      ensures trace == old(trace) + I2c24fc1025Run(coreFreq, i2cInitStatus).events
      ensures r == I2c24fc1025Run(coreFreq, i2cInitStatus).exit
    {
      var status := I2c24fc1025Init(coreFreq);
      if status != 0 {
        return Returned(status);
      }
      r := Undefined;
    }

    /** `main`: read the reference frequency, measure the core clock and
        dispatch on the boot-target mode. */
    method FlashMain(tgtmode: int) returns (r: Exit)
      modifies this`trace
      ensures trace == old(trace) + BootRun(tgtmode, Environment()).events
      ensures r == BootRun(tgtmode, Environment()).exit
    {
      var rtcFreq: u32 := rtcFreqReg;
      var coreFreq := ClintGetCoreFreq(rtcFreq, 2500);
      if tgtmode == 1 {
        r := FlashSpiSdcard(coreFreq, rtcFreq);
      } else if tgtmode == 2 {
        r := FlashSpiS25fs512s(coreFreq, rtcFreq);
      } else if tgtmode == 3 {
        r := FlashI2c24fc1025(coreFreq);
      } else {
        ReportUnsupportedMode();
        r := Returned(-1);
      }
    }
  }
}
