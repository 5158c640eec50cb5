# rpi-toolkit core in Dafny

This project models the four pieces of sequential logic in the header-only
Raspberry Pi toolkit. The hardware and the operating system are abstracted
away.

- **simple_timer.h**: a drift-free periodic timer (`simple_timer_t` with
  `next_expiry` and `interval`). It has `timer_set`, `timer_expired` and
  `timer_tick`, plus the `millis()` and `micros()` conversions of a
  `(tv_sec, tv_nsec)` clock reading. The current time is a parameter `now`
  in milliseconds. `SimpleTimer.Timer` is a class with the two fields.
  `Tick`'s catch-up loop is proved equal to the closed form `CatchUp`: the
  least deadline on the original phase grid that lies after `now`.
- **rpi_gpio.h** (Raspberry Pi branch): `pin_mode`, `gpio_set_function`,
  `digital_write` and `digital_read`.
  - The mapped GPIO block is an `array<bv32>` of 1024 words, plus a
    `mapped` flag that stands for a non-NULL `gpio_map`.
  - Each operation is a function on `seq<bv32>` (`PinModeRegs`,
    `SetFunctionRegs`, `WriteRegs`, `ReadLevel`).
  - The methods of `RpiGpio.GpioMap` do the source's read-modify-write
    steps and are proved to agree with those functions.
  - Register offsets follow the GPIO chapter of the BCM2711 ARM
    Peripherals datasheet: GPFSELn, GPSETn, GPCLRn and GPLEVn.
- **rpi_pwm.h** (Raspberry Pi branch): the eight-slot software-PWM pool.
  - `pwm_init`, `pwm_write` and `pwm_stop` are functions on `seq<Slot>`
    (`InitPool`, `WritePool`, `StopPool`); the class `RpiPwm.SoftPwm` runs
    the source's scanning loops over an `array<Slot>`.
  - `SoftPwm` keeps the invariant that no two active slots share a pin.
  - Thread creation is a success flag passed to `Init`; joining a worker
    completes at once.
  - One turn of the worker loop is the pure timing function `WorkerCycle`.
- **rpi_hw_pwm.h** (Raspberry Pi branch): `hpwm_set` does the following:
  - clamps the duty;
  - picks the channel;
  - computes `range` and `data`;
  - updates the PWM control word bit by bit;
  - writes the RNG/DAT words.

  `hpwm_stop` clears the control word. `hpwm_init` writes the
  clock-manager words and keeps track of the map pointers. The PWM and
  clock blocks are `array<bv32>` fields of `RpiHwPwm.HwPwm`.

Modules: `SimpleTimer` (simple_timer.dfy), `RpiGpio` (rpi_gpio.dfy),
`RpiPwm` (rpi_pwm.dfy, imports `RpiGpio`) and `RpiHwPwm` (rpi_hw_pwm.dfy,
imports `RpiGpio`).

## Model

| member | source | states |
|---|---|---|
| SimpleTimer.Millis | simple_timer.h:52-56 | `millis()` is the whole number of milliseconds in the reading: `m * 10^6 <= sec * 10^9 + nsec < (m + 1) * 10^6`. |
| SimpleTimer.Micros | simple_timer.h:58-62 | `micros()` is the whole number of microseconds in the reading: `u * 1000 <= sec * 10^9 + nsec < (u + 1) * 1000`. |
| SimpleTimer.MicrosMillisAgree | simple_timer.h:52-62 | For `0 <= nsec < 10^9`: `Micros(sec, nsec) / 1000 == Millis(sec, nsec)` and `Millis * 1000 <= Micros < Millis * 1000 + 1000`. |
| SimpleTimer.CatchUp | simple_timer.h:97-99 | The deadline that the loop reaches from an expired deadline lies after `now`, at most one interval after `now`, at least one interval after the old deadline, and one interval back is not after `now`. |
| SimpleTimer.CatchUpIsLoopExit | simple_timer.h:97-99 | `CatchUp` is the deadline after some k >= 1 passes of `next_expiry += interval`, at the point where the deadline before the last pass was not yet after `now`. |
| SimpleTimer.CatchUpLeast | simple_timer.h:97-99 | `CatchUp` is at or below every grid point `next + k*interval` (k >= 1) that lies after `now`. The phase is kept and the deadline is not reset from `now`. |
| SimpleTimer.CatchUpUnique | simple_timer.h:97-99 | The grid point after `now` whose predecessor is not after `now` equals `CatchUp`. |
| SimpleTimer.AfterPasses | simple_timer.h:97-99 | The deadline after k passes of `next_expiry += interval`. AfterPassesGrid gives its closed form and ZeroIntervalLoopNeverExits its value at interval 0. |
| SimpleTimer.AfterPassesGrid | simple_timer.h:97-99 | k passes of the loop body give `next + k*interval`. |
| SimpleTimer.MissedIntervalsCollapse | simple_timer.h:97-99 | With a 10 ms interval set at t, a tick at t+55 moves the deadline from t+10 to t+60, the next grid point. |
| SimpleTimer.MissedIntervalsScenario | simple_timer.h:78-103 | Through the `Timer` class: after `timer_set(10)` at t, the first tick at t+55 fires and leaves the deadline at t+60, and a second tick at t+55 does not fire. |
| SimpleTimer.ZeroIntervalLoopNeverExits | simple_timer.h:97-99 | With interval 0, the deadline after any number of passes is unchanged and the loop guard `next_expiry <= now` still holds. |
| SimpleTimer.Timer.constructor | simple_timer.h:28-31 | A zero-initialised timer. |
| SimpleTimer.Timer.Expired | simple_timer.h:83-89 | `timer_expired`: true iff `now >= next_expiry`. It only reads the timer, so repeated checks at one time agree. Its relation to `timer_set` and `timer_tick` is in the ensures of `Set` and `Tick`. |
| SimpleTimer.Timer.Set | simple_timer.h:78-81 | `timer_set` stores `interval = iv` and `next_expiry = now + iv`. The timer is expired at `now` iff iv == 0, and expired at a later time iff that time is >= now + iv. |
| SimpleTimer.Timer.Tick | simple_timer.h:91-103 | Fires iff `now >= next_expiry`. When it fires, the new deadline is `CatchUp(old, interval, now)` and the timer is no longer expired at `now`. When it does not fire, nothing changes. `interval` never changes. Requires interval > 0 on an expired timer. |
| SimpleTimer.Timer.TickGuarded | simple_timer.h:91-103 | `timer_tick` with the zero-interval guard first: at interval 0 it returns true and leaves the deadline unchanged. Otherwise it behaves as `Tick`. No precondition. |
| RpiGpio.FselBounds | rpi_gpio.h:147-148 | For pins 0..53: `pin/10 <= 5`, the shift is `(pin%10)*3`, and `(pin%10)*3 + 3 <= 30`. |
| RpiGpio.BankBounds | rpi_gpio.h:191-192 | The bank is `pin / 32` and the bit is `pin % 32`. |
| RpiGpio.WordOfSmall | rpi_gpio.h:176 | A code 0..7 reaches the register unchanged and below 8. |
| RpiGpio.LevelOf | rpi_gpio.h:216 | Testing a word against `1 << b` gives HIGH or LOW, and HIGH iff bit b is set. |
| RpiGpio.PinModeWord | rpi_gpio.h:152-156 | `pin_mode`'s update of one GPFSEL word. Its meaning is in PinModeWordField. |
| RpiGpio.SetFunctionWord | rpi_gpio.h:174-176 | `gpio_set_function`'s update of one GPFSEL word. Its meaning is in SetFunctionWordField and WideCodeSpills. |
| RpiGpio.PinModeRegs | rpi_gpio.h:135-160 | The register effect of `pin_mode` (block size kept). Its meaning is in GuardsIgnore, PinModeOneWord and PinModeWordField. |
| RpiGpio.SetFunctionRegs | rpi_gpio.h:162-179 | The register effect of `gpio_set_function` (block size kept). Its meaning is in GuardsIgnore, SetFunctionOneWord and SetFunctionWordField. |
| RpiGpio.WriteRegs | rpi_gpio.h:181-202 | The register effect of `digital_write` (block size kept). Its meaning is in GuardsIgnore and WriteOneWord. |
| RpiGpio.ReadLevel | rpi_gpio.h:204-218 | The value `digital_read` returns: always HIGH or LOW. When it is HIGH is stated in ReadLevelBit. |
| RpiGpio.GuardsIgnore | rpi_gpio.h:136-140 | A pin outside 0..53, or an unmapped block, leaves every word unchanged, and a read gives LOW. |
| RpiGpio.PinModeOneWord | rpi_gpio.h:147-158 | `pin_mode` rewrites only word `pin/10`, to `PinModeWord` of its old value. |
| RpiGpio.PinModeWordField | rpi_gpio.h:152-158 | The 3-bit field becomes 001 for OUTPUT and 000 for any other mode. All bits outside the field are kept. |
| RpiGpio.SetFunctionOneWord | rpi_gpio.h:169-177 | `gpio_set_function` rewrites only word `pin/10`, to `SetFunctionWord` of its old value. |
| RpiGpio.SetFunctionWordField | rpi_gpio.h:174-177 | For a code below 8, the field equals the code and all bits outside it are kept. |
| RpiGpio.AltCodesFitField | rpi_gpio.h:31-38 | INPUT, OUTPUT and ALT0..ALT5 all lie in 0..7. The ALT codes are exactly 2..7. |
| RpiGpio.WideCodeSpills | rpi_gpio.h:176 | A code of 8 on pin 0 leaves pin 0's field 000 and sets the low bit of pin 1's field. The code is not checked. |
| RpiGpio.FieldIsLow3 | rpi_gpio.h:174-176 | For every code, unchecked, the pin's field ends holding the code's low three bits. |
| RpiGpio.WriteOneWord | rpi_gpio.h:191-200 | `digital_write` writes exactly `1 << (pin mod 32)` into GPSET0/1 (words 7/8) for HIGH, or into GPCLR0/1 (words 10/11) otherwise. Bank 1 is used iff pin >= 32. No other word changes. |
| RpiGpio.ReadLevelBit | rpi_gpio.h:204-218 | `digital_read` returns HIGH or LOW. It returns HIGH iff the pin is 0..53, the block is mapped, and bit `pin mod 32` of GPLEV0/GPLEV1 (words 13/14) is set. |
| RpiGpio.ModeFieldUpdate | rpi_gpio.h:152-156 | The step-by-step clear-then-set on the word read equals `PinModeWord`, and leaves the field at 001 or 000. |
| RpiGpio.FunctionFieldUpdate | rpi_gpio.h:174-176 | The step-by-step clear-then-or equals `SetFunctionWord`, and leaves the field equal to a code below 8. |
| RpiGpio.GpioMap.constructor | rpi_gpio.h:85 | A block of 1024 words with the given contents and mapped state. |
| RpiGpio.GpioMap.PinMode | rpi_gpio.h:135-160 | The new words are `PinModeRegs` of the old ones. |
| RpiGpio.GpioMap.SetFunction | rpi_gpio.h:162-179 | The new words are `SetFunctionRegs` of the old ones. |
| RpiGpio.GpioMap.DigitalWrite | rpi_gpio.h:181-202 | The new words are `WriteRegs` of the old ones. |
| RpiGpio.GpioMap.DigitalRead | rpi_gpio.h:204-218 | Changes nothing. Returns `ReadLevel`, which is HIGH iff the pin is legal, the block is mapped and the pin's GPLEV bit is set. |
| RpiPwm.Find | rpi_pwm.h:103-107 | The lowest index of an active slot holding the pin, or -1 iff no active slot holds it. |
| RpiPwm.FirstFree | rpi_pwm.h:108-110 | The lowest index of an inactive slot, or -1 iff every slot is active. |
| RpiPwm.ClampDuty | rpi_pwm.h:139-140 | The duty clamped to 0..100, and unchanged inside that range. |
| RpiPwm.InitPool | rpi_pwm.h:94-136 | `pwm_init` keeps the pool size and returns 0 or -1, and 0 iff the pin is served afterwards. Which slot changes is in the lemmas below. |
| RpiPwm.WritePool | rpi_pwm.h:138-155 | `pwm_write` keeps the pool size. Its effect is in WriteStoresClamped. |
| RpiPwm.StopPool | rpi_pwm.h:157-179 | `pwm_stop` keeps the pool size and leaves the serving slot inactive and not running. Its full effect is in StopFrees. |
| RpiPwm.InitRegistered | rpi_pwm.h:103-107 | `pwm_init` of a pin that is already served returns 0 and leaves the pool unchanged. |
| RpiPwm.InitAllocatesLowestFree | rpi_pwm.h:108-131 | `pwm_init` of a new pin with a free slot fills the lowest inactive slot with (pin, duty 0, running, active = spawn succeeded). Every other slot is unchanged. The status is 0 iff the spawn succeeded, -1 otherwise. |
| RpiPwm.InitFullFails | rpi_pwm.h:113-117 | With all slots active and none holding the pin, the status is -1 and the pool is unchanged. |
| RpiPwm.InitIdempotent | rpi_pwm.h:103-107 | After a successful `pwm_init` the pin is served, and a second `pwm_init` of it changes nothing and returns 0. |
| RpiPwm.InitKeepsUnique | rpi_pwm.h:103-124 | `pwm_init` preserves "no two active slots share a pin". |
| RpiPwm.WriteStoresClamped | rpi_pwm.h:138-155 | The serving slot takes `ClampDuty(duty)` and keeps its other fields. Every other slot is unchanged. For an unserved pin nothing changes. |
| RpiPwm.WriteKeepsUnique | rpi_pwm.h:146-152 | `pwm_write` preserves pin uniqueness and which slot serves each pin. |
| RpiPwm.StopFrees | rpi_pwm.h:157-179 | The serving slot ends with running = false and active = false. No slot serves the pin afterwards, and a free slot exists at or below the freed index. In a full pool the first free slot afterwards is exactly the freed one. For an unserved pin nothing changes. |
| RpiPwm.StopKeepsUnique | rpi_pwm.h:161-177 | `pwm_stop` preserves pin uniqueness. |
| RpiPwm.StopThenInitReuses | rpi_pwm.h:94-179 | After `pwm_stop` of a served pin, `pwm_init` of that pin takes a slot again, no higher than the one it left. It succeeds iff the spawn does. |
| RpiPwm.StopThenInitOther | rpi_pwm.h:94-179 | After `pwm_stop(p)` of a served pin, `pwm_init(q)` of a pin no slot serves takes a slot. In a full pool it takes exactly the slot p left, as (q, duty 0, running), and succeeds iff the spawn does. |
| RpiPwm.WorkerCycle | rpi_pwm.h:71-88 | One worker turn is one or two phases, and the first is HIGH iff d > 0. Its timing is in WorkerCycleTiming. |
| RpiPwm.WorkerCycleTiming | rpi_pwm.h:71-88 | One worker turn lasts 10 000 us, every phase is strictly positive, and the HIGH time is `ClampDuty(d) * 100` us. The first phase is HIGH iff d > 0 and the rest are LOW. |
| RpiPwm.SoftPwm.constructor | rpi_pwm.h:64 | An all-zero pool of 8 slots. |
| RpiPwm.SoftPwm.Init | rpi_pwm.h:94-136 | The new pool and status are `InitPool` of the old one. The pin is set to OUTPUT (`PinModeRegs`) iff a slot is taken. Pin uniqueness is kept. |
| RpiPwm.SoftPwm.Write | rpi_pwm.h:138-155 | The new pool is `WritePool` of the old one. Pin uniqueness is kept. |
| RpiPwm.SoftPwm.Stop | rpi_pwm.h:157-179 | The new pool is `StopPool` of the old one. The pin is driven LOW (`WriteRegs`) iff a slot served it. Pin uniqueness is kept. |
| RpiHwPwm.ClockWords | rpi_hw_pwm.h:72-137 | The clock words carry password 0x5A. The divisor word has DIVI = 54 and DIVF = 0. The enable word sets ENAB with source 1, and the kill word has ENAB clear. Values: 0x5A000001, 0x5A036000, 0x5A000011. |
| RpiHwPwm.ClampPerMille | rpi_hw_pwm.h:147-148 | The duty clamped to 0..1000, and unchanged inside that range. |
| RpiHwPwm.Channel | rpi_hw_pwm.h:161-162 | The channel is 1 iff the pin is 13 or 19, otherwise 0. |
| RpiHwPwm.Range | rpi_hw_pwm.h:167 | `range <= 1000000` and it is the largest r with `r * freq <= 1000000`. |
| RpiHwPwm.Data | rpi_hw_pwm.h:168 | `data <= range` and `data * 1000 <= range * duty < (data + 1) * 1000`. |
| RpiHwPwm.RangeDataBounds | rpi_hw_pwm.h:167-168 | `0 <= data <= range <= 1000000`, so both fit a 32-bit word. |
| RpiHwPwm.Ch0Ctl | rpi_hw_pwm.h:171-179 | Channel 0's control-word update. Its meaning is in Ch0CtlBits. |
| RpiHwPwm.Ch1Ctl | rpi_hw_pwm.h:182-190 | Channel 1's control-word update. Its meaning is in Ch1CtlBits. |
| RpiHwPwm.Ch0CtlBits | rpi_hw_pwm.h:171-179 | After channel 0's CTL update, bits 0 and 7 are set and every other CTL bit is unchanged. |
| RpiHwPwm.Ch1CtlBits | rpi_hw_pwm.h:182-190 | After channel 1's CTL update, bits 8 and 15 are set and every other CTL bit is unchanged. |
| RpiHwPwm.SetPwmRegs | rpi_hw_pwm.h:144-194 | The PWM-block effect of `hpwm_set` (block size kept). Its meaning is in SetChannel0Regs and SetChannel1Regs. |
| RpiHwPwm.SetChannel0Regs | rpi_hw_pwm.h:170-180 | On channel 0: RNG1 (word 4) = range and DAT1 (word 5) = data. CTL bits 0 and 7 end set and other CTL bits are kept. Every other word, RNG2/DAT2 included, is unchanged. |
| RpiHwPwm.SetChannel1Regs | rpi_hw_pwm.h:181-192 | On channel 1: RNG2 (word 8) = range and DAT2 (word 9) = data. CTL bits 8 and 15 end set and other CTL bits are kept. Every other word, RNG1/DAT1 included, is unchanged. |
| RpiHwPwm.InitPtrsAsWritten | rpi_hw_pwm.h:80-121 | `hpwm_init`'s pointer bookkeeping as written: the status is 0 or -1, and 0 iff open and both mmaps succeed, with both pointers then live. What the failure paths leave behind is in InitClockFailureLeavesGuardOpen. |
| RpiHwPwm.InitPtrs | rpi_hw_pwm.h:80-121 | The corrected bookkeeping: the same status, and after a failed mmap the PWM pointer is NULL. Its soundness is InitPtrsSound. |
| RpiHwPwm.InitClockFailureLeavesGuardOpen | rpi_hw_pwm.h:116-121 | As written, a failed clock mmap returns -1 but leaves both pointers non-NULL and not live, so `hpwm_set`'s guard passes. |
| RpiHwPwm.InitPtrsSound | rpi_hw_pwm.h:80-142 | The corrected pointer bookkeeping keeps every non-NULL pointer live. It returns 0 iff open and both mmaps succeed, and then both blocks are mapped. The `hpwm_set` guard passes only with both blocks live. |
| RpiHwPwm.HwPwm.constructor | rpi_hw_pwm.h:74-75 | Both map pointers NULL. |
| RpiHwPwm.HwPwm.Init | rpi_hw_pwm.h:80-142 | The pointers and status are `InitPtrs` of the outcomes. On success the clock block ends with `CM_PWMCTL = CLK_ENABLE` and `CM_PWMDIV = CLK_DIV`; otherwise it is unchanged. |
| RpiHwPwm.HwPwm.Set | rpi_hw_pwm.h:144-194 | With freq <= 0 or a NULL pointer, no register changes. Otherwise the PWM block becomes `SetPwmRegs` and the GPIO block `SetFunctionRegs(pin, ALT5)`. |
| RpiHwPwm.HwPwm.Stop | rpi_hw_pwm.h:196-215 | If the PWM block was mapped, CTL becomes 0, so both channels' enable bits (0 and 8) are clear, and nothing else changes. Both pointers end NULL. |
| RpiHwPwm.ProgramPwm | rpi_hw_pwm.h:161-192 | Channel choice, `range`/`data` computation and channel programming give `SetPwmRegs`. |
| RpiHwPwm.ProgramChannel | rpi_hw_pwm.h:170-192 | The clear-enable, RNG, DAT, set-mode-and-enable sequence. |

## Left out

- Clock reads (`clock_gettime`) in `millis`/`micros` and in the timer operations. Time is a parameter.
- `delay_ms` / `delay_us` (simple_timer.h:64-76). They busy-wait on the real clock, so their termination depends on time passing.
- uint64 wrap-around in `millis() + interval_ms` and `next_expiry += interval`, and the overflow of `tv_sec * 1000` in `millis()` and of `tv_sec * 1000000` in `micros()`, which are computed in `time_t` before the cast (with a 32-bit `time_t` the `micros()` product overflows after about 2147 s of monotonic time). Times are unbounded naturals.
- Threads, the mutex and the `volatile` hand-off in rpi_pwm.h. Thread creation is the `spawnOk` flag and `pthread_join` completes at once. The worker's `usleep` and the liveness of its `running` loop are not modelled; one loop turn is `WorkerCycle`.
- The thread handle field of `pwm_pin_t`.
- `pwm_init_freq` and a per-slot period. rpi_pwm.h defines neither, and the period is fixed at 10 ms. The Python binding declares `pwm_init_freq` (rpi_toolkit.py:127-129) and tests/test_rpi_pwm.c:35 calls it, but no header defines it, so the model follows the header.
- The `perror` / `fprintf(stderr, ...)` diagnostics in `gpio_init`, `pwm_init` and `hpwm_init` (rpi_gpio.h:97, 112; rpi_pwm.h:115, 127; rpi_hw_pwm.h:86, 101, 117). Output to stderr is not modelled; only the status returned is.
- `gpio_init` / `gpio_cleanup` (rpi_gpio.h:90-133): the open/mmap/munmap/close of `/dev/gpiomem`. `GpioMap.mapped` stands for a non-NULL `gpio_map`, fixed when the map is built.
- open/mmap/munmap/close of `/dev/mem` in `hpwm_init` / `hpwm_stop`. Their outcomes are the flags of `HwPwm.Init`, and `mem_fd_hw` is not tracked.
- The `usleep` pauses in rpi_hw_pwm.h and the clock-busy polling loop `while (clk_map[CM_PWMCTL] & 0x80)` (rpi_hw_pwm.h:126-129). The busy bit is set by hardware, which memory words cannot model. `HwPwm.Init` records the initial kill write and the final divisor and enable words.
- The host (mock `printf`) branches of every header. In host mode `pwm_init` tracks nothing and returns 0.
- rpi_realtime.h is not part of this model: it is a thin wrapper over the scheduler, CPU affinity and `sysconf`.
- The Python ctypes bindings, the demos, lib_toolkit.c and the test framework are not part of this model.
- RpiGpio.PinModeOneWord, RpiGpio.SetFunctionOneWord: the word-level effect and the field-level effect are two lemmas each (for example PinModeOneWord and PinModeWordField), joined through `FselShift(pin)`, not one statement about `Field(regs'[pin/10], (pin%10)*3)`.
- RpiHwPwm.HwPwm.Init: it follows the corrected failure paths (see Findings). The as-written bookkeeping is `InitPtrsAsWritten`.

## Findings

| source | as written | input that shows it | evidently intended | confidence | as-written member | corrected member |
|---|---|---|---|---|---|---|
| simple_timer.h:97-99 | `while (t->next_expiry <= now) t->next_expiry += t->interval;` never exits when `interval == 0` | `timer_set(t, 0)` then `timer_tick(t)`: the deadline stays at the set time, which is never after `now` | an expired zero-interval timer fires without advancing (the repository's own test at tests/test_simple_timer.c:368-404 suggests `if (interval == 0) return true;`) | not executed; high | SimpleTimer.ZeroIntervalLoopNeverExits | SimpleTimer.Timer.TickGuarded |
| rpi_hw_pwm.h:116-121 | when the clock mmap fails, `pwm_map` is unmapped but not cleared and `clk_map` keeps `MAP_FAILED`, yet -1 is returned (the PWM mmap failure at 100-104 likewise leaves `MAP_FAILED` in `pwm_map`) | `hpwm_init()` with the clock mmap failing, then `hpwm_set(18, 1000, 500)`: both pointers are non-NULL, so the guard at line 153 passes and the code writes through unmapped pointers | every failure path leaves the pointer it could not map NULL, so `hpwm_set` and `hpwm_stop` do nothing after a failed init | not executed; high | RpiHwPwm.InitPtrsAsWritten, RpiHwPwm.InitClockFailureLeavesGuardOpen | RpiHwPwm.InitPtrs, RpiHwPwm.InitPtrsSound, RpiHwPwm.HwPwm.Init |
