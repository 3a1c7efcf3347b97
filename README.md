# Cactusphere-100 DIO real-time application in Dafny

This project models the digital I/O firmware that runs on the real-time core of the
Cactusphere-100 (`Firmware/RTApp/DIO`). The model covers three parts:

- **Pulse counter** (`PulseCounter_*`). A digital-input channel polled every 1 ms. It
  - debounces the raw level with a strict "held longer than `minPulseSetTime`" rule;
  - settles each run of equal samples at most once;
  - counts settled edges of the configured polarity, wrapping after `maxPulseCounter`;
  - accumulates the time a rising-edge level is held, as seconds plus milliseconds.
- **Digital-output controller** (`DoController_*`). A state machine: a trigger, then an
  optional delay, then a one-shot action from a function/relation table, then an
  optional drive time after which the output returns to its default level. It has a
  `Started` latch.
- **Application** (`main.c`). It holds two channels of each kind in static arrays:
  - the 1 ms interrupt handler ticks every running channel in index order;
  - a linear lookup finds a channel by pin id;
  - the main-loop dispatcher maps each request from the high-level application to one
    channel operation and a reply.

`PulseCounter.c` and `main.c` are imperative, and so is the model:

- `PulseCounting.PulseCounter` and `DoControl.DoController` are classes with the C
  records' fields.
- `RtApp.RtCore` holds the two channel arrays.
- Each method is proved against a pure specification function of the state, and
  lemmas state the properties of those functions:
  - `CounterTick`, `Configured` and `Cleared` for the pulse counter;
  - `DoTick` and `RunDo` for the output controller;
  - `ScanDi`, `ScanDo` and `Dispatched` for the application.

C integer behaviour is explicit (module `CInt`):

- `int` fields are `Int32`. Signed overflow is undefined behaviour in C; the model takes
  it as two's-complement wrap-around (`Inc32`, `Wrap32`), as listed under "## Left out".
- The comparisons of an `int` with a `uint32_t` convert the `int` to unsigned
  (`AsUnsigned`), as C's usual arithmetic conversions do.
- The `uint32_t` message fields reach the channels' `int` parameters through a
  two's-complement reinterpretation (`AsSigned`).

The environment becomes parameters:

- The raw GPIO level read by `Mt3620_Gpio_Read` is an argument: `Counter(newState)`,
  `Controller(relationLevel)`, and a per-tick `pinLevel: Int32 -> bool` for the whole
  application.
- PWM output calls (`Cactusphere_PWM_WriteOutput`, `PWM_ConfigurePin`) are appended to a
  ghost log of `ConfigurePin` events on each output controller.
- Messages are the datatypes of `DioMsg`, and replies are `SendInt`, `SendReadData` or
  `NoReply`.

Behaviours of the code as written that the lemmas make precise:

- **A glitch recounts.** An opposite-level glitch shorter than the debounce window is
  rejected. The interrupted level then has to settle again, and if it is the counted
  level it is counted once more (`GlitchRecounts`).
- **A maximal debounce never settles.** A `minPulseSetTime` of `0xFFFFFFFF` can never be
  exceeded, so nothing settles (`MaximalMinimumNeverSettles`).
- **The first second is late.** From a zero millisecond part, the first second of
  on-time needs 1001 periods. Every later second needs 1000
  (`FirstSecondNeeds1001Periods`, `OneSecondPer1000Periods`).
- **The first run after configuration is not counted.** Configuration sets the edge
  baseline from the polarity, so the first run of the polarity's own level settles
  without a count (`InitialHighNotCounted`). When counting low pulses, that first low run
  is also accumulated as on-time (`InitialLowTimedAsOnTime`).
- **Delay without drive time never acts.** With `delayEnable` set and
  `driveCertainEnable` clear, the delay consumes the trigger and the action never runs
  (`DelayWithoutDriveNeverActs`).
- **The output controllers never run.** `DoController_Initialize` never sets `isStart`,
  and nothing else does either. So whatever ticks and requests arrive, the output
  controllers never change and no PWM call is ever made (`OutputsNeverRun`,
  `BootedOutputsNeverRun`).
- **One request gets no reply.** DO_SET_CONFIG on a known output pin sends nothing
  (`NoReplyExactlyForKnownDoConfig`).

`DoController_Initialize` is defined with three parameters, but `main.c` calls it with
two. The model follows the definition and passes `defaultState` explicitly as a
constructor argument.

## Model

| member | source | states |
|---|---|---|
| CInt.Wrap32 | Firmware/RTApp/DIO/PulseCounter.c:154 | the result is the 32-bit two's-complement value congruent to the input, and equals it when it is in range |
| CInt.Inc32 | Firmware/RTApp/DIO/PulseCounter.c:138 | `x++` on an `int`: the successor, except that INT32_MAX is taken to wrap to INT32_MIN |
| CInt.AsUnsigned | Firmware/RTApp/DIO/PulseCounter.c:139 | the `uint32_t` an `int` converts to in a mixed comparison: congruent modulo 2^32, and equal exactly for non-negative values |
| CInt.AsSigned | Firmware/RTApp/DIO/main.c:197 | the `int` a `uint32_t` message field converts to: congruent modulo 2^32, and equal exactly up to INT32_MAX |
| CInt.UnsignedSignedRoundTrip | Firmware/RTApp/DIO/main.c:202-206 | converting a `uint32_t` to `int` and back gives the original value |
| CInt.UnsignedInc | Firmware/RTApp/DIO/PulseCounter.c:138-139 | below 2^32-1, the unsigned view of `x++` is the unsigned view of `x` plus one |
| CactuspherePwm.WriteOutput | Firmware/RTApp/DIO/cactusphere_pwm.c:82-84 | a static level is one PWM configuration of that pin on the 32 kHz clock, with on and off times adding up to 1 |
| CactuspherePwm.DecodeOutput | Firmware/RTApp/DIO/cactusphere_pwm.c:71-77 | the read-back level is high exactly when the channel is enabled and its on time exceeds its off time |
| CactuspherePwm.WriteThenReadBack | Firmware/RTApp/DIO/cactusphere_pwm.c:71-84 | a level written with WriteOutput decodes to the same level |
| PulseCounting.CountStep | Firmware/RTApp/DIO/PulseCounter.c:143-146 | the count becomes 1 when it has reached the maximum (compared unsigned) and old+1 otherwise; with max ≥ 1 it lands in [1, max], and with max = 0 it is always 1 |
| PulseCounting.PulseCounter.constructor | Firmware/RTApp/DIO/PulseCounter.c:33-49 | a channel bound to the pin, everything zeroed, counting high pulses, stopped |
| PulseCounting.PulseCounter.GetPinId | Firmware/RTApp/DIO/PulseCounter.c:54-58 | returns the channel's pin id |
| PulseCounting.PulseCounter.GetPulseCount | Firmware/RTApp/DIO/PulseCounter.c:93-97 | returns the counter value |
| PulseCounting.PulseCounter.GetPulseOnTime | Firmware/RTApp/DIO/PulseCounter.c:99-103 | returns only the whole seconds of on-time |
| PulseCounting.PulseCounter.GetLevel | Firmware/RTApp/DIO/PulseCounter.c:105-109 | returns the last raw sample, not the debounced level |
| PulseCounting.PulseCounter.GetPinLevel | Firmware/RTApp/DIO/PulseCounter.c:111-115 | returns the debounced level |
| PulseCounting.PulseCounter.SetConfigCounter | Firmware/RTApp/DIO/PulseCounter.c:63-73 | the new state is `Configured(old state, ...)` |
| PulseCounting.PulseCounter.Clear | Firmware/RTApp/DIO/PulseCounter.c:75-91 | the new state is `Cleared(old state, v)`; the stop and conditional restart cancel out |
| PulseCounting.PulseCounter.Counter | Firmware/RTApp/DIO/PulseCounter.c:120-159 | one polling period: the new state is `CounterTick(old state, raw level)` |
| PulseCountingTheory.ConfigureInstallsAndKeepsCounts | Firmware/RTApp/DIO/PulseCounter.c:63-73 | configuring installs polarity and both limits (as `uint32_t`), sets prevState = polarity, isRising = !polarity and isStart; count, on-time, elapsed time, settled flag, debounced level and pin are kept |
| PulseCountingTheory.ClearResetsAndKeepsRunStatus | Firmware/RTApp/DIO/PulseCounter.c:75-91 | reset sets the count to v, zeroes on-time and elapsed time, clears the settled flag, re-baselines from the polarity, and keeps isStart, configuration, debounced level and pin |
| PulseCountingTheory.OnTimeRangeInvariant | Firmware/RTApp/DIO/PulseCounter.c:33-159 | every operation keeps the millisecond part of the on-time in [0, 1000] |
| PulseCountingTheory.TickOnEdge | Firmware/RTApp/DIO/PulseCounter.c:126-135 | a changed raw level zeroes elapsed time, clears the settled flag, sets isRising = !old prevState and adopts the level; nothing else changes |
| PulseCountingTheory.SettlementIsStrict | Firmware/RTApp/DIO/PulseCounter.c:136-150 | a period settles the run exactly when the level is unchanged, the run is unsettled and the incremented elapsed time is strictly greater than the minimum; the count and debounced level change only then |
| PulseCountingTheory.SettlementCount | Firmware/RTApp/DIO/PulseCounter.c:137-150 | on settlement the debounced level becomes the sample and elapsed time 0; a qualifying run's count lands in [1, max] (1 when max = 0), and a non-qualifying run's count is kept |
| PulseCountingTheory.OnTimeTick | Firmware/RTApp/DIO/PulseCounter.c:151-156 | on a settled rising run, the on-time `S*1000+ms` grows by exactly 1 and ms stays in range; only on-time changes, and polarity plays no part |
| PulseCountingTheory.RunAppend | Firmware/RTApp/DIO/PulseCounter.c:120-159 | running two sample sequences one after the other is running their concatenation |
| PulseCountingTheory.HoldBeforeSettle | Firmware/RTApp/DIO/PulseCounter.c:137-139 | while the run is not yet longer than the minimum, each equal sample only adds one to the (unsigned) elapsed time |
| PulseCountingTheory.SettledHold | Firmware/RTApp/DIO/PulseCounter.c:137-157 | after settling, equal samples change nothing but the on-time |
| PulseCountingTheory.MaximalMinimumNeverSettles | Firmware/RTApp/DIO/PulseCounter.c:138-139 | with minPulseSetTime = 0xFFFFFFFF, no period settles and the count is kept |
| PulseCountingTheory.HoldSettlesOnce | Firmware/RTApp/DIO/PulseCounter.c:136-157 | a level held past the minimum settles exactly once: debounced level adopted, and one count step if the run qualifies, however long the hold |
| PulseCountingTheory.OnTimeAccumulates | Firmware/RTApp/DIO/PulseCounter.c:151-156 | k periods on a settled rising run add exactly k ms, keep ms in range and change nothing else |
| PulseCountingTheory.OneSecondPer1000Periods | Firmware/RTApp/DIO/PulseCounter.c:151-156 | from ms ≥ 1, 1000 periods add one second and leave ms as it was |
| PulseCountingTheory.FirstSecondNeeds1001Periods | Firmware/RTApp/DIO/PulseCounter.c:151-156 | from ms = 0, after 1000 periods the seconds are unchanged and ms reads 1000; the second arrives on period 1001 |
| PulseCountingTheory.GlitchRejected | Firmware/RTApp/DIO/PulseCounter.c:126-140 | an opposite level lasting at most min+1 samples never settles, whether or not the interrupted run had settled, and the debounced level and count survive the return to the old level |
| PulseCountingTheory.GlitchRecounts | Firmware/RTApp/DIO/PulseCounter.c:126-150 | after such a glitch inside a counted level, holding that level again applies one more count step |
| PulseCountingTheory.CountsCompose | Firmware/RTApp/DIO/PulseCounter.c:143-146 | a + b count steps are a steps followed by b steps |
| PulseCountingTheory.CountsInRange | Firmware/RTApp/DIO/PulseCounter.c:143-146 | after the first count step the count stays in [1, max] |
| PulseCountingTheory.CountsFromZero | Firmware/RTApp/DIO/PulseCounter.c:143-146 | below the maximum each count step adds exactly one |
| PulseCountingTheory.CountsWrapAround | Firmware/RTApp/DIO/PulseCounter.c:143-146 | counts from 0 repeat with period max: 1, 2, …, max, 1, 2, … |
| PulseCountingTheory.FirstSettle | Firmware/RTApp/DIO/PulseCounter.c:63-73 | on a freshly configured channel, min+1 samples of the polarity's level settle the run without counting |
| PulseCountingTheory.InitialHighNotCounted | Firmware/RTApp/DIO/PulseCounter.c:63-73 | counting high pulses, a high level present at configuration settles as the debounced level but the count stays 0 |
| PulseCountingTheory.InitialLowTimedAsOnTime | Firmware/RTApp/DIO/PulseCounter.c:63-73 | counting low pulses, a low level present at configuration is not counted, and each further low period adds 1 ms of on-time |
| DoControl.PulseClock.Hz | Firmware/RTApp/DIO/PulseCounter.h:54-59 | the clock enumerator's value in hertz, zero only for PulseClock_None |
| DoControl.PulseConfig | Firmware/RTApp/DIO/PulseCounter.c:284-286 | the waveform call is on the controller's pin at the clock's frequency, on for pulseEffectiveTime, with on + off = period when the subtraction does not overflow |
| DoControl.DoController.constructor | Firmware/RTApp/DIO/PulseCounter.c:161-182 | the state is `DoInitialized(pin, defaultState)`: relationPort -1, 32 kHz clock, nothing selected, isStart false; no PWM calls yet |
| DoControl.DoController.GetPinId | Firmware/RTApp/DIO/PulseCounter.c:184-187 | returns the controller's pin id |
| DoControl.DoController.SetConfig | Firmware/RTApp/DIO/PulseCounter.c:192-197 | the stub changes nothing |
| DoControl.DoController.TriggerActive | Firmware/RTApp/DIO/PulseCounter.c:201-205 | sets triggerActived and nothing else |
| DoControl.DoController.ArmTrigger | Firmware/RTApp/DIO/PulseCounter.c:212-223 | the new state is `Arm(old state)` |
| DoControl.DoController.CountDownDelay | Firmware/RTApp/DIO/PulseCounter.c:225-230 | the new state is `DelayCountdown(old state)`; no PWM call |
| DoControl.DoController.WriteStartedAction | Firmware/RTApp/DIO/PulseCounter.c:236-251 | appends the started-function writes (Interlock relations only) and changes no field |
| DoControl.DoController.WriteStartAction | Firmware/RTApp/DIO/PulseCounter.c:253-287 | appends the action-table writes and changes no field |
| DoControl.DoController.RunAction | Firmware/RTApp/DIO/PulseCounter.c:236-289 | state and log follow `ActionStep`: the table runs unless started, then the status is Started |
| DoControl.DoController.CountDownDriveTime | Firmware/RTApp/DIO/PulseCounter.c:290-297 | state and log follow `DriveCountdown` |
| DoControl.DoController.FireAction | Firmware/RTApp/DIO/PulseCounter.c:234-297 | state and log follow `Fire`: the action branch, then the drive countdown |
| DoControl.DoController.Controller | Firmware/RTApp/DIO/PulseCounter.c:209-299 | one period: the state is `DoTick(old state, level).next` and its writes are appended to the log |
| DoControlTheory.ArmingConsumesTrigger | Firmware/RTApp/DIO/PulseCounter.c:212-223 | a pending trigger arms the delay (elapsed 0) if enabled and the drive time (elapsed 0) if enabled; it is consumed exactly when one of them is enabled |
| DoControlTheory.DelayPeriodIsSilent | Firmware/RTApp/DIO/PulseCounter.c:225-231 | a period with the delay pending writes nothing, and it ends the delay exactly when elapsed ≥ delayTime |
| DoControlTheory.ImmediateAction | Firmware/RTApp/DIO/PulseCounter.c:212-289 | without delay or drive time (and no countdown left running), a trigger runs the action on the next period and latches Started |
| DoControlTheory.StatusStep | Firmware/RTApp/DIO/PulseCounter.c:236-289 | one period either sets the status to Started or keeps it, and never leaves Started |
| DoControlTheory.StartedWritesOnlyInterlock | Firmware/RTApp/DIO/PulseCounter.c:236-251 | once started, any function other than an Interlock relation writes nothing except the end-of-drive default level |
| DoControlTheory.InterlockRewrites | Firmware/RTApp/DIO/PulseCounter.c:237-247 | once started, Interlock writes the relation level and Interlock_Invert its negation on every period the action branch runs |
| DoControlTheory.InvertAndInterlockInvert | Firmware/RTApp/DIO/PulseCounter.c:240-269 | before the start, Invert and Interlock_Invert write the same level; afterwards only Interlock_Invert writes |
| DoControlTheory.SnapAndNotSelectedAreNoOps | Firmware/RTApp/DIO/PulseCounter.c:271-281 | Relation/Snap, an unselected relation and an unselected function write nothing, before and after the start |
| DoControlTheory.InitializedNeverActs | Firmware/RTApp/DIO/PulseCounter.c:161-299 | a freshly initialised controller, ticked any number of periods, stays as it is and writes nothing |
| DoControlTheory.StartedIsLatched | Firmware/RTApp/DIO/PulseCounter.c:288 | once Started, the status stays Started over any number of periods |
| DoControlTheory.DelayWithoutDriveNeverActs | Firmware/RTApp/DIO/PulseCounter.c:212-232 | with delay enabled and drive time disabled, no period ever writes and the status never changes |
| DoControlTheory.DelayPhase | Firmware/RTApp/DIO/PulseCounter.c:225-230 | a pending delay ends silently after exactly max(delayTime − elapsed, 0) + 1 periods, with elapsed advanced by that remainder |
| DoControlTheory.ActIgnoresTimers | Firmware/RTApp/DIO/PulseCounter.c:236-287 | the action's writes do not depend on the trigger, delay or drive bookkeeping |
| DoControlTheory.ActionAfterDelay | Firmware/RTApp/DIO/PulseCounter.c:231-297 | with the drive time armed and the delay over, the next period writes the action, then the default level if driveTime ≤ 0, and latches Started |
| DoControlTheory.DelayedActionTiming | Firmware/RTApp/DIO/PulseCounter.c:212-297 | with delay and drive time enabled, a trigger is followed by max(delayTime, 0) + 1 silent periods; the next period runs the action (and writes the default at once if driveTime ≤ 0) |
| DoControlTheory.DrivePhase | Firmware/RTApp/DIO/PulseCounter.c:290-297 | during the drive time each period adds one to the elapsed time and latches Started, changing nothing else; once started, a function other than an Interlock relation writes nothing in these periods |
| DoControlTheory.DriveTimeForcesDefault | Firmware/RTApp/DIO/PulseCounter.c:290-297 | the drive time keeps driving for max(driveTime − elapsed, 0) periods; the next one writes defaultState last, ends the countdown and leaves the status Started |
| RtApp.DiPins | Firmware/RTApp/DIO/main.c:86-90 | the pin ids the input lookup compares against: one per channel, in array order |
| RtApp.DoPins | Firmware/RTApp/DIO/main.c:98-102 | the pin ids the output lookup compares against: one per channel, in array order |
| RtApp.ScanDi | Firmware/RTApp/DIO/main.c:69-73 | the first loop of the tick yields one record per input channel |
| RtApp.ScanDo | Firmware/RTApp/DIO/main.c:74-78 | the second loop of the tick yields one step per output channel |
| RtApp.FirstIndexOf | Firmware/RTApp/DIO/main.c:82-92 | the index of the first occurrence of the pin, or −1 exactly when it is absent |
| RtApp.RtCore.constructor | Firmware/RTApp/DIO/main.c:178-181 | inputs on pins 12 and 15 and outputs on pins 0 and 8, all initialised, as distinct objects |
| RtApp.RtCore.GetTargetPt | Firmware/RTApp/DIO/main.c:82-92 | returns the first input channel in array order bound to the pin, or null when none is |
| RtApp.RtCore.GetTargetPtDo | Firmware/RTApp/DIO/main.c:94-104 | returns the first output channel in array order bound to the pin, or null when none is |
| RtApp.RtCore.Handle1msIrq | Firmware/RTApp/DIO/main.c:66-80 | every running input channel is ticked with its pin's level, then every running output controller with its relation pin's level; stopped channels are unchanged |
| RtApp.RtCore.TickInputs | Firmware/RTApp/DIO/main.c:69-73 | the input channels become `ScanDi(old, pinLevel)` |
| RtApp.RtCore.TickOutputs | Firmware/RTApp/DIO/main.c:74-78 | each output controller becomes its `ScanDo` step, and the step's writes are appended to its log |
| RtApp.RtCore.ScanOutput | Firmware/RTApp/DIO/main.c:75-77 | an output controller is ticked only when it is running |
| RtApp.RtCore.SetConfigAndStart | Firmware/RTApp/DIO/main.c:196-210 | configures the resolved input channel and replies OK, or replies NG and changes nothing |
| RtApp.RtCore.ResetPulseCount | Firmware/RTApp/DIO/main.c:218-229 | resets the resolved input channel and replies 1, or replies NG and changes nothing |
| RtApp.RtCore.ReadPin | Firmware/RTApp/DIO/main.c:230-274 | replies with the resolved channel's count, on-time seconds or debounced level, or NG |
| RtApp.RtCore.ReadPulseLevel | Firmware/RTApp/DIO/main.c:253-262 | replies OK, message length 4, with every channel's last raw sample in array order |
| RtApp.RtCore.Dispatch | Firmware/RTApp/DIO/main.c:185-289 | the input channels and the reply follow `Dispatched`; output controllers and their logs are unchanged |
| RtAppTheory.UnresolvedInputPinRepliesNG | Firmware/RTApp/DIO/main.c:196-268 | a pin-addressed request whose pin matches no input channel replies NG and changes nothing |
| RtAppTheory.DoConfigRepliesNGOnlyWhenUnresolved | Firmware/RTApp/DIO/main.c:211-217 | DO_SET_CONFIG changes nothing, replies NG for an unknown output pin and sends nothing for a known one |
| RtAppTheory.UnknownCodeRepliesNG | Firmware/RTApp/DIO/main.c:284-286 | a code without a case replies NG and changes nothing |
| RtAppTheory.TriggerRequestsUnhandled | Firmware/RTApp/DIO/main.c:195-287 | DO_SET_TRIGGER and DO_TRIGGER_IMMEDIATE have no case |
| RtAppTheory.AtMostAddressedChannelChanges | Firmware/RTApp/DIO/main.c:185-289 | a request changes at most the channel its pin resolves to, never rebinds a pin, and only the set-config and reset cases change anything |
| RtAppTheory.NoReplyExactlyForKnownDoConfig | Firmware/RTApp/DIO/main.c:211-217 | a request gets no reply if and only if it is DO_SET_CONFIG on a known output pin |
| RtAppTheory.SetConfigOnKnownPin | Firmware/RTApp/DIO/main.c:196-210 | the first channel bound to the pin gets the message's polarity and limits (unchanged through the `int` parameters) and is started; its count and on-time are kept; the reply is OK |
| RtAppTheory.ResetOnKnownPin | Firmware/RTApp/DIO/main.c:218-229 | that channel's count becomes the message value, its on-time is zeroed and its run status kept; the reply is 1 |
| RtAppTheory.ReadRepliesReportChannel | Firmware/RTApp/DIO/main.c:230-274 | the reads reply the resolved channel's count, on-time seconds, or 1/0 for a high/low debounced level |
| RtAppTheory.PulseLevelReply | Firmware/RTApp/DIO/main.c:253-262 | returnCode 1 and messageLen 4, with the channels' last raw samples in order, which fit the four-entry buffer |
| RtAppTheory.VersionReply | Firmware/RTApp/DIO/main.c:275-283 | replies OK with the version string and its length, below 256 |
| RtAppTheory.TickNext | Firmware/RTApp/DIO/main.c:74-78 | the output records after the second loop, one per channel |
| RtAppTheory.StoppedOutputsIgnoreTick | Firmware/RTApp/DIO/main.c:74-78 | a tick leaves stopped output controllers as they are, and writes nothing |
| RtAppTheory.StoppedWriteNothing | Firmware/RTApp/DIO/main.c:74-78 | steps that write nothing write nothing together |
| RtAppTheory.OutputsNeverRun | Firmware/RTApp/DIO/main.c:66-289 | from stopped output controllers, any sequence of ticks and requests leaves them unchanged and makes no PWM call |
| RtAppTheory.PinsAreStable | Firmware/RTApp/DIO/main.c:66-289 | no tick or request changes any channel's pin id |
| RtAppTheory.BootPinsResolve | Firmware/RTApp/DIO/main.c:51-54 | after boot and any events, pins 12/15 resolve to input channels 0/1 and pins 0/8 to output channels 0/1; every other pin resolves to nothing |
| RtAppTheory.BootedOutputsNeverRun | Firmware/RTApp/DIO/main.c:178-182 | the booted application never changes its output controllers and never makes a PWM call |

## Left out

- The `RTCoreMain` bootstrap is not modelled. This covers the exception vector table, the
  default exception handler, the timer and intercore initialisation, the 3 s debugger
  wait, the GPIO block setup and the `Gpt_LaunchTimerMs` re-arming. All of it is hardware
  set-up with no logic over the channels.
- The intercore transport (`InterCoreComm_*`) is not modelled. A request is a value, and
  the reply is the method's result. The transport's success flag is ignored by the code,
  so its loss goes unmodelled.
- The model does not capture concurrency between the interrupt handler and the main
  loop. It treats the application as a sequential interleaving of whole ticks and whole
  requests, and makes no atomicity claim.
- The GPIO level is one snapshot per tick (`pinLevel`). The firmware reads each pin at
  the moment its channel runs.
- The byte layout of the messages and the union aliasing are not modelled. The body is
  a record of the four views; the dispatcher reads the view its request code selects.
- The header of the high-level side declares `DO_MsgSetConfig` empty. The dispatcher
  reads a `pinId` from it, and the model gives the view that one `uint32_t` field. The
  real-time side's copy of the header is not part of this model.
- The unused entries of the reply buffer are not modelled. DI_READ_PULSE_LEVEL fills
  only the first two `levels` entries; entries 2 and 3 are uninitialised bytes. The
  `memset`/`strncpy` of the version string are likewise not modelled.
- RtApp.VersionOutcome: the version string is a constructor parameter, shorter than the
  256-byte buffer and assumed free of NUL characters, so `strlen` is its length.
  `RTAPP_VERSION` is defined outside this model.
- The hardware side of `cactusphere_pwm.c` is not modelled:
  - the register reads of `Cactusphere_PWM_ReadOutput` and its pin validation (only its
    decode rule is modelled);
  - `PWM_ConfigurePin` of the unseen libpwm, recorded only as an event;
  - the missing return value of `Cactusphere_PWM_WriteOutput`.
- `LibModbus.h` is not modelled: it holds declarations only.
- CInt.Inc32 and CInt.Wrap32: signed overflow of `int` is undefined behaviour in C. At
  `pulseElapsedTime++` (PulseCounter.c:138), `pulseCounter++` (:146), `pulseOnTime++`
  (:152) and `pulseOnTimeS +=` (:154), the model wraps in two's complement and so promises
  nothing a compiler could do differently. The lemmas whose statements reach those
  overflows depend on the wrap:
  - the debounce lemmas that stop short of settling, with `minPulseSetTime` at or above
    2^31 (`HoldBeforeSettle`, `GlitchRejected`, `MaximalMinimumNeverSettles`);
  - the debounce lemmas that settle a run, with `minPulseSetTime` at or above 2^31 - 1,
    where the settling sample takes `pulseElapsedTime` from INT32_MAX to INT32_MIN
    (`HoldSettlesOnce`, `GlitchRecounts`, `FirstSettle`, `InitialHighNotCounted`,
    `InitialLowTimedAsOnTime`);
  - the count lemmas with `maxPulseCounter` at or above 2^31 (`CountStep`, `CountsInRange`,
    `CountsFromZero`, `CountsWrapAround`).
  The on-time lemmas bound the total so that no overflow occurs.
- DoControl.PulseConfig: `pulsePeriod - pulseEffectiveTime` is signed-overflow undefined
  behaviour in C. The model wraps it in two's complement and states the on + off = period
  relation only when no overflow occurs.
- `DoController_SetConfig` and the Snap relation are modelled as no-ops, because that is
  what the source does.
- DoController_Initialize's `defaultState` is a constructor argument. The call in
  `main.c` omits it, so the value the firmware gets is unspecified.
