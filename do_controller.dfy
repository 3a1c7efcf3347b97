/** The digital-output controller of PulseCounter.c: a trigger, an optional
    delay, a one-shot action from a function/relation table, and an optional
    bounded drive time after which the output returns to its default. */
module DoControl {
  import opened CInt
  import opened CactuspherePwm

  /** `FunctionType` of PulseCounter.h. */
  datatype FunctionType = NotSelected | Single | Pulse | Relation

  /** `RelationType` of PulseCounter.h. */
  datatype RelationType = NotSelected | Drive | Invert | Interlock | InterlockInvert | Snap | Pulse | PWM

  /** `PulseClock` of PulseCounter.h; `Hz` gives the enumerator's value. */
  datatype PulseClock = ClockNone | Clock32KHz | Clock2MHz | ClockXtal
  {
    function Hz(): (hz: int)
      ensures hz == 0 <==> this == ClockNone
    {
      match this
      case ClockNone => 0
      case Clock32KHz => 32768
      case Clock2MHz => 2000000
      case ClockXtal => 26000000
    }
  }

  /** `FunctionStatus` of PulseCounter.h. */
  datatype FunctionStatus = None | Enable | Started | Disable

  /** The whole record `DoController` of PulseCounter.h, as a value. */
  datatype DoState = DoState(
    pinId: Int32,
    defaultState: bool,
    driveState: bool,
    driveCertainEnable: bool,
    delayEnable: bool,
    flagDriveTime: bool,
    flagDelay: bool,
    driveTime: Int32,
    driveElapsedTime: Int32,
    delayTime: Int32,
    delayElapsedTime: Int32,
    triggerActived: bool,
    pulseEffectiveTime: Int32,
    pulsePeriod: Int32,
    pulseClock: PulseClock,
    functionStatus: FunctionStatus,
    functionType: FunctionType,
    relationType: RelationType,
    relationPort: Int32,
    isStart: bool)

  /** The state after one period, and the PWM calls made during it. */
  datatype DoStep = DoStep(next: DoState, writes: seq<PwmEvent>)

  /** `DoController_Initialize(me, pin, defaultState)` applied to the
      zero-filled static record, so `isStart` (which it does not set) is
      false. */
  function DoInitialized(pin: Int32, defaultState: bool): DoState
  {
    DoState(pin, defaultState, false, false, false, false, false, 0, 0, 0, 0, false,
            0, 0, Clock32KHz, FunctionStatus.None, FunctionType.NotSelected,
            RelationType.NotSelected, -1, false)
  }

  /** The PWM waveform call of the Pulse function and of the Pulse and PWM
      relations: on for `pulseEffectiveTime`, off for the rest of the period. */
  function PulseConfig(s: DoState): (e: PwmEvent)
    ensures e.pin == s.pinId && e.clock == Frequency(s.pulseClock.Hz())
    ensures e.onTime == s.pulseEffectiveTime
    ensures INT32_MIN <= s.pulsePeriod - s.pulseEffectiveTime <= INT32_MAX ==>
      e.onTime + e.offTime == s.pulsePeriod
  {
    ConfigurePin(s.pinId, Frequency(s.pulseClock.Hz()), s.pulseEffectiveTime,
                 Wrap32(s.pulsePeriod - s.pulseEffectiveTime))
  }

  /** The action table run when the function has not started yet;
      `relationLevel` is the raw level read from `relationPort`. */
  function StartAction(s: DoState, relationLevel: bool): seq<PwmEvent>
  {
    if s.functionType == FunctionType.Relation then
      match s.relationType
      case Drive => [WriteOutput(s.pinId, s.driveState)]
      case Invert => [WriteOutput(s.pinId, !relationLevel)]
      case Interlock => [WriteOutput(s.pinId, relationLevel)]
      case InterlockInvert => [WriteOutput(s.pinId, !relationLevel)]
      case Snap => []
      case Pulse => [PulseConfig(s)]
      case PWM => [PulseConfig(s)]
      case NotSelected => []
    else if s.functionType == FunctionType.Single then
      [WriteOutput(s.pinId, s.driveState)]
    else if s.functionType == FunctionType.Pulse then
      [PulseConfig(s)]
    else
      []
  }

  /** What an already started function does: only the Interlock relations
      rewrite the output, from the relation pin. */
  function StartedAction(s: DoState, relationLevel: bool): seq<PwmEvent>
  {
    if s.functionType == FunctionType.Relation then
      match s.relationType
      case Interlock => [WriteOutput(s.pinId, relationLevel)]
      case InterlockInvert => [WriteOutput(s.pinId, !relationLevel)]
      case _ => []
    else
      []
  }

  /** Step 1 of a period: a pending trigger arms the delay and/or the drive
      time, and is consumed by either. */
  function Arm(s: DoState): DoState
  {
    if s.triggerActived then
      var d := if s.delayEnable then s.(flagDelay := true, delayElapsedTime := 0, triggerActived := false) else s;
      if s.driveCertainEnable then d.(flagDriveTime := true, driveElapsedTime := 0, triggerActived := false) else d
    else
      s
  }

  /** Whether the action branch runs in a period whose delay is not pending. */
  predicate ActionGuard(a: DoState)
  {
    (!a.driveCertainEnable && a.triggerActived) || (a.driveCertainEnable && a.flagDriveTime)
  }

  /** The action branch (lines 234-289): runs the action table unless the
      function has started, where only the Interlock relations act; either way
      the status is `Started` afterwards. */
  function ActionStep(b: DoState, relationLevel: bool): DoStep
  {
    DoStep(b.(functionStatus := Started),
           if b.functionStatus == Started then StartedAction(b, relationLevel) else StartAction(b, relationLevel))
  }

  /** The drive-time countdown: once the elapsed time reaches the drive time
      the output is forced to `defaultState` and the countdown ends. */
  function DriveCountdown(c: DoState): DoStep
  {
    if c.flagDriveTime then
      if c.driveElapsedTime >= c.driveTime then
        DoStep(c.(flagDriveTime := false), [WriteOutput(c.pinId, c.defaultState)])
      else
        DoStep(c.(driveElapsedTime := c.driveElapsedTime + 1), [])
    else
      DoStep(c, [])
  }

  /** The delay countdown: the delay ends on the period where the elapsed
      time has reached the delay time; no action runs in that period. */
  function DelayCountdown(a: DoState): DoState
  {
    if a.delayElapsedTime >= a.delayTime then a.(flagDelay := false)
    else a.(delayElapsedTime := a.delayElapsedTime + 1)
  }

  /** The action branch followed by the drive-time countdown. */
  function Fire(b: DoState, relationLevel: bool): DoStep
  {
    var x := ActionStep(b, relationLevel);
    var y := DriveCountdown(x.next);
    DoStep(y.next, x.writes + y.writes)
  }

  /** `DoController_Controller(me)`: one period, given the raw level of the
      relation pin. */
  function DoTick(s: DoState, relationLevel: bool): DoStep
  {
    var a := Arm(s);
    if a.flagDelay then DoStep(DelayCountdown(a), [])
    else if ActionGuard(a) then Fire(a.(triggerActived := false), relationLevel)
    else DoStep(a, [])
  }

  /** Ticking once per relation-pin level in `levels`, without new triggers. */
  function RunDo(s: DoState, levels: seq<bool>): DoStep
    decreases |levels|
  {
    if levels == [] then DoStep(s, [])
    else
      var first := DoTick(s, levels[0]);
      var rest := RunDo(first.next, levels[1..]);
      DoStep(rest.next, first.writes + rest.writes)
  }

  /** A `DoController` object; the PWM calls it makes are logged in `outputs`. */
  class DoController {
    var pinId: Int32
    var defaultState: bool
    var driveState: bool
    var driveCertainEnable: bool
    var delayEnable: bool
    var flagDriveTime: bool
    var flagDelay: bool
    var driveTime: Int32
    var driveElapsedTime: Int32
    var delayTime: Int32
    var delayElapsedTime: Int32
    var triggerActived: bool
    var pulseEffectiveTime: Int32
    var pulsePeriod: Int32
    var pulseClock: PulseClock
    var functionStatus: FunctionStatus
    var functionType: FunctionType
    var relationType: RelationType
    var relationPort: Int32
    var isStart: bool
    ghost var outputs: seq<PwmEvent>

    /** The object's fields as a value. */
    ghost function State(): DoState
      reads this
    {
      DoState(pinId, defaultState, driveState, driveCertainEnable, delayEnable,
              flagDriveTime, flagDelay, driveTime, driveElapsedTime, delayTime,
              delayElapsedTime, triggerActived, pulseEffectiveTime, pulsePeriod,
              pulseClock, functionStatus, functionType, relationType, relationPort, isStart)
    }

    /** `DoController_Initialize` on the zero-filled static record. */
    constructor (pin: Int32, defaultState: bool)
      ensures State() == DoInitialized(pin, defaultState) && outputs == []
      ensures !isStart && pinId == pin
    {
      pinId := pin;
      this.defaultState := defaultState;
      triggerActived := false;
      driveState := false;
      pulseClock := Clock32KHz;
      pulsePeriod := 0;
      pulseEffectiveTime := 0;
      delayEnable := false;
      flagDelay := false;
      delayTime := 0;
      delayElapsedTime := 0;
      driveCertainEnable := false;
      flagDriveTime := false;
      driveTime := 0;
      driveElapsedTime := 0;
      functionType := FunctionType.NotSelected;
      functionStatus := FunctionStatus.None;
      relationType := RelationType.NotSelected;
      relationPort := -1;
      isStart := false;
      outputs := [];
    }

    /** `DoController_GetPinId`. */
    function GetPinId(): (r: Int32)
      reads this
      ensures r == State().pinId
    {
      pinId
    }

    /** `DoController_SetConfig`: an empty stub; it changes nothing. */
    method SetConfig(isCountHight: bool, minPulse: Int32, maxPulse: Int32)
      ensures State() == old(State()) && outputs == old(outputs)
    {
    }

    /** `DoController_Trigger_Active`: latches the trigger and nothing else. */
    method TriggerActive()
      modifies this
      ensures State() == old(State()).(triggerActived := true) && outputs == old(outputs)
    {
      triggerActived := true;
    }

    /** Lines 212-223 of `DoController_Controller`. */
    method ArmTrigger()
      modifies this
      ensures State() == Arm(old(State())) && outputs == old(outputs)
    {
      if triggerActived {
        if delayEnable {
          flagDelay := true;
          delayElapsedTime := 0;
          triggerActived := false;
        }
        if driveCertainEnable {
          flagDriveTime := true;
          driveElapsedTime := 0;
          triggerActived := false;
        }
      }
    }

    /** Lines 237-251: once started, only the Interlock relations rewrite
        the output. */
    method WriteStartedAction(relationLevel: bool)
      modifies this
      ensures State() == old(State())
      ensures outputs == old(outputs) + StartedAction(old(State()), relationLevel)
    {
      if functionType == FunctionType.Relation {
        match relationType {
          case Interlock =>
            outputs := outputs + [WriteOutput(pinId, relationLevel)];
          case InterlockInvert =>
            outputs := outputs + [WriteOutput(pinId, !relationLevel)];
          case _ =>
        }
      }
    }

    /** Lines 253-287: the action table. */
    method WriteStartAction(relationLevel: bool)
      modifies this
      ensures State() == old(State())
      ensures outputs == old(outputs) + StartAction(old(State()), relationLevel)
    {
      if functionType == FunctionType.Relation {
        match relationType {
          case Drive =>
            outputs := outputs + [WriteOutput(pinId, driveState)];
          case Invert =>
            outputs := outputs + [WriteOutput(pinId, !relationLevel)];
          case Interlock =>
            outputs := outputs + [WriteOutput(pinId, relationLevel)];
          case InterlockInvert =>
            outputs := outputs + [WriteOutput(pinId, !relationLevel)];
          case Snap =>
          case Pulse =>
            outputs := outputs + [ConfigurePin(pinId, Frequency(pulseClock.Hz()), pulseEffectiveTime,
                                               Wrap32(pulsePeriod - pulseEffectiveTime))];
          case PWM =>
            outputs := outputs + [ConfigurePin(pinId, Frequency(pulseClock.Hz()), pulseEffectiveTime,
                                               Wrap32(pulsePeriod - pulseEffectiveTime))];
          case NotSelected =>
        }
      } else if functionType == FunctionType.Single {
        outputs := outputs + [WriteOutput(pinId, driveState)];
      } else if functionType == FunctionType.Pulse {
        outputs := outputs + [ConfigurePin(pinId, Frequency(pulseClock.Hz()), pulseEffectiveTime,
                                           Wrap32(pulsePeriod - pulseEffectiveTime))];
      }
    }

    /** Lines 236-289 of `DoController_Controller`. */
    method RunAction(relationLevel: bool)
      modifies this
      ensures State() == ActionStep(old(State()), relationLevel).next
      ensures outputs == old(outputs) + ActionStep(old(State()), relationLevel).writes
    {
      if functionStatus == Started {
        WriteStartedAction(relationLevel);
      } else {
        WriteStartAction(relationLevel);
        functionStatus := Started;
      }
    }

    /** Lines 290-297 of `DoController_Controller`. */
    method CountDownDriveTime()
      modifies this
      ensures State() == DriveCountdown(old(State())).next
      ensures outputs == old(outputs) + DriveCountdown(old(State())).writes
    {
      if flagDriveTime {
        if driveElapsedTime >= driveTime {
          outputs := outputs + [WriteOutput(pinId, defaultState)];
          flagDriveTime := false;
        } else {
          driveElapsedTime := driveElapsedTime + 1;
        }
      }
    }

    /** Lines 225-230 of `DoController_Controller`. */
    method CountDownDelay()
      modifies this
      ensures State() == DelayCountdown(old(State())) && outputs == old(outputs)
    {
      if delayElapsedTime >= delayTime {
        flagDelay := false;
      } else {
        delayElapsedTime := delayElapsedTime + 1;
      }
    }

    /** Lines 234-297 of `DoController_Controller`. */
    method FireAction(relationLevel: bool)
      modifies this
      ensures State() == Fire(old(State()), relationLevel).next
      ensures outputs == old(outputs) + Fire(old(State()), relationLevel).writes
    {
      RunAction(relationLevel);
      CountDownDriveTime();
    }

    /** `DoController_Controller`: one 1 ms period, given the raw level read
        from `relationPort` (used only by the Invert and Interlock
        relations). */
    method Controller(relationLevel: bool)
      modifies this
      ensures State() == DoTick(old(State()), relationLevel).next
      ensures outputs == old(outputs) + DoTick(old(State()), relationLevel).writes
    {
      ArmTrigger();
      if flagDelay {
        CountDownDelay();
      } else if (!driveCertainEnable && triggerActived) || (driveCertainEnable && flagDriveTime) {
        triggerActived := false;
        FireAction(relationLevel);
      }
    }
  }
}
