/** The digital-input pulse counter of PulseCounter.c: a 1 ms polled channel
    that debounces edges, counts edges of one polarity with wrap-around at a
    configured maximum, and accumulates the time the input is held high. */
module PulseCounting {
  import opened CInt

  /** The whole record `PulseCounter` of PulseCounter.h, as a value. */
  datatype CounterState = CounterState(
    pinId: Int32,             // DIn pin number
    pulseCounter: Int32,      // pulse counter value
    pulseOnTime: Int32,       // accumulated high time, milliseconds part
    pulseOnTimeS: Int32,      // accumulated high time, seconds part
    pulseElapsedTime: Int32,  // length of the current run of equal samples
    minPulseSetTime: UInt32,  // a run must be longer than this to settle
    maxPulseCounter: UInt32,  // the count wraps after this value
    isCountHight: bool,       // count high pulses (true) or low pulses (false)
    prevState: bool,          // last raw sample
    currentState: bool,       // debounced level
    isSetPulse: bool,         // the current run has settled
    isRising: bool,           // the last raw transition was low to high
    isStart: bool)            // the channel is ticked

  /** `PulseCounter_Initialize(me, pin)`. */
  function Initialized(pin: Int32): CounterState
  {
    CounterState(pin, 0, 0, 0, 0, 0, 0, true, false, false, false, false, false)
  }

  /** `PulseCounter_SetConfigCounter(me, isCountHight, minPulse, maxPulse)`:
      the two `int` limits are stored into `uint32_t` fields. */
  function Configured(s: CounterState, isCountHight: bool, minPulse: Int32, maxPulse: Int32): CounterState
  {
    s.(isCountHight := isCountHight,
       minPulseSetTime := AsUnsigned(minPulse),
       maxPulseCounter := AsUnsigned(maxPulse),
       prevState := isCountHight,
       isRising := !isCountHight,
       isStart := true)
  }

  /** `PulseCounter_Clear(me, initValue)`. The stop and conditional restart
      around the body leave `isStart` as it was. */
  function Cleared(s: CounterState, initValue: Int32): CounterState
  {
    s.(pulseCounter := initValue,
       prevState := s.isCountHight,
       isRising := !s.isCountHight,
       pulseOnTime := 0,
       pulseOnTimeS := 0,
       pulseElapsedTime := 0,
       isSetPulse := false)
  }

  /** The settled run counts when its edge direction matches the configured
      polarity. */
  predicate Qualifies(s: CounterState)
  {
    (s.isRising && s.isCountHight) || (!s.isRising && !s.isCountHight)
  }

  /** The counter update on a qualifying settlement: reset to 0 when the
      counter (converted to `uint32_t` for the comparison) has reached the
      maximum, then increment. */
  function CountStep(count: Int32, max: UInt32): (r: Int32)
    ensures AsUnsigned(r) == if AsUnsigned(count) >= max then 1 else AsUnsigned(count) + 1
    ensures max >= 1 ==> 1 <= AsUnsigned(r) <= max
    ensures max == 0 ==> r == 1
  {
    var c := if AsUnsigned(count) >= max then 0 else count;
    Inc32(c)
  }

  /** On a settled high run: one more millisecond, carried into seconds once
      the millisecond part exceeds 1000. */
  function OnTimeStep(s: CounterState): CounterState
  {
    var ms := Inc32(s.pulseOnTime);
    if ms > 1000 then
      s.(pulseOnTimeS := Wrap32(s.pulseOnTimeS + ms / 1000), pulseOnTime := ms % 1000)
    else
      s.(pulseOnTime := ms)
  }

  /** `PulseCounter_Counter(me)` given the raw pin level `newState` read this
      period. */
  function CounterTick(s: CounterState, newState: bool): CounterState
  {
    if newState != s.prevState then
      s.(pulseElapsedTime := 0,
         isSetPulse := false,
         isRising := !s.prevState,
         prevState := newState)
    else if !s.isSetPulse then
      var elapsed := Inc32(s.pulseElapsedTime);
      if AsUnsigned(elapsed) > s.minPulseSetTime then
        s.(currentState := s.prevState,
           pulseCounter := if Qualifies(s) then CountStep(s.pulseCounter, s.maxPulseCounter) else s.pulseCounter,
           pulseElapsedTime := 0,
           isSetPulse := true)
      else
        s.(pulseElapsedTime := elapsed)
    else if s.isRising then
      OnTimeStep(s)
    else
      s
  }

  /** The state after ticking once per element of `levels`, in order. */
  function Run(s: CounterState, levels: seq<bool>): CounterState
    decreases |levels|
  {
    if levels == [] then s else Run(CounterTick(s, levels[0]), levels[1..])
  }

  /** `k` equal raw samples. */
  function Constant(level: bool, k: nat): (r: seq<bool>)
    ensures |r| == k && forall i :: 0 <= i < k ==> r[i] == level
  {
    seq(k, _ => level)
  }

  /** A `PulseCounter` object, ticked in place. */
  class PulseCounter {
    var pinId: Int32
    var pulseCounter: Int32
    var pulseOnTime: Int32
    var pulseOnTimeS: Int32
    var pulseElapsedTime: Int32
    var minPulseSetTime: UInt32
    var maxPulseCounter: UInt32
    var isCountHight: bool
    var prevState: bool
    var currentState: bool
    var isSetPulse: bool
    var isRising: bool
    var isStart: bool

    /** The object's fields as a value. */
    ghost function State(): CounterState
      reads this
    {
      CounterState(pinId, pulseCounter, pulseOnTime, pulseOnTimeS, pulseElapsedTime,
                   minPulseSetTime, maxPulseCounter, isCountHight, prevState,
                   currentState, isSetPulse, isRising, isStart)
    }

    /** `PulseCounter_Initialize`: bound to `pin`, everything zeroed, stopped,
        counting high pulses. */
    constructor (pin: Int32)
      ensures State() == Initialized(pin)
      ensures pinId == pin && !isStart && pulseCounter == 0 && pulseOnTimeS == 0
    {
      pinId := pin;
      isCountHight := true;
      prevState := false;
      currentState := false;
      pulseCounter := 0;
      pulseOnTime := 0;
      isSetPulse := false;
      minPulseSetTime := 0;
      pulseElapsedTime := 0;
      isRising := false;
      maxPulseCounter := 0;
      isStart := false;
      pulseOnTimeS := 0;
    }

    /** `PulseCounter_GetPinId`. */
    function GetPinId(): (r: Int32)
      reads this
      ensures r == State().pinId
    {
      pinId
    }

    /** `PulseCounter_GetPulseCount`: the counter value. */
    function GetPulseCount(): (r: Int32)
      reads this
      ensures r == State().pulseCounter
    {
      pulseCounter
    }

    /** `PulseCounter_GetPulseOnTime`: whole seconds of accumulated high time
        (the millisecond part is not reported). */
    function GetPulseOnTime(): (r: Int32)
      reads this
      ensures r == State().pulseOnTimeS
    {
      pulseOnTimeS
    }

    /** `PulseCounter_GetLevel`: the last raw sample, not the debounced level. */
    function GetLevel(): (r: bool)
      reads this
      ensures r == State().prevState
    {
      prevState
    }

    /** `PulseCounter_GetPinLevel`: the debounced level. */
    function GetPinLevel(): (r: bool)
      reads this
      ensures r == State().currentState
    {
      currentState
    }

    /** `PulseCounter_SetConfigCounter`: installs the configuration, sets the
        debounce baseline from the polarity and starts the channel; count,
        on-time, elapsed time and the settled flag are left as they were. */
    method SetConfigCounter(isCountHight: bool, minPulse: Int32, maxPulse: Int32)
      modifies this
      ensures State() == Configured(old(State()), isCountHight, minPulse, maxPulse)
    {
      this.isCountHight := isCountHight;
      minPulseSetTime := AsUnsigned(minPulse);
      maxPulseCounter := AsUnsigned(maxPulse);
      prevState := isCountHight;
      isRising := !isCountHight;
      isStart := true;
    }

    /** `PulseCounter_Clear`: overwrites the count, clears debounce and on-time
        state, and restarts only a channel that was running. */
    method Clear(initValue: Int32)
      modifies this
      ensures State() == Cleared(old(State()), initValue)
    {
      var prevIsStart := isStart;
      isStart := false;
      pulseCounter := initValue;
      prevState := isCountHight;
      isRising := !isCountHight;
      pulseOnTime := 0;
      pulseOnTimeS := 0;
      pulseElapsedTime := 0;
      isSetPulse := false;
      if prevIsStart {
        isStart := true;
      }
    }

    /** `PulseCounter_Counter`: one polling period, given the raw level read
        from the pin. */
    method Counter(newState: bool)
      modifies this
      ensures State() == CounterTick(old(State()), newState)
    {
      if newState != prevState {
        pulseElapsedTime := 0;
        isSetPulse := false;
        if !prevState {
          isRising := true;
        } else {
          isRising := false;
        }
        prevState := newState;
      } else {
        if !isSetPulse {
          pulseElapsedTime := Inc32(pulseElapsedTime);
          if AsUnsigned(pulseElapsedTime) > minPulseSetTime {
            currentState := prevState;
            if (isRising && isCountHight) || (!isRising && !isCountHight) {
              if AsUnsigned(pulseCounter) >= maxPulseCounter {
                pulseCounter := 0;
              }
              pulseCounter := Inc32(pulseCounter);
            }
            pulseElapsedTime := 0;
            isSetPulse := true;
          }
        } else if isRising {
          pulseOnTime := Inc32(pulseOnTime);
          if pulseOnTime > 1000 {
            pulseOnTimeS := Wrap32(pulseOnTimeS + pulseOnTime / 1000);
            pulseOnTime := pulseOnTime % 1000;
          }
        }
      }
    }
  }
}
