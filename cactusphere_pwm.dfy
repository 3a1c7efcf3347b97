/** The hardware output sink of the digital outputs: writes to the PWM block
    are recorded as events, and the read-back decode rule is a function. */
module CactuspherePwm {
  import opened CInt

  /** The clock argument of a PWM configuration: the fixed 32 kHz clock
      selector used for static levels, or a frequency in hertz. */
  datatype PwmClock = ClkSel32K | Frequency(hz: int)

  /** One call of `PWM_ConfigurePin(pin, clock, onTime, offTime)`. */
  datatype PwmEvent = ConfigurePin(pin: Int32, clock: PwmClock, onTime: int, offTime: int)

  /** `Cactusphere_PWM_WriteOutput(pin, state)`: a static level is a PWM
      configuration on the 32 kHz clock with on/off times (1, 0) or (0, 1). */
  function WriteOutput(pin: Int32, state: bool): (e: PwmEvent)
    ensures e.pin == pin && e.clock == ClkSel32K
    ensures e.onTime + e.offTime == 1
  {
    ConfigurePin(pin, ClkSel32K, if state then 1 else 0, if state then 0 else 1)
  }

  /** The decode rule of `Cactusphere_PWM_ReadOutput`: a disabled channel reads
      low, an enabled one reads high exactly when its on time exceeds its off
      time. */
  function DecodeOutput(pwmEnable: bool, onTime: int, offTime: int): (level: bool)
    ensures level <==> pwmEnable && onTime > offTime
  {
    if !pwmEnable then false
    else if onTime > offTime then true
    else false
  }

  /** A level written with `WriteOutput` reads back as the same level. */
  lemma WriteThenReadBack(pin: Int32, state: bool)
    ensures DecodeOutput(true, WriteOutput(pin, state).onTime, WriteOutput(pin, state).offTime) == state
  {
  }
}
