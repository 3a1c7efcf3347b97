/** Properties of the request dispatcher and of the whole application run as
    an interleaving of 1 ms ticks and requests. */
module RtAppTheory {
  import opened CInt
  import opened CactuspherePwm
  import opened PulseCounting
  import opened DoControl
  import opened DioMsg
  import opened RtApp

  /** The request codes whose case looks up an input channel. */
  predicate DiAddressed(code: UInt32)
  {
    code == DI_SET_CONFIG_AND_START || code == DI_PULSE_COUNT_RESET || code == DI_READ_PULSE_COUNT ||
    code == DI_READ_DUTY_SUM_TIME || code == DI_READ_PIN_LEVEL
  }

  /** The request codes the `switch` has a case for. */
  predicate Handled(code: UInt32)
  {
    DiAddressed(code) || code == DI_READ_PULSE_LEVEL || code == DO_SET_CONFIG || code == DIO_READ_VERSION
  }

  // ---------------------------------------------------------------------
  // One request

  /** A pin-addressed request whose pin id matches no input channel replies
      NG and changes nothing. */
  lemma UnresolvedInputPinRepliesNG(di: seq<CounterState>, doPins: seq<Int32>, version: string, msg: DriverMsg)
    requires |version| < VERSION_SIZE
    requires DiAddressed(msg.header.requestCode)
    requires AsSigned(AddressedPin(msg)) !in DiPins(di)
    ensures Dispatched(di, doPins, version, msg) == Outcome(di, SendInt(NG))
  {
  }

  /** DO_SET_CONFIG replies NG exactly when its pin id matches no output
      channel, and never changes anything. */
  lemma DoConfigRepliesNGOnlyWhenUnresolved(di: seq<CounterState>, doPins: seq<Int32>, version: string,
                                             msg: DriverMsg)
    requires |version| < VERSION_SIZE
    requires msg.header.requestCode == DO_SET_CONFIG
    ensures Dispatched(di, doPins, version, msg).di == di
    ensures Dispatched(di, doPins, version, msg).reply ==
      (if AsSigned(msg.body.setDOConfig.pinId) in doPins then NoReply else SendInt(NG))
  {
  }

  /** A request code without a case, among them DO_SET_TRIGGER and
      DO_TRIGGER_IMMEDIATE, replies NG and changes nothing. */
  lemma UnknownCodeRepliesNG(di: seq<CounterState>, doPins: seq<Int32>, version: string, msg: DriverMsg)
    requires |version| < VERSION_SIZE
    requires !Handled(msg.header.requestCode)
    ensures Dispatched(di, doPins, version, msg) == Outcome(di, SendInt(NG))
  {
  }

  /** The trigger requests have no case. */
  lemma TriggerRequestsUnhandled()
    ensures !Handled(DO_SET_TRIGGER) && !Handled(DO_TRIGGER_IMMEDIATE)
  {
  }

  /** Only DI_SET_CONFIG_AND_START and DI_PULSE_COUNT_RESET change state; a
      request changes at most the one channel its pin id resolves to, and
      no request rebinds a channel to another pin. */
  lemma AtMostAddressedChannelChanges(di: seq<CounterState>, doPins: seq<Int32>, version: string, msg: DriverMsg)
    requires |version| < VERSION_SIZE
    ensures var r := Dispatched(di, doPins, version, msg).di;
      |r| == |di| && DiPins(r) == DiPins(di) &&
      (forall j :: 0 <= j < |di| && j != FirstIndexOf(DiPins(di), AsSigned(AddressedPin(msg))) ==> r[j] == di[j])
    ensures msg.header.requestCode != DI_SET_CONFIG_AND_START && msg.header.requestCode != DI_PULSE_COUNT_RESET ==>
      Dispatched(di, doPins, version, msg).di == di
  {
    var r := Dispatched(di, doPins, version, msg).di;
    assert |r| == |di|;
    assert DiPins(r) == DiPins(di);
  }

  /** The one request that is not answered: DO_SET_CONFIG on a known output
      pin. */
  lemma NoReplyExactlyForKnownDoConfig(di: seq<CounterState>, doPins: seq<Int32>, version: string, msg: DriverMsg)
    requires |version| < VERSION_SIZE
    ensures Dispatched(di, doPins, version, msg).reply == NoReply <==>
      msg.header.requestCode == DO_SET_CONFIG && AsSigned(msg.body.setDOConfig.pinId) in doPins
  {
  }

  /** DI_SET_CONFIG_AND_START on a known pin configures exactly the first
      channel bound to it and replies OK; the `uint32_t` limits of the message
      reach the channel's `uint32_t` fields unchanged through the `int`
      parameters. */
  lemma SetConfigOnKnownPin(di: seq<CounterState>, doPins: seq<Int32>, version: string, msg: DriverMsg)
    requires |version| < VERSION_SIZE
    requires msg.header.requestCode == DI_SET_CONFIG_AND_START
    requires AsSigned(msg.body.setConfig.pinId) in DiPins(di)
    ensures var k := FirstIndexOf(DiPins(di), AsSigned(msg.body.setConfig.pinId));
      var r := Dispatched(di, doPins, version, msg);
      var m := msg.body.setConfig;
      r.reply == SendInt(OK) && di[k].pinId == AsSigned(m.pinId) &&
      r.di[k].minPulseSetTime == m.minPulseWidth && r.di[k].maxPulseCounter == m.maxPulseCount &&
      r.di[k].isCountHight == m.isPulseHigh && r.di[k].isStart &&
      r.di[k].pulseCounter == di[k].pulseCounter && r.di[k].pulseOnTimeS == di[k].pulseOnTimeS
  {
    UnsignedSignedRoundTrip(msg.body.setConfig.minPulseWidth);
    UnsignedSignedRoundTrip(msg.body.setConfig.maxPulseCount);
  }

  /** DI_PULSE_COUNT_RESET on a known pin overwrites the count of exactly
      the first channel bound to it with the message's value (as `int`),
      zeroes its on-time, keeps its run status and replies 1. */
  lemma ResetOnKnownPin(di: seq<CounterState>, doPins: seq<Int32>, version: string, msg: DriverMsg)
    requires |version| < VERSION_SIZE
    requires msg.header.requestCode == DI_PULSE_COUNT_RESET
    requires AsSigned(msg.body.resetPulseCount.pinId) in DiPins(di)
    ensures var k := FirstIndexOf(DiPins(di), AsSigned(msg.body.resetPulseCount.pinId));
      var r := Dispatched(di, doPins, version, msg);
      r.reply == SendInt(1) &&
      r.di[k].pulseCounter == AsSigned(msg.body.resetPulseCount.initVal) &&
      AsUnsigned(r.di[k].pulseCounter) == msg.body.resetPulseCount.initVal &&
      r.di[k].pulseOnTime == 0 && r.di[k].pulseOnTimeS == 0 && r.di[k].isStart == di[k].isStart
  {
    UnsignedSignedRoundTrip(msg.body.resetPulseCount.initVal);
  }

  /** The three single-pin reads reply with the resolved channel's count,
      whole on-time seconds, or debounced level as 0 or 1. */
  lemma ReadRepliesReportChannel(di: seq<CounterState>, doPins: seq<Int32>, version: string, msg: DriverMsg)
    requires |version| < VERSION_SIZE
    requires var c := msg.header.requestCode;
      c == DI_READ_PULSE_COUNT || c == DI_READ_DUTY_SUM_TIME || c == DI_READ_PIN_LEVEL
    requires AsSigned(msg.body.pinId.pinId) in DiPins(di)
    ensures var k := FirstIndexOf(DiPins(di), AsSigned(msg.body.pinId.pinId));
      var r := Dispatched(di, doPins, version, msg).reply;
      var c := msg.header.requestCode;
      di[k].pinId == AsSigned(msg.body.pinId.pinId) &&
      (c == DI_READ_PULSE_COUNT ==> r == SendInt(di[k].pulseCounter)) &&
      (c == DI_READ_DUTY_SUM_TIME ==> r == SendInt(di[k].pulseOnTimeS)) &&
      (c == DI_READ_PIN_LEVEL ==> r.SendInt? && (r.value == 1 <==> di[k].currentState) &&
                                  (r.value == 0 <==> !di[k].currentState))
  {
  }

  /** DI_READ_PULSE_LEVEL replies OK with each channel's last raw sample, in
      array order, and a message length of 4; for the two channels of the
      application the levels fit the four-entry buffer. */
  lemma PulseLevelReply(di: seq<CounterState>, doPins: seq<Int32>, version: string, msg: DriverMsg)
    requires |version| < VERSION_SIZE
    requires msg.header.requestCode == DI_READ_PULSE_LEVEL
    ensures var r := Dispatched(di, doPins, version, msg).reply;
      r.SendReadData? && r.data.returnCode == 1 && r.data.messageLen == 4 &&
      r.data.message.Levels? && |r.data.message.levels| == |di| &&
      (forall i :: 0 <= i < |di| ==> r.data.message.levels[i] == di[i].prevState)
    ensures |di| == NUM_DI ==> |Dispatched(di, doPins, version, msg).reply.data.message.levels| <= LEVELS_SIZE
  {
  }

  /** DIO_READ_VERSION replies OK with the version string and its length,
      which fits the 256-byte buffer. */
  lemma VersionReply(di: seq<CounterState>, doPins: seq<Int32>, version: string, msg: DriverMsg)
    requires |version| < VERSION_SIZE
    requires msg.header.requestCode == DIO_READ_VERSION
    ensures var r := Dispatched(di, doPins, version, msg).reply;
      r == SendReadData(ReturnMsg(1, |version|, Version(version))) && r.data.messageLen < VERSION_SIZE
  {
  }

  // ---------------------------------------------------------------------
  // The whole application

  /** Something that happens to the application: a 1 ms tick, with the
      levels of the GPIO pins during it, or a request from the high-level
      application. */
  datatype Event = Tick(pinLevel: Int32 -> bool) | Request(msg: DriverMsg)

  /** The channels of the application. */
  datatype Sys = Sys(di: seq<CounterState>, dos: seq<DoState>)

  /** `RTCoreMain`'s channels before the first event. */
  function Boot(doDefault0: bool, doDefault1: bool): Sys
  {
    Sys([Initialized(DIPIN_0), Initialized(DIPIN_1)],
        [DoInitialized(DOPIN_0, doDefault0), DoInitialized(DOPIN_1, doDefault1)])
  }

  /** The PWM calls of a tick of all output channels, in index order. */
  function TickWrites(steps: seq<DoStep>): seq<PwmEvent>
    decreases |steps|
  {
    if steps == [] then [] else steps[0].writes + TickWrites(steps[1..])
  }

  /** The output channels after a tick. */
  function TickNext(steps: seq<DoStep>): (r: seq<DoState>)
    ensures |r| == |steps|
  {
    seq(|steps|, i requires 0 <= i < |steps| => steps[i].next)
  }

  /** One event: the channels afterwards, the PWM calls made and the
      replies sent. */
  function SysStep(s: Sys, version: string, e: Event): (Sys, seq<PwmEvent>, seq<Reply>)
    requires |version| < VERSION_SIZE
  {
    match e
    case Tick(pinLevel) =>
      var steps := ScanDo(s.dos, pinLevel);
      (Sys(ScanDi(s.di, pinLevel), TickNext(steps)), TickWrites(steps), [])
    case Request(msg) =>
      var o := Dispatched(s.di, DoPins(s.dos), version, msg);
      (Sys(o.di, s.dos), [], [o.reply])
  }

  /** The channels after a sequence of events. */
  function RunSys(s: Sys, version: string, events: seq<Event>): Sys
    requires |version| < VERSION_SIZE
    decreases |events|
  {
    if events == [] then s else RunSys(SysStep(s, version, events[0]).0, version, events[1..])
  }

  /** The PWM calls made during a sequence of events. */
  function RunWrites(s: Sys, version: string, events: seq<Event>): seq<PwmEvent>
    requires |version| < VERSION_SIZE
    decreases |events|
  {
    if events == [] then []
    else
      var (t, w, _) := SysStep(s, version, events[0]);
      w + RunWrites(t, version, events[1..])
  }

  /** No output channel is running. */
  predicate AllStopped(dos: seq<DoState>)
  {
    forall i :: 0 <= i < |dos| ==> !dos[i].isStart
  }

  /** A tick of stopped output channels changes none and writes nothing. */
  lemma StoppedOutputsIgnoreTick(dos: seq<DoState>, pinLevel: Int32 -> bool)
    requires AllStopped(dos)
    ensures TickNext(ScanDo(dos, pinLevel)) == dos
    ensures TickWrites(ScanDo(dos, pinLevel)) == []
  {
    StoppedWriteNothing(ScanDo(dos, pinLevel));
  }

  lemma {:induction false} StoppedWriteNothing(steps: seq<DoStep>)
    requires forall i :: 0 <= i < |steps| ==> steps[i].writes == []
    ensures TickWrites(steps) == []
    decreases |steps|
  {
    if steps != [] {
      StoppedWriteNothing(steps[1..]);
    }
  }

  /** Nothing that can happen to the application starts an output channel:
      from output channels that are stopped, as `RTCoreMain` leaves them,
      they never change and no PWM call is ever made, whatever the ticks and
      requests. */
  lemma {:induction false} OutputsNeverRun(s: Sys, version: string, events: seq<Event>)
    requires |version| < VERSION_SIZE
    requires AllStopped(s.dos)
    ensures RunSys(s, version, events).dos == s.dos
    ensures RunWrites(s, version, events) == []
    decreases |events|
  {
    if events != [] {
      var t := SysStep(s, version, events[0]);
      match events[0] {
        case Tick(pinLevel) => StoppedOutputsIgnoreTick(s.dos, pinLevel);
        case Request(msg) =>
      }
      assert t.0.dos == s.dos && t.1 == [];
      OutputsNeverRun(t.0, version, events[1..]);
    }
  }

  /** Input channels stay bound to their pins: after any events, every
      pin-addressed request resolves to the same channel as before. */
  lemma {:induction false} PinsAreStable(s: Sys, version: string, events: seq<Event>)
    requires |version| < VERSION_SIZE
    ensures DiPins(RunSys(s, version, events).di) == DiPins(s.di)
    ensures DoPins(RunSys(s, version, events).dos) == DoPins(s.dos)
    decreases |events|
  {
    if events != [] {
      var t := SysStep(s, version, events[0]).0;
      match events[0] {
        case Tick(pinLevel) =>
          assert DiPins(t.di) == DiPins(s.di);
          assert DoPins(t.dos) == DoPins(s.dos);
        case Request(msg) =>
          AtMostAddressedChannelChanges(s.di, DoPins(s.dos), version, msg);
      }
      PinsAreStable(t, version, events[1..]);
    }
  }

  /** After boot, input pins 12 and 15 and output pins 0 and 8 resolve to
      channels 0 and 1, whatever has happened since; every other pin id
      resolves to none. */
  lemma BootPinsResolve(doDefault0: bool, doDefault1: bool, version: string, events: seq<Event>, p: Int32)
    requires |version| < VERSION_SIZE
    ensures var s := RunSys(Boot(doDefault0, doDefault1), version, events);
      FirstIndexOf(DiPins(s.di), p) == (if p == DIPIN_0 then 0 else if p == DIPIN_1 then 1 else -1) &&
      FirstIndexOf(DoPins(s.dos), p) == (if p == DOPIN_0 then 0 else if p == DOPIN_1 then 1 else -1)
  {
    var b := Boot(doDefault0, doDefault1);
    PinsAreStable(b, version, events);
    assert DiPins(b.di) == [DIPIN_0, DIPIN_1];
    assert DoPins(b.dos) == [DOPIN_0, DOPIN_1];
  }

  /** The booted application never drives its digital outputs. */
  lemma BootedOutputsNeverRun(doDefault0: bool, doDefault1: bool, version: string, events: seq<Event>)
    requires |version| < VERSION_SIZE
    ensures RunSys(Boot(doDefault0, doDefault1), version, events).dos == Boot(doDefault0, doDefault1).dos
    ensures RunWrites(Boot(doDefault0, doDefault1), version, events) == []
  {
    OutputsNeverRun(Boot(doDefault0, doDefault1), version, events);
  }
}
