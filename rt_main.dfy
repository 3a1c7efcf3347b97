/** The real-time DIO application of main.c: two pulse counters and two
    digital-output controllers in fixed arrays, the 1 ms tick that runs them,
    the lookup of a channel by pin id, and the request dispatcher. */
module RtApp {
  import opened CInt
  import opened CactuspherePwm
  import opened PulseCounting
  import opened DoControl
  import opened DioMsg

  const NUM_DI := 2
  const NUM_DO := 2
  const OK: Int32 := 1
  const NG: Int32 := -1
  const DIPIN_0: Int32 := 12
  const DIPIN_1: Int32 := 15
  const DOPIN_0: Int32 := 0
  const DOPIN_1: Int32 := 8

  // ---------------------------------------------------------------------
  // Lookup

  /** The index of the first occurrence of `p` in `ids`, or -1. */
  function FirstIndexOf(ids: seq<Int32>, p: Int32): (r: int)
    ensures -1 <= r < |ids|
    ensures r == -1 <==> p !in ids
    ensures 0 <= r ==> ids[r] == p && p !in ids[..r]
    decreases |ids|
  {
    if ids == [] then -1
    else if ids[0] == p then 0
    else
      var k := FirstIndexOf(ids[1..], p);
      if k < 0 then -1
      else
        assert ids[..k + 1] == [ids[0]] + ids[1..][..k];
        k + 1
  }

  /** The pin ids of the input channels, in array order. */
  function DiPins(di: seq<CounterState>): (pins: seq<Int32>)
    ensures |pins| == |di| && forall i :: 0 <= i < |di| ==> pins[i] == di[i].pinId
  {
    seq(|di|, i requires 0 <= i < |di| => di[i].pinId)
  }

  /** The pin ids of the output channels, in array order. */
  function DoPins(dos: seq<DoState>): (pins: seq<Int32>)
    ensures |pins| == |dos| && forall i :: 0 <= i < |dos| ==> pins[i] == dos[i].pinId
  {
    seq(|dos|, i requires 0 <= i < |dos| => dos[i].pinId)
  }

  // ---------------------------------------------------------------------
  // The 1 ms tick

  /** One input channel during a tick: ticked with its pin's level when
      running, left alone otherwise. */
  function DiScanned(s: CounterState, pinLevel: Int32 -> bool): CounterState
  {
    if s.isStart then CounterTick(s, pinLevel(s.pinId)) else s
  }

  /** One output channel during a tick, with the PWM calls it makes. */
  function DoScanned(s: DoState, pinLevel: Int32 -> bool): DoStep
  {
    if s.isStart then DoTick(s, pinLevel(s.relationPort)) else DoStep(s, [])
  }

  /** All input channels after a tick. */
  function ScanDi(di: seq<CounterState>, pinLevel: Int32 -> bool): (r: seq<CounterState>)
    ensures |r| == |di|
  {
    seq(|di|, i requires 0 <= i < |di| => DiScanned(di[i], pinLevel))
  }

  /** All output channels after a tick, with their PWM calls. */
  function ScanDo(dos: seq<DoState>, pinLevel: Int32 -> bool): (r: seq<DoStep>)
    ensures |r| == |dos|
  {
    seq(|dos|, i requires 0 <= i < |dos| => DoScanned(dos[i], pinLevel))
  }

  // ---------------------------------------------------------------------
  // The request dispatcher, case by case

  /** The outcome of one request: the input channels afterwards and the
      reply. No request changes an output channel. */
  datatype Outcome = Outcome(di: seq<CounterState>, reply: Reply)

  /** DI_SET_CONFIG_AND_START. The `uint32_t` fields of the message are
      passed as `int` arguments. */
  function SetConfigOutcome(di: seq<CounterState>, m: DiMsgSetConfig): Outcome
  {
    var k := FirstIndexOf(DiPins(di), AsSigned(m.pinId));
    if k < 0 then Outcome(di, SendInt(NG))
    else Outcome(di[k := Configured(di[k], m.isPulseHigh, AsSigned(m.minPulseWidth), AsSigned(m.maxPulseCount))],
                 SendInt(OK))
  }

  /** DO_SET_CONFIG: a lookup only; a known pin gets no reply at all. */
  function SetDoConfigOutcome(di: seq<CounterState>, doPins: seq<Int32>, m: DoMsgSetConfig): Outcome
  {
    if FirstIndexOf(doPins, AsSigned(m.pinId)) < 0 then Outcome(di, SendInt(NG)) else Outcome(di, NoReply)
  }

  /** DI_PULSE_COUNT_RESET. */
  function ResetOutcome(di: seq<CounterState>, m: DioMsgResetPulseCount): Outcome
  {
    var k := FirstIndexOf(DiPins(di), AsSigned(m.pinId));
    if k < 0 then Outcome(di, SendInt(NG))
    else Outcome(di[k := Cleared(di[k], AsSigned(m.initVal))], SendInt(1))
  }

  /** DI_READ_PULSE_COUNT, DI_READ_DUTY_SUM_TIME and DI_READ_PIN_LEVEL: the
      addressed channel's count, whole on-time seconds, or debounced level
      as 0/1. */
  function ReadOutcome(di: seq<CounterState>, code: UInt32, m: DioMsgPinId): Outcome
  {
    var k := FirstIndexOf(DiPins(di), AsSigned(m.pinId));
    if k < 0 then Outcome(di, SendInt(NG))
    else if code == DI_READ_PULSE_COUNT then Outcome(di, SendInt(di[k].pulseCounter))
    else if code == DI_READ_DUTY_SUM_TIME then Outcome(di, SendInt(di[k].pulseOnTimeS))
    else Outcome(di, SendInt(if di[k].currentState then 1 else 0))
  }

  /** DI_READ_PULSE_LEVEL: the last raw sample of every input channel. */
  function PulseLevelOutcome(di: seq<CounterState>): Outcome
  {
    Outcome(di, SendReadData(ReturnMsg(OK as UInt32, LEVELS_SIZE,
                                       Levels(seq(|di|, i requires 0 <= i < |di| => di[i].prevState)))))
  }

  /** DIO_READ_VERSION. */
  function VersionOutcome(di: seq<CounterState>, version: string): Outcome
    requires |version| < VERSION_SIZE
  {
    Outcome(di, SendReadData(ReturnMsg(OK as UInt32, |version|, Version(version))))
  }

  /** One pass of the main loop's `switch` for request `msg`. */
  function Dispatched(di: seq<CounterState>, doPins: seq<Int32>, version: string, msg: DriverMsg): Outcome
    requires |version| < VERSION_SIZE
  {
    var code := msg.header.requestCode;
    if code == DI_SET_CONFIG_AND_START then SetConfigOutcome(di, msg.body.setConfig)
    else if code == DO_SET_CONFIG then SetDoConfigOutcome(di, doPins, msg.body.setDOConfig)
    else if code == DI_PULSE_COUNT_RESET then ResetOutcome(di, msg.body.resetPulseCount)
    else if code == DI_READ_PULSE_COUNT || code == DI_READ_DUTY_SUM_TIME || code == DI_READ_PIN_LEVEL then
      ReadOutcome(di, code, msg.body.pinId)
    else if code == DI_READ_PULSE_LEVEL then PulseLevelOutcome(di)
    else if code == DIO_READ_VERSION then VersionOutcome(di, version)
    else Outcome(di, SendInt(NG))
  }

  // ---------------------------------------------------------------------
  // The application

  /** The static channel arrays of main.c and the version string. */
  class RtCore {
    const sPulseCounter: array<PulseCounter>
    const sDoController: array<DoController>
    const version: string

    /** Fixed array sizes, distinct channel objects, and a version string
        that fits the reply buffer. */
    ghost predicate Valid()
      reads this, sPulseCounter, sDoController
    {
      sPulseCounter.Length == NUM_DI && sDoController.Length == NUM_DO &&
      (forall i, j :: 0 <= i < j < sPulseCounter.Length ==> sPulseCounter[i] != sPulseCounter[j]) &&
      (forall i, j :: 0 <= i < j < sDoController.Length ==> sDoController[i] != sDoController[j]) &&
      |version| < VERSION_SIZE
    }

    ghost function DiObjects(): set<PulseCounter>
      reads this, sPulseCounter
    {
      set i | 0 <= i < sPulseCounter.Length :: sPulseCounter[i]
    }

    ghost function DoObjects(): set<DoController>
      reads this, sDoController
    {
      set i | 0 <= i < sDoController.Length :: sDoController[i]
    }

    /** The input channels' records, in array order. */
    ghost function DiStates(): seq<CounterState>
      reads this, sPulseCounter, DiObjects()
    {
      seq(sPulseCounter.Length, i requires 0 <= i < sPulseCounter.Length reads this, sPulseCounter, DiObjects() =>
        sPulseCounter[i].State())
    }

    /** The output channels' records, in array order. */
    ghost function DoStates(): seq<DoState>
      reads this, sDoController, DoObjects()
    {
      seq(sDoController.Length, i requires 0 <= i < sDoController.Length reads this, sDoController, DoObjects() =>
        sDoController[i].State())
    }

    /** The PWM calls each output channel has made, in array order. */
    ghost function DoLogs(): seq<seq<PwmEvent>>
      reads this, sDoController, DoObjects()
    {
      seq(sDoController.Length, i requires 0 <= i < sDoController.Length reads this, sDoController, DoObjects() =>
        sDoController[i].outputs)
    }

    /** The channel set-up of `RTCoreMain`: inputs on pins 12 and 15, outputs
        on pins 0 and 8 with the given default levels. */
    constructor (version: string, doDefault0: bool, doDefault1: bool)
      requires |version| < VERSION_SIZE
      ensures Valid() && this.version == version
      ensures DiStates() == [Initialized(DIPIN_0), Initialized(DIPIN_1)]
      ensures DoStates() == [DoInitialized(DOPIN_0, doDefault0), DoInitialized(DOPIN_1, doDefault1)]
      ensures DoLogs() == [[], []]
      ensures fresh(sPulseCounter) && fresh(sDoController) && fresh(DiObjects()) && fresh(DoObjects())
    {
      var p0 := new PulseCounter(DIPIN_0);
      var p1 := new PulseCounter(DIPIN_1);
      var d0 := new DoController(DOPIN_0, doDefault0);
      var d1 := new DoController(DOPIN_1, doDefault1);
      sPulseCounter := new PulseCounter[] [p0, p1];
      sDoController := new DoController[] [d0, d1];
      this.version := version;
      new;
      assert sPulseCounter[0] == p0 && sPulseCounter[1] == p1;
      assert sDoController[0] == d0 && sDoController[1] == d1;
    }

    /** `GetTargetPt`: the first input channel, in array order, bound to
        `pinId`, or null. */
    method GetTargetPt(pinId: Int32) returns (t: PulseCounter?)
      requires Valid()
      ensures var k := FirstIndexOf(DiPins(DiStates()), pinId);
        if k < 0 then t == null else t == sPulseCounter[k]
    {
      ghost var pins := DiPins(DiStates());
      for i := 0 to sPulseCounter.Length
        invariant pinId !in pins[..i]
      {
        if pinId == sPulseCounter[i].GetPinId() {
          assert pins[..i + 1] == pins[..i] + [pinId];
          return sPulseCounter[i];
        }
        assert pins[..i + 1] == pins[..i] + [pins[i]];
      }
      assert pins[..sPulseCounter.Length] == pins;
      return null;
    }

    /** `GetTargetPt_DO`: the first output channel, in array order, bound to
        `pinId`, or null. */
    method GetTargetPtDo(pinId: Int32) returns (t: DoController?)
      requires Valid()
      ensures var k := FirstIndexOf(DoPins(DoStates()), pinId);
        if k < 0 then t == null else t == sDoController[k]
    {
      ghost var pins := DoPins(DoStates());
      for i := 0 to sDoController.Length
        invariant pinId !in pins[..i]
      {
        if pinId == sDoController[i].GetPinId() {
          assert pins[..i + 1] == pins[..i] + [pinId];
          return sDoController[i];
        }
        assert pins[..i + 1] == pins[..i] + [pins[i]];
      }
      assert pins[..sDoController.Length] == pins;
      return null;
    }

    /** `Handle1msIrq`: ticks every running input channel, then every running
        output channel, in index order; `pinLevel` gives the raw level of
        each GPIO pin during this tick. */
    method Handle1msIrq(pinLevel: Int32 -> bool)
      requires Valid()
      modifies DiObjects(), DoObjects()
      ensures DiStates() == ScanDi(old(DiStates()), pinLevel)
      ensures forall i :: 0 <= i < NUM_DO ==>
        DoStates()[i] == ScanDo(old(DoStates()), pinLevel)[i].next &&
        DoLogs()[i] == old(DoLogs())[i] + ScanDo(old(DoStates()), pinLevel)[i].writes
    {
      TickInputs(pinLevel);
      TickOutputs(pinLevel);
    }

    /** The first loop of `Handle1msIrq`. */
    method TickInputs(pinLevel: Int32 -> bool)
      requires Valid()
      modifies DiObjects()
      ensures DiStates() == ScanDi(old(DiStates()), pinLevel)
    {
      for i := 0 to sPulseCounter.Length
        invariant forall j :: 0 <= j < i ==>
          sPulseCounter[j].State() == DiScanned(old(sPulseCounter[j].State()), pinLevel)
        invariant forall j :: i <= j < sPulseCounter.Length ==>
          sPulseCounter[j].State() == old(sPulseCounter[j].State())
      {
        if sPulseCounter[i].isStart {
          sPulseCounter[i].Counter(pinLevel(sPulseCounter[i].pinId));
        }
      }
    }

    /** The second loop of `Handle1msIrq`. */
    method TickOutputs(pinLevel: Int32 -> bool)
      requires Valid()
      modifies DoObjects()
      ensures forall i :: 0 <= i < NUM_DO ==>
        DoStates()[i] == ScanDo(old(DoStates()), pinLevel)[i].next &&
        DoLogs()[i] == old(DoLogs())[i] + ScanDo(old(DoStates()), pinLevel)[i].writes
    {
      for i := 0 to sDoController.Length
        invariant forall j :: 0 <= j < i ==>
          sDoController[j].State() == DoScanned(old(sDoController[j].State()), pinLevel).next &&
          sDoController[j].outputs == old(sDoController[j].outputs) + DoScanned(old(sDoController[j].State()), pinLevel).writes
        invariant forall j :: i <= j < sDoController.Length ==>
          sDoController[j].State() == old(sDoController[j].State()) &&
          sDoController[j].outputs == old(sDoController[j].outputs)
      {
        assert forall j :: 0 <= j < sDoController.Length && j != i ==> sDoController[j] != sDoController[i];
        ScanOutput(sDoController[i], pinLevel);
      }
      assert forall i :: 0 <= i < NUM_DO ==>
        DoStates()[i] == sDoController[i].State() && DoLogs()[i] == sDoController[i].outputs;
    }

    /** One iteration of the second loop of `Handle1msIrq`. */
    static method ScanOutput(c: DoController, pinLevel: Int32 -> bool)
      modifies c
      ensures c.State() == DoScanned(old(c.State()), pinLevel).next
      ensures c.outputs == old(c.outputs) + DoScanned(old(c.State()), pinLevel).writes
    {
      if c.isStart {
        c.Controller(pinLevel(c.relationPort));
      }
    }

    /** The DI_SET_CONFIG_AND_START case. */
    method SetConfigAndStart(m: DiMsgSetConfig) returns (reply: Reply)
      requires Valid()
      modifies DiObjects()
      ensures DiStates() == SetConfigOutcome(old(DiStates()), m).di
      ensures reply == SetConfigOutcome(old(DiStates()), m).reply
    {
      ghost var k := FirstIndexOf(DiPins(DiStates()), AsSigned(m.pinId));
      var t := GetTargetPt(AsSigned(m.pinId));
      if t == null {
        return SendInt(NG);
      }
      t.SetConfigCounter(m.isPulseHigh, AsSigned(m.minPulseWidth), AsSigned(m.maxPulseCount));
      assert forall j :: 0 <= j < NUM_DI && j != k ==> sPulseCounter[j] != t;
      return SendInt(OK);
    }

    /** The DI_PULSE_COUNT_RESET case. */
    method ResetPulseCount(m: DioMsgResetPulseCount) returns (reply: Reply)
      requires Valid()
      modifies DiObjects()
      ensures DiStates() == ResetOutcome(old(DiStates()), m).di
      ensures reply == ResetOutcome(old(DiStates()), m).reply
    {
      ghost var k := FirstIndexOf(DiPins(DiStates()), AsSigned(m.pinId));
      var t := GetTargetPt(AsSigned(m.pinId));
      if t == null {
        return SendInt(NG);
      }
      t.Clear(AsSigned(m.initVal));
      assert forall j :: 0 <= j < NUM_DI && j != k ==> sPulseCounter[j] != t;
      var val := 1;
      return SendInt(val);
    }

    /** The DI_READ_PULSE_COUNT, DI_READ_DUTY_SUM_TIME and DI_READ_PIN_LEVEL
        cases. */
    method ReadPin(code: UInt32, m: DioMsgPinId) returns (reply: Reply)
      requires Valid()
      requires code == DI_READ_PULSE_COUNT || code == DI_READ_DUTY_SUM_TIME || code == DI_READ_PIN_LEVEL
      ensures reply == ReadOutcome(DiStates(), code, m).reply
    {
      var t := GetTargetPt(AsSigned(m.pinId));
      if t == null {
        return SendInt(NG);
      }
      var val: Int32;
      if code == DI_READ_PULSE_COUNT {
        val := t.GetPulseCount();
      } else if code == DI_READ_DUTY_SUM_TIME {
        val := t.GetPulseOnTime();
      } else {
        val := if t.GetPinLevel() then 1 else 0;
      }
      return SendInt(val);
    }

    /** The DI_READ_PULSE_LEVEL case. */
    method ReadPulseLevel() returns (reply: Reply)
      requires Valid()
      ensures reply == PulseLevelOutcome(DiStates()).reply
    {
      var levels: seq<bool> := [];
      for i := 0 to sPulseCounter.Length
        invariant |levels| == i && forall j :: 0 <= j < i ==> levels[j] == DiStates()[j].prevState
      {
        levels := levels + [sPulseCounter[i].GetLevel()];
      }
      assert levels == PulseLevelOutcome(DiStates()).reply.data.message.levels;
      return SendReadData(ReturnMsg(OK as UInt32, LEVELS_SIZE, Levels(levels)));
    }

    /** One pass of the main loop for a received request: the `switch` on
        the request code. */
    method Dispatch(msg: DriverMsg) returns (reply: Reply)
      requires Valid()
      modifies DiObjects()
      ensures DiStates() == Dispatched(old(DiStates()), DoPins(DoStates()), version, msg).di
      ensures reply == Dispatched(old(DiStates()), DoPins(DoStates()), version, msg).reply
      ensures DoStates() == old(DoStates()) && DoLogs() == old(DoLogs())
    {
      var code := msg.header.requestCode;
      if code == DI_SET_CONFIG_AND_START {
        reply := SetConfigAndStart(msg.body.setConfig);
      } else if code == DO_SET_CONFIG {
        var t := GetTargetPtDo(AsSigned(msg.body.setDOConfig.pinId));
        reply := if t == null then SendInt(NG) else NoReply;
      } else if code == DI_PULSE_COUNT_RESET {
        reply := ResetPulseCount(msg.body.resetPulseCount);
      } else if code == DI_READ_PULSE_COUNT || code == DI_READ_DUTY_SUM_TIME || code == DI_READ_PIN_LEVEL {
        reply := ReadPin(code, msg.body.pinId);
      } else if code == DI_READ_PULSE_LEVEL {
        reply := ReadPulseLevel();
      } else if code == DIO_READ_VERSION {
        reply := SendReadData(ReturnMsg(OK as UInt32, |version|, Version(version)));
      } else {
        reply := SendInt(NG);
      }
    }
  }
}
