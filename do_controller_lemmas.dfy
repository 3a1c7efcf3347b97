/** Properties of the digital-output controller: trigger arming, the delay
    and drive-time countdowns, the action table and the `Started` latch. */
module DoControlTheory {
  import opened CInt
  import opened CactuspherePwm
  import opened DoControl

  /** The PWM calls of the action branch for state `s`. */
  function Act(s: DoState, relationLevel: bool): seq<PwmEvent>
  {
    if s.functionStatus == Started then StartedAction(s, relationLevel) else StartAction(s, relationLevel)
  }

  // ---------------------------------------------------------------------
  // One period

  /** A pending trigger arms the delay (elapsed 0) when the delay is
      enabled and the drive time (elapsed 0) when that is enabled; either
      consumes it. With neither enabled it stays pending. */
  lemma ArmingConsumesTrigger(s: DoState)
    requires s.triggerActived
    ensures var a := Arm(s);
      (s.delayEnable ==> a.flagDelay && a.delayElapsedTime == 0) &&
      (s.driveCertainEnable ==> a.flagDriveTime && a.driveElapsedTime == 0) &&
      (a.triggerActived <==> !s.delayEnable && !s.driveCertainEnable) &&
      a.functionStatus == s.functionStatus && a.isStart == s.isStart
  {
  }

  /** A period that finds the delay pending writes nothing; it ends the
      delay exactly when the elapsed time has reached the delay time. */
  lemma DelayPeriodIsSilent(s: DoState, relationLevel: bool)
    requires Arm(s).flagDelay
    ensures DoTick(s, relationLevel).writes == []
    ensures !DoTick(s, relationLevel).next.flagDelay <==> Arm(s).delayElapsedTime >= Arm(s).delayTime
  {
  }

  /** A trigger with neither delay nor drive time acts on the next period. */
  lemma ImmediateAction(s: DoState, relationLevel: bool)
    requires s.triggerActived && !s.delayEnable && !s.driveCertainEnable
    requires !s.flagDelay && !s.flagDriveTime
    ensures DoTick(s, relationLevel) ==
      DoStep(s.(triggerActived := false, functionStatus := Started), Act(s, relationLevel))
  {
  }

  /** The status never leaves `Started`, and otherwise becomes `Started` or
      stays as it was. */
  lemma StatusStep(s: DoState, relationLevel: bool)
    ensures var t := DoTick(s, relationLevel).next;
      t.functionStatus == Started || t.functionStatus == s.functionStatus
    ensures s.functionStatus == Started ==> DoTick(s, relationLevel).next.functionStatus == Started
  {
    var a := Arm(s);
    assert a.functionStatus == s.functionStatus;
    if !a.flagDelay && ActionGuard(a) {
      var x := ActionStep(a.(triggerActived := false), relationLevel);
      assert x.next.functionStatus == Started;
      assert DriveCountdown(x.next).next.functionStatus == Started;
    }
  }

  /** The Interlock and InterlockInvert relations, the only functions that
      keep writing once started. */
  predicate IsInterlock(s: DoState)
  {
    s.functionType == FunctionType.Relation &&
    (s.relationType == RelationType.Interlock || s.relationType == RelationType.InterlockInvert)
  }

  /** Once started, a function other than an Interlock relation writes
      nothing but the end-of-drive default level. */
  lemma StartedWritesOnlyInterlock(s: DoState, relationLevel: bool)
    requires s.functionStatus == Started
    requires !IsInterlock(s)
    ensures DoTick(s, relationLevel).writes == [] ||
            DoTick(s, relationLevel).writes == [WriteOutput(s.pinId, s.defaultState)]
  {
  }

  /** Once started, the Interlock relations keep mirroring the relation pin
      (inverted for InterlockInvert) on every period the action branch runs. */
  lemma InterlockRewrites(s: DoState, relationLevel: bool)
    requires s.functionStatus == Started && s.functionType == FunctionType.Relation
    requires s.relationType == RelationType.Interlock || s.relationType == RelationType.InterlockInvert
    requires !Arm(s).flagDelay && ActionGuard(Arm(s))
    ensures |DoTick(s, relationLevel).writes| >= 1
    ensures DoTick(s, relationLevel).writes[0] ==
      WriteOutput(s.pinId, if s.relationType == RelationType.Interlock then relationLevel else !relationLevel)
  {
  }

  /** Before the start, Invert and InterlockInvert write the same level;
      after it, only InterlockInvert writes. */
  lemma InvertAndInterlockInvert(s: DoState, relationLevel: bool)
    requires s.functionType == FunctionType.Relation
    ensures StartAction(s.(relationType := RelationType.Invert), relationLevel) ==
            StartAction(s.(relationType := RelationType.InterlockInvert), relationLevel)
    ensures StartedAction(s.(relationType := RelationType.Invert), relationLevel) == []
    ensures StartedAction(s.(relationType := RelationType.InterlockInvert), relationLevel) ==
            [WriteOutput(s.pinId, !relationLevel)]
  {
  }

  /** The Snap relation and an unselected relation or function do nothing. */
  lemma SnapAndNotSelectedAreNoOps(s: DoState, relationLevel: bool)
    ensures s.functionType == FunctionType.Relation && s.relationType == RelationType.Snap ==>
      StartAction(s, relationLevel) == [] && StartedAction(s, relationLevel) == []
    ensures s.functionType == FunctionType.NotSelected ==>
      StartAction(s, relationLevel) == [] && StartedAction(s, relationLevel) == []
  {
  }

  /** A freshly initialised controller has no trigger and no timer running,
      so each period leaves it unchanged and silent; over any run it never
      acts. */
  lemma {:induction false} InitializedNeverActs(pin: Int32, defaultState: bool, levels: seq<bool>)
    ensures RunDo(DoInitialized(pin, defaultState), levels) ==
      DoStep(DoInitialized(pin, defaultState), [])
    decreases |levels|
  {
    if levels != [] {
      InitializedNeverActs(pin, defaultState, levels[1..]);
    }
  }

  // ---------------------------------------------------------------------
  // Runs of periods without new triggers

  /** The status is latched: once `Started`, it stays so. */
  lemma {:induction false} StartedIsLatched(s: DoState, levels: seq<bool>)
    requires s.functionStatus == Started
    ensures RunDo(s, levels).next.functionStatus == Started
    decreases |levels|
  {
    if levels != [] {
      StatusStep(s, levels[0]);
      StartedIsLatched(DoTick(s, levels[0]).next, levels[1..]);
    }
  }

  /** With the delay enabled and the drive time disabled the action never
      runs: the trigger is consumed by the delay, and the action guard then
      needs a trigger that is no longer there. */
  lemma {:induction false} DelayWithoutDriveNeverActs(s: DoState, levels: seq<bool>)
    requires s.delayEnable && !s.driveCertainEnable
    ensures RunDo(s, levels).writes == []
    ensures RunDo(s, levels).next.functionStatus == s.functionStatus
    decreases |levels|
  {
    if levels != [] {
      var t := DoTick(s, levels[0]);
      assert t.writes == [] && t.next.delayEnable && !t.next.driveCertainEnable;
      assert t.next.functionStatus == s.functionStatus;
      DelayWithoutDriveNeverActs(t.next, levels[1..]);
    }
  }

  /** Periods left in a pending delay before the period that ends it. */
  function DelayRemaining(s: DoState): nat
  {
    if s.delayTime > s.delayElapsedTime then s.delayTime - s.delayElapsedTime else 0
  }

  /** A pending delay takes `DelayRemaining + 1` silent periods to end. */
  lemma {:induction false} DelayPhase(s: DoState, levels: seq<bool>)
    requires s.flagDelay && !s.triggerActived
    requires |levels| == DelayRemaining(s) + 1
    ensures RunDo(s, levels) ==
      DoStep(s.(flagDelay := false, delayElapsedTime := s.delayElapsedTime + DelayRemaining(s)), [])
    decreases |levels|
  {
    var t := DoTick(s, levels[0]);
    if s.delayElapsedTime < s.delayTime {
      assert t == DoStep(s.(delayElapsedTime := s.delayElapsedTime + 1), []);
      DelayPhase(t.next, levels[1..]);
    } else {
      assert levels[1..] == [];
    }
  }

  /** The action table does not depend on the trigger, delay and drive-time
      bookkeeping. */
  lemma ActIgnoresTimers(s: DoState, relationLevel: bool, fDelay: bool, dElapsed: Int32,
                         fDrive: bool, eElapsed: Int32, trigger: bool)
    ensures Act(s.(flagDelay := fDelay, delayElapsedTime := dElapsed, flagDriveTime := fDrive,
                   driveElapsedTime := eElapsed, triggerActived := trigger), relationLevel) ==
            Act(s, relationLevel)
  {
  }

  /** The period that follows the end of a delay with the drive time armed
      runs the action and starts counting the drive time. */
  lemma ActionAfterDelay(m: DoState, relationLevel: bool)
    requires !m.flagDelay && !m.triggerActived && m.driveCertainEnable && m.flagDriveTime
    requires m.driveElapsedTime == 0
    ensures DoTick(m, relationLevel).writes ==
      Act(m, relationLevel) + (if m.driveTime <= 0 then [WriteOutput(m.pinId, m.defaultState)] else [])
    ensures DoTick(m, relationLevel).next.functionStatus == Started
  {
    assert Arm(m) == m;
    var x := ActionStep(m, relationLevel);
    assert x.writes == Act(m, relationLevel);
    assert x.next.functionStatus == Started;
  }

  /** Delay and drive time enabled: after a trigger, the first
      `max(delayTime, 0) + 1` periods write nothing; the next one runs the
      action (and ends the drive time at once if it is not positive). */
  lemma DelayedActionTiming(s: DoState, levels: seq<bool>, relationLevel: bool)
    requires s.triggerActived && s.delayEnable && s.driveCertainEnable
    requires |levels| == (if s.delayTime > 0 then s.delayTime else 0) + 1
    ensures RunDo(s, levels).writes == []
    ensures var m := RunDo(s, levels).next;
      !m.flagDelay && m.flagDriveTime && m.driveElapsedTime == 0 && !m.triggerActived &&
      m.functionStatus == s.functionStatus
    ensures var m := RunDo(s, levels).next;
      DoTick(m, relationLevel).writes ==
        Act(s, relationLevel) + (if s.driveTime <= 0 then [WriteOutput(s.pinId, s.defaultState)] else []) &&
      DoTick(m, relationLevel).next.functionStatus == Started
  {
    var a := s.(flagDelay := true, delayElapsedTime := 0, flagDriveTime := true,
                driveElapsedTime := 0, triggerActived := false);
    assert Arm(s) == a;
    assert Arm(a) == a;
    assert DoTick(s, levels[0]) == DoTick(a, levels[0]);
    assert RunDo(s, levels) == RunDo(a, levels);
    DelayPhase(a, levels);
    var m := a.(flagDelay := false, delayElapsedTime := DelayRemaining(a));
    assert RunDo(s, levels).next == m;
    ActionAfterDelay(m, relationLevel);
    ActIgnoresTimers(s, relationLevel, false, DelayRemaining(a), true, 0, false);
  }

  /** Periods left in a running drive time before the period that ends it. */
  function DriveRemaining(s: DoState): nat
  {
    if s.driveTime > s.driveElapsedTime then s.driveTime - s.driveElapsedTime else 0
  }

  /** A running drive time counts up for `DriveRemaining` periods, still
      driving. Once the function has started, only an Interlock relation
      writes during these periods; every other function is silent. */
  lemma {:induction false} DrivePhase(s: DoState, levels: seq<bool>)
    requires !s.triggerActived && !s.flagDelay && s.driveCertainEnable && s.flagDriveTime
    requires |levels| <= DriveRemaining(s)
    ensures RunDo(s, levels).next ==
      s.(driveElapsedTime := s.driveElapsedTime + |levels|,
         functionStatus := if levels == [] then s.functionStatus else Started)
    ensures s.functionStatus == Started && !IsInterlock(s) ==> RunDo(s, levels).writes == []
    decreases |levels|
  {
    if levels != [] {
      var t := DoTick(s, levels[0]);
      assert t.next == s.(driveElapsedTime := s.driveElapsedTime + 1, functionStatus := Started);
      assert s.functionStatus == Started && !IsInterlock(s) ==> t.writes == [];
      DrivePhase(t.next, levels[1..]);
    }
  }

  /** Drive time enabled: from the start of the countdown, the output is
      forced to `defaultState` on period `max(driveTime - elapsed, 0) + 1`,
      which ends the countdown; until then it keeps driving. */
  lemma DriveTimeForcesDefault(s: DoState, levels: seq<bool>, relationLevel: bool)
    requires !s.triggerActived && !s.flagDelay && s.driveCertainEnable && s.flagDriveTime
    requires |levels| == DriveRemaining(s)
    ensures RunDo(s, levels).next.flagDriveTime
    ensures var m := RunDo(s, levels).next; var t := DoTick(m, relationLevel);
      !t.next.flagDriveTime && t.next.functionStatus == Started &&
      |t.writes| >= 1 && t.writes[|t.writes| - 1] == WriteOutput(s.pinId, s.defaultState)
  {
    DrivePhase(s, levels);
  }
}
