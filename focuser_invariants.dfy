/**
 * What holds across handlers: every handler keeps FocuserSpec.Consistent, so
 * every state reachable from construction through any sequence of handler
 * invocations satisfies it; and the status poll writes the store exactly on
 * the edge where motion stops.
 */
module FocuserInvariants {
  import opened Wrappers
  import opened FocuserSpec

  // ---------------------------------------------------------------- one handler at a time

  lemma PollConsistent(f: Focuser, r: AxisStatus)
    requires Consistent(f)
    ensures Consistent(Poll(f, r))
  {
  }

  lemma StartedConsistent(g: Focuser, after: AxisStatus)
    requires Consistent(g)
    ensures Consistent(Started(g, after))
  {
    PollConsistent(g, after);
  }

  lemma MoveAbsoluteConsistent(f: Focuser, target: int, before: AxisStatus, started: bool, after: AxisStatus)
    requires f.connected && Consistent(f)
    ensures Consistent(MoveAbsolute(f, target, before, started, after).next)
  {
    var g := Poll(f, before);
    PollConsistent(f, before);
    if !g.axis.running && g.limits.absMin <= target <= g.limits.absMax && target != g.position && started {
      StartedConsistent(g.(sent := g.sent + [GotoTarget(target, g.position < target)]), after);
    }
  }

  lemma MoveRelativeConsistent(f: Focuser, dir: Direction, ticks: int, before: AxisStatus, started: bool, after: AxisStatus)
    requires f.connected && Consistent(f)
    ensures Consistent(MoveRelative(f, dir, ticks, before, started, after).next)
  {
    var g := Poll(f, before);
    PollConsistent(f, before);
    if !g.axis.running && started {
      StartedConsistent(g.(sent := g.sent + [Increment(ticks, dir)]), after);
    }
  }

  lemma RelativeRequestConsistent(f: Focuser, ticks: int, inwardSelected: bool, before: AxisStatus, started: bool, after: AxisStatus)
    requires f.connected && Consistent(f)
    ensures Consistent(RelativeRequest(f, ticks, inwardSelected, before, started, after).next)
  {
    if !f.axis.running {
      var t := RelativeTicks(f, ticks);
      MoveRelativeConsistent(f.(relTicks := t), RelativeDirection(inwardSelected, f.reverseDirection), t, before, started, after);
    }
  }

  lemma ConnectConsistent(f: Focuser, status: AxisStatus, grid: u32, hwPosition: int)
    requires Consistent(f)
    ensures Consistent(Connect(f, status, grid, hwPosition))
  {
  }

  lemma SetMaxPositionConsistent(f: Focuser, value: u32, clamp: AxisStatus, accepted: bool)
    requires f.connected && value > 0 && Consistent(f)
    ensures Consistent(SetMaxPosition(f, value, clamp, accepted).next)
  {
    if f.position > value {
      PollConsistent(f.(sent := f.sent + [SetPosition(value)]), clamp);
    }
  }

  lemma CompensateConsistent(f: Focuser, before: AxisStatus, started: bool, after: AxisStatus)
    requires Consistent(f)
    ensures Consistent(Compensate(f, before, started, after))
  {
    if f.connected && CompensationFires(f) {
      var steps := ThermalAdjustment(Drift(f.thermal, f.optics.focal), f.optics.info.stepSize);
      MoveAbsoluteConsistent(f, f.position + steps, before, started, after);
    }
  }

  /**
   * A compensation pass settles: with no new temperature reading in between,
   * the pass after it changes nothing, because the temperature it last acted
   * on has become the last temperature.
   */
  lemma CompensationSettles(f: Focuser, before: AxisStatus, started: bool, after: AxisStatus,
                            before2: AxisStatus, started2: bool, after2: AxisStatus)
    requires f.connected && Consistent(f)
    ensures Consistent(Compensate(f, before, started, after))
    ensures var g := Compensate(f, before, started, after);
      !CompensationFires(g) && Compensate(g, before2, started2, after2) == g
  {
    CompensateConsistent(f, before, started, after);
  }

  /**
   * A started absolute move whose second poll already reports the board idle
   * never sets detected_motion, so no later idle poll stores the position.
   */
  lemma StartedWithoutMotionNotStored(f: Focuser, target: int, before: AxisStatus, after: AxisStatus, r: AxisStatus)
    requires f.connected && !f.axis.detectedMotion
    requires !before.running && f.limits.absMin <= target <= f.limits.absMax && target != before.position
    requires !after.running && !r.running
    ensures MoveAbsolute(f, target, before, true, after).result == Ok
    ensures Poll(MoveAbsolute(f, target, before, true, after).next, r).store == f.store
  {
    var g := Poll(f, before);
    assert g.store == f.store && !g.axis.detectedMotion;
    var h := g.(sent := g.sent + [GotoTarget(target, g.position < target)]);
    var k := Started(h, after).(absStatus := Busy);
    assert k.store == f.store && !k.axis.detectedMotion;
  }

  // ---------------------------------------------------------------- any sequence of handlers

  /**
   * One invocation of a handler, with the board's replies it receives. Events
   * whose handler uses the board client are delivered only while connected
   * (otherwise the state stays as it is). A number outside its property's
   * range does reach its handler, which keeps and uses the old value.
   */
  datatype Event =
    | StatusTimerFired(r: AxisStatus)
    | MoveAbs(target: int, before: AxisStatus, started: bool, after: AxisStatus)
    | MoveRel(dir: Direction, ticks: int, before: AxisStatus, started: bool, after: AxisStatus)
    | RelativeNumber(ticks: int, inwardSelected: bool, before: AxisStatus, started: bool, after: AxisStatus)
    | ResetSwitch(home: int, before: AxisStatus, started: bool, after: AxisStatus)
    | ConnectBoard(status: AxisStatus, grid: u32, hwPosition: int)
    | DisconnectBoard
    | MaxPosition(value: u32, clamp: AxisStatus, accepted: bool)
    | SyncTo(syncTicks: u32, status: AxisStatus)
    | AbortMotion(status: AxisStatus)
    | BacklashSteps(steps: int, accepted: bool)
    | BacklashSwitch(on: bool, accepted: bool)
    | BacklashPeriod(periodUs: real, inRange: bool, accepted: bool)
    | ReverseSwitch(reverse: bool)
    | Travel(mm: real)
    | Snoop(aperture: real, focal: real)
    | Coefficient(coef: real)
    | SensorSwitch(sensor: Sensor)
    | CompensationSwitch(enable: bool)
    | TemperatureTimerFired(reading: real)
    | TemperatureStart(first: real, second: real)
    | CompensationTimerFired(before: AxisStatus, started: bool, after: AxisStatus)

  /** The state after one event, for a state that satisfies Consistent. */
  function Step(f: Focuser, e: Event): Focuser
    requires Consistent(f)
  {
    match e
    case StatusTimerFired(r) => StatusTimer(f, r)
    case MoveAbs(t, b, s, a) => if f.connected then MoveAbsolute(f, t, b, s, a).next else f
    case MoveRel(d, t, b, s, a) => if f.connected then MoveRelative(f, d, t, b, s, a).next else f
    case RelativeNumber(t, i, b, s, a) => if f.connected then RelativeRequest(f, t, i, b, s, a).next else f
    case ResetSwitch(h, b, s, a) => if f.connected then ResetPosition(f, h, b, s, a) else f
    case ConnectBoard(st, g, p) => Connect(f, st, g, p)
    case DisconnectBoard => Disconnect(f)
    case MaxPosition(v, c, ok) => if f.connected && v > 0 then SetMaxPosition(f, v, c, ok).next else f
    case SyncTo(t, st) => Sync(f, t, st).next
    case AbortMotion(st) => Abort(f, st).next
    case BacklashSteps(n, ok) => SetBacklashSteps(f, n, ok).next
    case BacklashSwitch(on, ok) => SetBacklashEnabled(f, on, ok).next
    case BacklashPeriod(p, inRange, ok) => if f.connected then BacklashPeriodRequest(f, p, inRange, ok).next else f
    case ReverseSwitch(on) => Reverse(f, on)
    case Travel(mm) => SetTravel(f, mm)
    case Snoop(ap, fl) => SnoopScope(f, ap, fl)
    case Coefficient(c) => SetTemperatureCoefficient(f, c)
    case SensorSwitch(sensor) => SelectSensor(f, sensor)
    case CompensationSwitch(on) => SetCompensation(f, on)
    case TemperatureTimerFired(t) => TemperatureTimer(f, t)
    case TemperatureStart(t1, t2) => StartTemperature(f, t1, t2).next
    case CompensationTimerFired(b, s, a) => Compensate(f, b, s, a)
  }

  lemma StepConsistent(f: Focuser, e: Event)
    requires Consistent(f)
    ensures Consistent(Step(f, e))
  {
    if e.StatusTimerFired? || e.MoveAbs? || e.MoveRel? || e.RelativeNumber? || e.ResetSwitch? {
      MotionStepConsistent(f, e);
    } else if e.ConnectBoard? || e.DisconnectBoard? || e.MaxPosition? || e.SyncTo? || e.AbortMotion? {
      BoardStepConsistent(f, e);
    } else if e.CompensationTimerFired? {
      CompensateConsistent(f, e.before, e.started, e.after);
    } else {
      SettingStepConsistent(f, e);
    }
  }

  lemma MotionStepConsistent(f: Focuser, e: Event)
    requires Consistent(f)
    requires e.StatusTimerFired? || e.MoveAbs? || e.MoveRel? || e.RelativeNumber? || e.ResetSwitch?
    ensures Consistent(Step(f, e))
  {
    match e
    case StatusTimerFired(r) =>
    case MoveAbs(t, b, s, a) =>
      if f.connected {
        MoveAbsoluteConsistent(f, t, b, s, a);
      }
    case MoveRel(d, t, b, s, a) =>
      if f.connected {
        MoveRelativeConsistent(f, d, t, b, s, a);
      }
    case RelativeNumber(t, i, b, s, a) =>
      if f.connected {
        RelativeRequestConsistent(f, t, i, b, s, a);
      }
    case ResetSwitch(h, b, s, a) =>
      if f.connected {
        MoveAbsoluteConsistent(f, h, b, s, a);
      }
  }

  lemma BoardStepConsistent(f: Focuser, e: Event)
    requires Consistent(f)
    requires e.ConnectBoard? || e.DisconnectBoard? || e.MaxPosition? || e.SyncTo? || e.AbortMotion?
    ensures Consistent(Step(f, e))
  {
    match e
    case ConnectBoard(st, g, p) => ConnectConsistent(f, st, g, p);
    case DisconnectBoard =>
    case MaxPosition(v, c, ok) =>
      if f.connected && v > 0 {
        SetMaxPositionConsistent(f, v, c, ok);
      }
    case SyncTo(t, st) =>
      if f.connected {
        PollConsistent(f.(sent := f.sent + [SetPosition(t)]), st);
      }
    case AbortMotion(st) =>
      if f.connected {
        PollConsistent(f.(sent := f.sent + [Stop]), st);
      }
  }

  lemma SettingStepConsistent(f: Focuser, e: Event)
    requires Consistent(f)
    requires !(e.StatusTimerFired? || e.MoveAbs? || e.MoveRel? || e.RelativeNumber? || e.ResetSwitch?)
    requires !(e.ConnectBoard? || e.DisconnectBoard? || e.MaxPosition? || e.SyncTo? || e.AbortMotion?)
    requires !e.CompensationTimerFired?
    ensures Consistent(Step(f, e))
  {
  }

  /** The state after a sequence of events; Consistent holds after each of them. */
  function Run(f: Focuser, es: seq<Event>): (g: Focuser)
    requires Consistent(f)
    ensures Consistent(g)
    decreases |es|
  {
    if es == [] then f
    else
      StepConsistent(f, es[0]);
      Run(Step(f, es[0]), es[1..])
  }

  /** Every state reachable from a freshly constructed focuser satisfies Consistent. */
  lemma ReachableConsistent(es: seq<Event>)
    ensures var g := Run(Initial(), es);
      && g.optics.travel > 0.0 && g.limits.maxPosition > 0 && g.limits.absMin <= g.limits.absMax
      && (g.connected && g.axis.running ==> g.timers.poll)
      && (g.connected ==> g.optics.info.stepSize > 0.0)
  {
  }

  // ---------------------------------------------------------------- the motion-stopped edge

  /** A sequence of status polls, oldest first. */
  function Polls(f: Focuser, rs: seq<AxisStatus>): (g: Focuser)
    ensures g.sent == f.sent && g.limits == f.limits && g.thermal == f.thermal
    ensures |rs| > 0 ==> g.position == rs[|rs| - 1].position && g.axis.running == rs[|rs| - 1].running
    decreases |rs|
  {
    if rs == [] then f else Polls(Poll(f, rs[0]), rs[1..])
  }

  lemma {:induction false} PollsAppend(f: Focuser, a: seq<AxisStatus>, b: seq<AxisStatus>)
    ensures Polls(f, a + b) == Polls(Polls(f, a), b)
    decreases |a|
  {
    if a != [] {
      assert (a + b)[0] == a[0] && (a + b)[1..] == a[1..] + b;
      assert Polls(f, a + b) == Polls(Poll(f, a[0]), a[1..] + b);
      PollsAppend(Poll(f, a[0]), a[1..], b);
    } else {
      assert a + b == b;
    }
  }

  /** Idle replies after an idle one neither write the store nor schedule another poll. */
  lemma {:induction false} IdlePollsKeepStore(f: Focuser, rs: seq<AxisStatus>)
    requires !f.axis.detectedMotion
    requires forall i :: 0 <= i < |rs| ==> !rs[i].running
    ensures Polls(f, rs).store == f.store && Polls(f, rs).timers == f.timers
    ensures !Polls(f, rs).axis.detectedMotion
    decreases |rs|
  {
    if rs != [] {
      IdlePollsKeepStore(Poll(f, rs[0]), rs[1..]);
    }
  }

  /** Running replies schedule a poll each and leave the store alone. */
  lemma {:induction false} RunningPollsKeepStore(f: Focuser, rs: seq<AxisStatus>)
    requires forall i :: 0 <= i < |rs| ==> rs[i].running
    ensures Polls(f, rs).store == f.store
    ensures |rs| > 0 ==> Polls(f, rs).axis.detectedMotion && Polls(f, rs).timers.poll
    decreases |rs|
  {
    if rs != [] {
      RunningPollsKeepStore(Poll(f, rs[0]), rs[1..]);
    }
  }

  /**
   * A motion seen by at least one running reply, then stopped: the first idle
   * reply writes its position to the store and later idle replies leave it
   * there, so the store ends up holding the position where the motion stopped.
   */
  lemma MotionStopPersistsOnce(f: Focuser, moving: seq<AxisStatus>, stop: AxisStatus, idle: seq<AxisStatus>)
    requires |moving| > 0 && forall i :: 0 <= i < |moving| ==> moving[i].running
    requires !stop.running && stop.position != -1
    requires forall i :: 0 <= i < |idle| ==> !idle[i].running
    ensures Polls(f, moving + [stop] + idle).store == Some(stop.position)
  {
    RunningPollsKeepStore(f, moving);
    var m := Polls(f, moving);
    PollsAppend(f, moving, [stop]);
    PollsAppend(f, moving + [stop], idle);
    assert Polls(m, [stop]) == Poll(m, stop);
    IdlePollsKeepStore(Poll(m, stop), idle);
  }
}
