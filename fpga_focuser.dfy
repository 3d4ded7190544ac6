/**
 * The FpgaFocuser driver object: the fields the handlers update in place, and
 * one method per handler performing the source's steps in order. Each method is
 * proved to leave the object in the state the matching transition function of
 * FocuserSpec computes, so every property proved there holds of the object.
 */
module FocuserDriver {
  import opened Wrappers
  import opened StdString
  import opened FocuserSpec
  import opened FocuserInvariants

  class FpgaFocuser {
    var connected: bool                 // koheron_interface is open
    var position: int                   // FocusAbsPosN[0].value
    var relTicks: int                   // FocusRelPosN[0].value
    var limits: Limits
    var axis: Axis                      // hw_is_initialized, hw_is_running, hw_direction, detected_motion
    var reverseDirection: bool          // reverse_direction
    var absStatus: PropertyState        // FocusAbsPosNP.s
    var relStatus: PropertyState        // FocusRelPosNP.s
    var thermal: Thermal
    var optics: Optics
    var backlash: Backlash
    var timers: Timers                  // updateStatusID, updateTemperatureID, temperatureCompensationID
    var store: Option<int>              // the position file
    var sent: seq<Command>              // commands sent to the board

    /** The object's fields as a FocuserSpec state. */
    function State(): Focuser
      reads this
    {
      Focuser(connected, position, relTicks, limits, axis, reverseDirection, absStatus, relStatus,
              thermal, optics, backlash, timers, store, sent)
    }

    ghost predicate Valid()
      reads this
    {
      Consistent(State())
    }

    /** Construction with the header's initial values and the defaults of initProperties. */
    constructor ()
      ensures State() == Initial() && Valid()
    {
      connected := false;
      position := 0;
      relTicks := 100;
      limits := Limits(absMin := 0, absMax := 10000, maxPosition := 10000, relMax := 1000);
      axis := Axis(initialized := false, running := false, direction := false, detectedMotion := false);
      reverseDirection := false;
      absStatus := Idle;
      relStatus := Idle;
      thermal := Thermal(temperature := 0.0, lastTemperature := 0.0, compensationEnabled := false, coef := 0.0);
      optics := Optics(travel := 10.0, aperture := 0.0, focal := 0.0, info := FocusInfo(0.0, 0.0, 0.0, Idle));
      backlash := Backlash(enabled := false, periodUs := 45.0, status := Idle);
      timers := Timers(poll := false, temperature := false, compensation := false);
      store := None;
      sent := [];
    }

    /** savePosition: -1 reads the store, anything else is written; the result is what the store then reads as. */
    method SavePosition(pos: int) returns (v: int)
      modifies this`store
      ensures State() == old(State()).(store := FocuserSpec.SavePosition(old(store), pos))
      ensures v == ReadPosition(store)
      ensures pos != -1 ==> v == pos
    {
      if pos == -1 {
        v := ReadPosition(store);
      } else {
        store := Some(pos);
        v := pos;
      }
    }

    /** updateStatusFunc, given the board's status reply and position. */
    method UpdateStatusFunc(r: AxisStatus)
      requires connected
      modifies this`axis, this`position, this`relStatus, this`absStatus, this`store, this`timers
      ensures State() == Poll(old(State()), r)
    {
      axis := axis.(initialized := r.initialized, running := r.running, direction := r.direction);
      position := r.position;
      if !axis.running {
        relStatus := Ok;
        absStatus := Ok;
        if axis.detectedMotion {
          var _ := SavePosition(position);
          axis := axis.(detectedMotion := false);
        }
      } else {
        axis := axis.(detectedMotion := true);
        absStatus := Busy;
        timers := timers.(poll := true);
      }
    }

    /** updateStatus, run by the status timer. */
    method UpdateStatus(r: AxisStatus)
      requires Valid()
      modifies this
      ensures State() == StatusTimer(old(State()), r)
      ensures Valid()
    {
      timers := timers.(poll := false);
      if connected {
        UpdateStatusFunc(r);
      }
    }

    /**
     * MoveAbsFocuser. `before` is the status read on entry, `started` the
     * board's answer to the goto command and `after` the status read once it
     * started.
     */
    method MoveAbsFocuser(target: int, before: AxisStatus, started: bool, after: AxisStatus) returns (st: PropertyState)
      requires connected && Valid()
      modifies this`axis, this`position, this`relStatus, this`absStatus, this`store, this`timers, this`sent, this`thermal
      ensures var o := MoveAbsolute(old(State()), target, before, started, after);
        State() == o.next && st == o.result
      ensures Valid()
    {
      MoveAbsoluteConsistent(State(), target, before, started, after);
      UpdateStatusFunc(before);
      st := GotoAfterPoll(target, started, after);
    }

    /** The body of MoveAbsFocuser after its first poll. */
    method GotoAfterPoll(target: int, started: bool, after: AxisStatus) returns (st: PropertyState)
      requires connected
      modifies this`axis, this`position, this`relStatus, this`absStatus, this`store, this`timers, this`sent, this`thermal
      ensures var o := GotoFromPolled(old(State()), target, started, after);
        State() == o.next && st == o.result
    {
      if axis.running {
        return Alert;
      }
      if target < limits.absMin || target > limits.absMax {
        return Alert;
      }
      var current := position;
      if target == current {
        return Ok;
      }
      sent := sent + [GotoTarget(target, current < target)];
      if !started {
        return Alert;
      }
      MotionStarted(after);
      absStatus := Busy;
      return Ok;
    }

    /** The steps both moves take once the board accepted the start: poll again, register the temperature. */
    method MotionStarted(after: AxisStatus)
      requires connected
      modifies this`axis, this`position, this`relStatus, this`absStatus, this`store, this`timers, this`thermal
      ensures State() == Started(old(State()), after)
    {
      UpdateStatusFunc(after);
      thermal := thermal.(lastTemperature := thermal.temperature);
    }

    /** MoveRelFocuser, with the same reading of the board's replies as MoveAbsFocuser. */
    method MoveRelFocuser(dir: Direction, ticks: int, before: AxisStatus, started: bool, after: AxisStatus) returns (st: PropertyState)
      requires connected && Valid()
      modifies this`axis, this`position, this`relStatus, this`absStatus, this`store, this`timers, this`sent, this`thermal
      ensures var o := MoveRelative(old(State()), dir, ticks, before, started, after);
        State() == o.next && st == o.result
      ensures Valid()
    {
      MoveRelativeConsistent(State(), dir, ticks, before, started, after);
      UpdateStatusFunc(before);
      st := IncrementAfterPoll(dir, ticks, started, after);
    }

    /** The body of MoveRelFocuser after its first poll. */
    method IncrementAfterPoll(dir: Direction, ticks: int, started: bool, after: AxisStatus) returns (st: PropertyState)
      requires connected
      modifies this`axis, this`position, this`relStatus, this`absStatus, this`store, this`timers, this`sent, this`thermal
      ensures var o := IncrementFromPolled(old(State()), dir, ticks, started, after);
        State() == o.next && st == o.result
    {
      if axis.running {
        return Alert;
      }
      sent := sent + [Increment(ticks, dir)];
      if !started {
        return Alert;
      }
      MotionStarted(after);
      relStatus := Busy;
      return Ok;
    }

    /**
     * The relative-position branch of ISNewNumber; `inwardSelected` is the
     * motion switch. The requested ticks replace the stored ones only within
     * the property's range [0, relMax].
     */
    method NewRelativePosition(ticks: int, inwardSelected: bool, before: AxisStatus, started: bool, after: AxisStatus) returns (handled: bool)
      requires connected && Valid()
      modifies this
      ensures var o := RelativeRequest(old(State()), ticks, inwardSelected, before, started, after);
        State() == o.next && handled == o.result
      ensures Valid()
    {
      RelativeRequestConsistent(State(), ticks, inwardSelected, before, started, after);
      if axis.running {
        return false;
      }
      MoveByRelativeTicks(ticks, inwardSelected, before, started, after);
      return true;
    }

    /** NewRelativePosition once the board is known to be idle: take the ticks if in range, then move by them. */
    method MoveByRelativeTicks(ticks: int, inwardSelected: bool, before: AxisStatus, started: bool, after: AxisStatus)
      requires connected && !axis.running
      modifies this`relTicks, this`axis, this`position, this`relStatus, this`absStatus, this`store, this`timers, this`sent, this`thermal
      ensures State() == RelativeRequest(old(State()), ticks, inwardSelected, before, started, after).next
    {
      TakeRelativeTicks(ticks);
      var dir := RelativeDirection(inwardSelected, reverseDirection);
      UpdateStatusFunc(before);
      relStatus := IncrementAfterPoll(dir, relTicks, started, after);
    }

    /** IUUpdateNumber on the relative-position property: the ticks change only within [0, relMax]. */
    method TakeRelativeTicks(ticks: int)
      modifies this`relTicks
      ensures State() == old(State()).(relTicks := RelativeTicks(old(State()), ticks))
    {
      if 0 <= ticks <= limits.relMax {
        relTicks := ticks;
      }
    }

    /** The reset-position switch; `home` is the board's home position. */
    method ResetAbsolutePosition(home: int, before: AxisStatus, started: bool, after: AxisStatus)
      requires connected && Valid()
      modifies this
      ensures State() == ResetPosition(old(State()), home, before, started, after)
      ensures Valid()
    {
      var _ := MoveAbsFocuser(home, before, started, after);
      var _ := SavePosition(0);
    }

    /** getFocuserInfo. */
    method GetFocuserInfo()
      requires optics.travel > 0.0 && limits.maxPosition > 0
      modifies this`optics
      ensures optics == old(optics).(info := FocusZone(old(optics).travel, old(optics).aperture, old(optics).focal, limits.maxPosition))
      ensures InfoCurrent(State())
    {
      optics := optics.(info := FocusZone(optics.travel, optics.aperture, optics.focal, limits.maxPosition));
    }

    /**
     * Connect, once the board client exists: `status` is the first status
     * reply, `grid` the board's grid per revolution and `hwPosition` its
     * position as read when the stored one is not used.
     */
    method Connect(status: AxisStatus, grid: u32, hwPosition: int)
      requires Valid()
      modifies this`connected, this`axis, this`position, this`relStatus, this`absStatus, this`store, this`timers, this`sent, this`optics
      ensures State() == FocuserSpec.Connect(old(State()), status, grid, hwPosition)
      ensures Valid()
    {
      ConnectConsistent(State(), status, grid, hwPosition);
      AttachBoard(status);
      SeedFromStore(grid, hwPosition);
      timers := timers.(poll := true);
      GetFocuserInfo();
    }

    /** The first steps of Connect once the client exists: poll, and initialise an uninitialised board. */
    method AttachBoard(status: AxisStatus)
      modifies this`connected, this`axis, this`position, this`relStatus, this`absStatus, this`store, this`timers, this`sent
      ensures State() == Attach(old(State()), status)
    {
      connected := true;
      UpdateStatusFunc(status);
      if !axis.initialized {
        sent := sent + [Initialize];
      }
    }

    /** The seeding block of Connect: the stored position, if readable and within the grid, else the board's. */
    method SeedFromStore(grid: u32, hwPosition: int)
      modifies this`position, this`sent, this`store
      ensures State() == SeedPosition(old(State()), grid, hwPosition)
    {
      var stored := SavePosition(-1);
      if stored != -1 {
        var val := ToU32(stored);
        if val > grid {
          position := hwPosition;
        } else {
          position := stored;
          sent := sent + [SetPosition(position)];
        }
      } else {
        position := hwPosition;
      }
    }

    /** Disconnect: drop the client and remove the timers. */
    method Disconnect()
      requires Valid()
      modifies this
      ensures State() == FocuserSpec.Disconnect(old(State()))
      ensures Valid()
    {
      connected := false;
      timers := Timers(poll := false, temperature := false, compensation := false);
    }

    /** SetFocuserMaxPosition; `clamp` is the status read after a clamp, `accepted` the board's answer to the new grid. */
    method SetFocuserMaxPosition(value: u32, clamp: AxisStatus, accepted: bool) returns (ok: bool)
      requires connected && Valid() && value > 0
      modifies this
      ensures var o := SetMaxPosition(old(State()), value, clamp, accepted);
        State() == o.next && ok == o.result
      ensures Valid()
    {
      SetMaxPositionConsistent(State(), value, clamp, accepted);
      ok := ApplyMaxPosition(value, clamp, accepted);
    }

    /** The body of SetFocuserMaxPosition: clamp the position, send the grid, and on acceptance set the limits. */
    method ApplyMaxPosition(value: u32, clamp: AxisStatus, accepted: bool) returns (ok: bool)
      requires connected && optics.travel > 0.0 && value > 0
      modifies this
      ensures var o := SetMaxPosition(old(State()), value, clamp, accepted);
        State() == o.next && ok == o.result
    {
      if position > value {
        sent := sent + [SetPosition(value)];
        UpdateStatusFunc(clamp);
      }
      sent := sent + [SetGridPerRevolution(value)];
      if !accepted {
        return false;
      }
      limits := Limits(absMin := 0, absMax := value, maxPosition := value, relMax := value / 2);
      GetFocuserInfo();
      return true;
    }

    /** SyncFocuser. */
    method SyncFocuser(ticks: u32, status: AxisStatus) returns (ok: bool)
      requires Valid()
      modifies this
      ensures var o := Sync(old(State()), ticks, status);
        State() == o.next && ok == o.result
      ensures Valid()
    {
      if !connected {
        return false;
      }
      sent := sent + [SetPosition(ticks)];
      UpdateStatusFunc(status);
      return true;
    }

    /** AbortFocuser. */
    method AbortFocuser(status: AxisStatus) returns (ok: bool)
      requires Valid()
      modifies this
      ensures var o := Abort(old(State()), status);
        State() == o.next && ok == o.result
      ensures Valid()
    {
      if !connected {
        return false;
      }
      sent := sent + [Stop];
      UpdateStatusFunc(status);
      return true;
    }

    /** SetFocuserBacklash; `accepted` is the board's answer. */
    method SetFocuserBacklash(steps: int, accepted: bool) returns (ok: bool)
      requires Valid()
      modifies this
      ensures var o := SetBacklashSteps(old(State()), steps, accepted);
        State() == o.next && ok == o.result
      ensures Valid()
    {
      if !connected {
        return false;
      }
      sent := sent + [SetBacklashCycles(steps)];
      if !accepted {
        return false;
      }
      if backlash.enabled {
        sent := sent + [EnableBacklash(true)];
      }
      return true;
    }

    /** SetFocuserBacklashEnabled, with the backlash switch the focuser interface updates on success. */
    method SetFocuserBacklashEnabled(enabled: bool, accepted: bool) returns (ok: bool)
      requires Valid()
      modifies this
      ensures var o := SetBacklashEnabled(old(State()), enabled, accepted);
        State() == o.next && ok == o.result
      ensures Valid()
    {
      if !connected {
        return false;
      }
      sent := sent + [EnableBacklash(enabled)];
      if !accepted {
        return false;
      }
      backlash := backlash.(enabled := enabled);
      return true;
    }

    /**
     * The backlash-period branch of ISNewNumber; `inRange` is whether the value
     * lies in the property's range, which IUUpdateNumber checks.
     */
    method NewBacklashPeriod(periodUs: real, inRange: bool, accepted: bool) returns (handled: bool)
      requires connected && Valid()
      modifies this
      ensures var o := BacklashPeriodRequest(old(State()), periodUs, inRange, accepted);
        State() == o.next && handled == o.result
      ensures Valid()
    {
      if inRange {
        backlash := backlash.(periodUs := periodUs);
      }
      backlash := backlash.(status := Busy);
      sent := sent + [SetBacklashPeriod(backlash.periodUs)];
      if !accepted {
        return false;
      }
      if backlash.enabled {
        sent := sent + [EnableBacklash(true)];
      }
      backlash := backlash.(status := Ok);
      return true;
    }

    /** ReverseFocuser. */
    method ReverseFocuser(enabled: bool) returns (ok: bool)
      requires Valid()
      modifies this
      ensures State() == Reverse(old(State()), enabled) && ok
      ensures Valid()
    {
      reverseDirection := enabled;
      return true;
    }

    /** The focuser-travel branch of ISNewNumber; the travel is kept when the value is outside its range. */
    method NewTravel(mm: real)
      requires Valid()
      modifies this
      ensures State() == SetTravel(old(State()), mm)
      ensures Valid()
    {
      if TravelMin <= mm <= TravelMax {
        optics := optics.(travel := mm);
      }
      GetFocuserInfo();
    }

    /** A snooped TELESCOPE_INFO with aperture and focal length. */
    method SnoopScopeParameters(apertureMm: real, focalMm: real)
      requires Valid()
      modifies this
      ensures State() == SnoopScope(old(State()), apertureMm, focalMm)
      ensures Valid()
    {
      optics := optics.(aperture := apertureMm, focal := focalMm);
      GetFocuserInfo();
    }

    /** The temperature-coefficient branch of ISNewNumber. */
    method NewTemperatureCoefficient(coef: real)
      requires Valid()
      modifies this
      ensures State() == SetTemperatureCoefficient(old(State()), coef)
      ensures Valid()
    {
      if 0.0 <= coef <= CoefMax {
        thermal := thermal.(coef := coef);
      }
    }

    /** The temperature-sensor branch of ISNewSwitch. */
    method SetTemperatureSensor(sensor: Sensor)
      requires Valid()
      modifies this
      ensures State() == SelectSensor(old(State()), sensor)
      ensures Valid()
    {
      if sensor == FpgaPin14 || sensor == FpgaPin15 {
        timers := timers.(compensation := false);
      }
    }

    /** The temperature-compensation switch; the timer is only ever removed here (see SetCompensation). */
    method SetTemperatureCompensation(enable: bool)
      requires Valid()
      modifies this
      ensures State() == SetCompensation(old(State()), enable)
      ensures Valid()
    {
      thermal := thermal.(compensationEnabled := enable);
      if !enable {
        timers := timers.(compensation := false);
      }
    }

    /** readtemp, given the sensor reading. */
    method ReadTemp(reading: real) returns (ok: bool)
      requires Valid()
      modifies this
      ensures var o := ReadTemperature(old(State()), reading);
        State() == o.next && ok == o.result
      ensures Valid()
    {
      if reading > 100.0 || reading < -99.0 {
        return false;
      }
      thermal := thermal.(temperature := reading);
      return true;
    }

    /** updateTemperature, run by the temperature timer. */
    method UpdateTemperature(reading: real)
      requires Valid()
      modifies this
      ensures State() == TemperatureTimer(old(State()), reading)
      ensures Valid()
    {
      if connected {
        var _ := ReadTemp(reading);
      }
      timers := timers.(temperature := true);
    }

    /** The temperature part of updateProperties on connection, with the two sensor readings. */
    method StartTemperatureUpdates(first: real, second: real) returns (available: bool)
      requires Valid()
      modifies this
      ensures var o := StartTemperature(old(State()), first, second);
        State() == o.next && available == o.result
      ensures Valid()
    {
      available := ReadTemp(first);
      if available {
        var _ := ReadTemp(second);
        thermal := thermal.(lastTemperature := thermal.temperature);
        timers := timers.(temperature := true, compensation := true);
      }
    }

    /** temperatureCompensation, run by the compensation timer, with the board's replies to a move it may start. */
    method TemperatureCompensation(before: AxisStatus, started: bool, after: AxisStatus)
      requires Valid()
      modifies this
      ensures State() == Compensate(old(State()), before, started, after)
      ensures Valid()
    {
      CompensateConsistent(State(), before, started, after);
      if !connected {
        timers := timers.(compensation := false);
        return;
      }
      CompensateIfNeeded(before, started, after);
      timers := timers.(compensation := true);
    }

    /** The decision inside temperatureCompensation. */
    method CompensateIfNeeded(before: AxisStatus, started: bool, after: AxisStatus)
      requires connected && Valid()
      modifies this`axis, this`position, this`relStatus, this`absStatus, this`store, this`timers, this`sent, this`thermal
      ensures State() == CompensationMove(old(State()), before, started, after)
    {
      if thermal.compensationEnabled && thermal.temperature != thermal.lastTemperature {
        var delta := thermal.temperature - thermal.lastTemperature;
        var expansion := ThermalExpansion(thermal.coef, optics.focal, delta);
        if Abs(expansion) > optics.info.cfz / 2.0 {
          var adjustment := ThermalAdjustment(expansion, optics.info.stepSize);
          var _ := MoveAbsFocuser(position + adjustment, before, started, after);
          thermal := thermal.(lastTemperature := thermal.temperature);
        }
      }
    }
  }

  /** is_number: scans digits from the start and accepts when the scan reaches the end of a non-empty string. */
  method IsNumber(s: string) returns (r: bool)
    ensures r <==> |s| > 0 && AllDigits(s)
    ensures r ==> forall i :: 0 <= i < |s| ==> s[i] in Digits
  {
    var it := 0;
    while it < |s| && IsDigit(s[it])
      invariant 0 <= it <= |s|
      invariant AllDigits(s[..it])
    {
      it := it + 1;
    }
    r := |s| > 0 && it == |s|;
    if it < |s| {
      assert !AllDigits(s) by {
        assert !IsDigit(s[it]);
      }
    } else {
      assert s[..it] == s;
    }
    if r {
      forall i | 0 <= i < |s|
        ensures s[i] in Digits
      {
        DigitsAreDigits(s[i]);
      }
    }
  }
}
