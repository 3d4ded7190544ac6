/**
 * The FPGA focuser controller as values: the state the driver keeps, and one
 * transition function per handler. Every reply of the remote board (the
 * koheron client) is an argument; every command sent to it is appended to
 * `sent`, so "issues no motion command" is a statement about `sent`.
 * The class in module FocuserDriver performs the same steps on fields and is
 * proved equal to these functions.
 */
module FocuserSpec {
  import opened Wrappers

  type u32 = x: int | 0 <= x < 0x1_0000_0000

  /** C++'s conversion of an `int` to `uint32_t`: reduction modulo 2^32. */
  function ToU32(v: int): (r: u32)
    ensures 0 <= v < 0x1_0000_0000 ==> r == v
    ensures -0x1_0000_0000 <= v < 0 ==> r == v + 0x1_0000_0000
  {
    v % 0x1_0000_0000
  }

  /** C's `round`: to the nearest integer, halves away from zero. */
  function Round(x: real): (r: int)
    ensures x - 0.5 <= r as real <= x + 0.5
    ensures x >= 0.0 ==> r >= 0
    ensures x <= 0.0 ==> r <= 0
  {
    if x >= 0.0 then (x + 0.5).Floor else -((-x + 0.5).Floor)
  }

  /** INDI's IPState, as the driver sets it on its properties. */
  datatype PropertyState = Idle | Ok | Busy | Alert

  /** INDI's FocusDirection. */
  datatype Direction = Inward | Outward

  /** One `GetFocuserAxisStatus` reply (initialized, running, direction) with the `GetFocuserPosition` that follows it. */
  datatype AxisStatus = AxisStatus(initialized: bool, running: bool, direction: bool, position: int)

  /** Commands the driver sends to the board. */
  datatype Command =
    | Initialize
    | GotoTarget(target: int, increasing: bool)
    | Increment(ticks: int, direction: Direction)
    | SetPosition(position: int)
    | Stop
    | SetGridPerRevolution(grid: int)
    | SetBacklashCycles(steps: int)
    | SetBacklashPeriod(periodUs: real)
    | EnableBacklash(on: bool)

  /** The FocuserInfo property: step size (um), critical focus zone (um), steps per CFZ, and its state as the quality band. */
  datatype FocusInfo = FocusInfo(stepSize: real, cfz: real, stepsPerCfz: real, quality: PropertyState)

  /** The board status as last polled (hw_is_initialized, hw_is_running, hw_direction) and detected_motion. */
  datatype Axis = Axis(initialized: bool, running: bool, direction: bool, detectedMotion: bool)

  /** FocusAbsPosN[0].min and .max, FocusMaxPosN[0].value, and FocusRelPosN[0].max (its min is always 0). */
  datatype Limits = Limits(absMin: int, absMax: int, maxPosition: int, relMax: int)

  /** FocusTemperatureN[0].value, lastTemperature, the compensation switch and the coefficient (um per m per degree C). */
  datatype Thermal = Thermal(temperature: real, lastTemperature: real, compensationEnabled: bool, coef: real)

  /** Travel (mm), the snooped aperture and focal length (mm), and the focuser info computed from them. */
  datatype Optics = Optics(travel: real, aperture: real, focal: real, info: FocusInfo)

  /** The backlash switch, FocusBacklashPeriodN[0].value (us) and the state of that property. */
  datatype Backlash = Backlash(enabled: bool, periodUs: real, status: PropertyState)

  /** Which timers are pending: status poll, temperature update, temperature compensation (false is the handle -1). */
  datatype Timers = Timers(poll: bool, temperature: bool, compensation: bool)

  datatype Focuser = Focuser(
    connected: bool,            // koheron_interface is open
    position: int,              // FocusAbsPosN[0].value
    relTicks: int,              // FocusRelPosN[0].value
    limits: Limits,
    axis: Axis,
    reverseDirection: bool,
    absStatus: PropertyState,   // FocusAbsPosNP.s
    relStatus: PropertyState,   // FocusRelPosNP.s
    thermal: Thermal,
    optics: Optics,
    backlash: Backlash,
    timers: Timers,
    store: Option<int>,         // the position file; None when it cannot be read
    sent: seq<Command>)         // commands sent to the board, oldest first

  /** A handler's new state with the value it returns. */
  datatype Outcome<T> = Outcome(next: Focuser, result: T)

  /** The parameters are usable and the focuser info is the one getFocuserInfo computes from them. */
  ghost predicate InfoCurrent(f: Focuser)
  {
    && f.optics.travel > 0.0
    && f.limits.maxPosition > 0
    && f.optics.info == FocusZone(f.optics.travel, f.optics.aperture, f.optics.focal, f.limits.maxPosition)
  }

  /**
   * What every reachable state satisfies: the travel and maximum position the
   * focus-zone computation divides by are positive, the absolute bounds are
   * ordered, a running board was seen by the poll and keeps a poll pending
   * while connected, and while connected the published focuser info is current.
   */
  ghost predicate Consistent(f: Focuser)
  {
    && f.optics.travel > 0.0
    && f.limits.maxPosition > 0
    && f.limits.absMin <= f.limits.absMax
    && (f.axis.running ==> f.axis.detectedMotion)
    && (f.connected && f.axis.running ==> f.timers.poll)
    && (f.connected ==> InfoCurrent(f))
  }

  // ---------------------------------------------------------------- construction

  /**
   * The state after construction and initProperties: every hardware flag and
   * the reverse flag false, every timer handle -1 (nothing pending), maximum
   * position 10000 with absolute range [0, 10000], relative range [0, 1000],
   * travel 10 mm, backlash period 45 us. `lastTemperature` is left uninitialised by the source; it is
   * 0 here and is assigned before anything reads it.
   */
  function Initial(): (f: Focuser)
    ensures f.axis == Axis(false, false, false, false) && !f.reverseDirection
    ensures f.timers == Timers(false, false, false)
    ensures !f.connected && f.sent == []
    ensures Consistent(f)
  {
    Focuser(
      connected := false, position := 0, relTicks := 100,
      limits := Limits(absMin := 0, absMax := 10000, maxPosition := 10000, relMax := 1000),
      axis := Axis(initialized := false, running := false, direction := false, detectedMotion := false),
      reverseDirection := false, absStatus := Idle, relStatus := Idle,
      thermal := Thermal(temperature := 0.0, lastTemperature := 0.0, compensationEnabled := false, coef := 0.0),
      optics := Optics(travel := 10.0, aperture := 0.0, focal := 0.0, info := FocusInfo(0.0, 0.0, 0.0, Idle)),
      backlash := Backlash(enabled := false, periodUs := 45.0, status := Idle),
      timers := Timers(poll := false, temperature := false, compensation := false),
      store := None, sent := [])
  }

  // ---------------------------------------------------------------- position store

  /** `savePosition(-1)`: the stored number, or -1 when the file cannot be read. */
  function ReadPosition(store: Option<int>): (v: int)
    ensures store.None? ==> v == -1
    ensures store.Some? ==> v == store.value
  {
    match store
    case None => -1
    case Some(p) => p
  }

  /** `savePosition(pos)`: writes `pos`, except that the argument -1 means "read" and writes nothing. */
  function SavePosition(store: Option<int>, pos: int): (s: Option<int>)
    ensures pos != -1 ==> s == Some(pos) && ReadPosition(s) == pos
    ensures pos == -1 ==> s == store
  {
    if pos == -1 then store else Some(pos)
  }

  // ---------------------------------------------------------------- focus zone

  const Wavelength: real := 0.520

  /** The f-ratio, 0 when no aperture or focal length is known. */
  function FRatio(aperture: real, focal: real): (r: real)
    ensures aperture * focal == 0.0 ==> r == 0.0
  {
    if aperture * focal != 0.0 then focal / aperture else 0.0
  }

  /** The quality band of getFocuserInfo: Ok from 4 steps per CFZ, Busy strictly between 2 and 4, Alert otherwise. */
  function Quality(stepsPerCfz: real): (q: PropertyState)
    ensures q == Ok <==> stepsPerCfz >= 4.0
    ensures q == Busy <==> 2.0 < stepsPerCfz < 4.0
    ensures q == Alert <==> stepsPerCfz <= 2.0
  {
    if stepsPerCfz >= 4.0 then Ok
    else if stepsPerCfz > 2.0 && stepsPerCfz < 4.0 then Busy
    else Alert
  }

  /**
   * getFocuserInfo: CFZ = 4.88 * 0.520 um * f^2, step size = 1000 * travel / max
   * position (um), steps per CFZ = the CFZ truncated to whole um over the step size.
   */
  function FocusZone(travel: real, aperture: real, focal: real, maxPosition: int): (i: FocusInfo)
    requires travel > 0.0 && maxPosition > 0
    ensures i.stepSize > 0.0 && i.cfz >= 0.0 && i.stepsPerCfz >= 0.0
    ensures aperture * focal == 0.0 ==> i.cfz == 0.0 && i.stepsPerCfz == 0.0 && i.quality == Alert
    ensures i.quality == Quality(i.stepsPerCfz)
    ensures i.stepSize * maxPosition as real == 1000.0 * travel
  {
    var fr := FRatio(aperture, focal);
    var cfz := 4.88 * Wavelength * (fr * fr);
    var stepSize := 1000.0 * travel / maxPosition as real;
    var steps := cfz.Floor as real / stepSize;
    FocusInfo(stepSize, cfz, steps, Quality(steps))
  }

  /** A 200 mm f/7 telescope on 10 mm of travel over 10000 steps: 1 µm steps, 124 steps per CFZ, Ok. */
  lemma FocusZoneExample()
    ensures FocusZone(10.0, 200.0, 1400.0, 10000) == FocusInfo(1.0, 124.3424, 124.0, Ok)
  {
    assert FRatio(200.0, 1400.0) == 7.0;
    assert (124.3424).Floor == 124;
  }

  // ---------------------------------------------------------------- status poll

  /**
   * updateStatusFunc: adopt the board's flags and position. An idle reply
   * marks both position properties Ok and, on the first idle reply after a
   * running one, writes the position to the store; a running reply marks the
   * absolute position Busy, remembers the motion and schedules another poll.
   */
  function Poll(f: Focuser, r: AxisStatus): (g: Focuser)
    ensures g.axis.running == r.running && g.axis.detectedMotion == r.running && g.position == r.position
    ensures g.store != f.store ==> f.axis.detectedMotion && !r.running
    ensures f.axis.detectedMotion && !r.running && r.position != -1 ==> g.store == Some(r.position)
    ensures r.running ==> g.timers.poll && g.absStatus == Busy
    ensures !r.running ==> g.timers == f.timers && g.absStatus == Ok && g.relStatus == Ok
    ensures g.sent == f.sent && g.connected == f.connected && g.thermal == f.thermal
    ensures g.limits == f.limits && g.optics == f.optics && g.backlash == f.backlash
    ensures g.axis.initialized == r.initialized && g.axis.direction == r.direction
    ensures r.running ==> g.relStatus == f.relStatus
    ensures g == f.(axis := g.axis, position := g.position, absStatus := g.absStatus, relStatus := g.relStatus,
                    timers := g.timers, store := g.store)
  {
    if !r.running then
      f.(axis := Axis(r.initialized, false, r.direction, false), position := r.position,
         relStatus := Ok, absStatus := Ok,
         store := if f.axis.detectedMotion then SavePosition(f.store, r.position) else f.store)
    else
      f.(axis := Axis(r.initialized, true, r.direction, true), position := r.position,
         absStatus := Busy, timers := f.timers.(poll := true))
  }

  /** The status-poll timer fires (updateStatus): the pending poll is consumed and, if connected, a poll runs. */
  function StatusTimer(f: Focuser, r: AxisStatus): (g: Focuser)
    ensures f.connected ==> g == Poll(f.(timers := f.timers.(poll := false)), r)
    ensures !f.connected ==> g == f.(timers := f.timers.(poll := false))
    ensures g.timers.poll <==> f.connected && r.running
  {
    var g := f.(timers := f.timers.(poll := false));
    if f.connected then Poll(g, r) else g
  }

  // ---------------------------------------------------------------- motion

  /** The steps after the board accepted a start command: poll again and take the temperature as the last one. */
  function Started(g: Focuser, after: AxisStatus): (h: Focuser)
    ensures h.position == after.position && h.thermal.lastTemperature == g.thermal.temperature
    ensures h.sent == g.sent && h.connected == g.connected && h.limits == g.limits
  {
    var p := Poll(g, after);
    p.(thermal := p.thermal.(lastTemperature := p.thermal.temperature))
  }

  /**
   * MoveAbsFocuser: poll; refuse (Alert) while the board runs or when the
   * target is outside [absMin, absMax]; succeed (Ok) without a command when
   * the target is the position just read; otherwise send GotoTarget with
   * direction `position < target`. When the board refuses, Alert; when it
   * starts, poll again, snapshot the temperature and mark the position Busy.
   */
  function MoveAbsolute(f: Focuser, target: int, before: AxisStatus, started: bool, after: AxisStatus): (o: Outcome<PropertyState>)
    requires f.connected
    ensures before.running ==> o == Outcome(Poll(f, before), Alert)
    ensures !before.running && (target < f.limits.absMin || target > f.limits.absMax) ==> o == Outcome(Poll(f, before), Alert)
    ensures !before.running && f.limits.absMin <= target <= f.limits.absMax && target == before.position ==>
      o == Outcome(Poll(f, before), Ok)
    ensures o.next.sent != f.sent <==>
      !before.running && f.limits.absMin <= target <= f.limits.absMax && target != before.position
    ensures o.next.sent != f.sent ==> o.next.sent == f.sent + [GotoTarget(target, before.position < target)]
    ensures o.next.sent != f.sent && !started ==> o == Outcome(Poll(f, before).(sent := o.next.sent), Alert)
    ensures o.next.sent != f.sent && started ==>
      o.result == Ok && o.next.thermal.lastTemperature == f.thermal.temperature
      && o.next.absStatus == Busy && o.next.position == after.position
    ensures o.next.thermal.lastTemperature != f.thermal.lastTemperature ==> o.next.sent != f.sent && started
    ensures o.next.connected && o.next.thermal.temperature == f.thermal.temperature
  {
    GotoFromPolled(Poll(f, before), target, started, after)
  }

  /** MoveAbsFocuser after its first poll: the guards, the goto command and the start. */
  function GotoFromPolled(g: Focuser, target: int, started: bool, after: AxisStatus): (o: Outcome<PropertyState>)
    ensures g.axis.running || target < g.limits.absMin || target > g.limits.absMax ==> o == Outcome(g, Alert)
    ensures o.result == Ok <==>
      !g.axis.running && g.limits.absMin <= target <= g.limits.absMax && (target == g.position || started)
    ensures o.result != Ok ==> o.next.thermal == g.thermal && o.next.position == g.position
  {
    if g.axis.running then Outcome(g, Alert)
    else if target < g.limits.absMin || target > g.limits.absMax then Outcome(g, Alert)
    else if target == g.position then Outcome(g, Ok)
    else
      var h := g.(sent := g.sent + [GotoTarget(target, g.position < target)]);
      if !started then Outcome(h, Alert)
      else Outcome(Started(h, after).(absStatus := Busy), Ok)
  }

  /**
   * MoveRelFocuser: poll; refuse (Alert) while the board runs; otherwise send
   * Increment with no bounds check. When the board refuses, Alert; when it
   * starts, poll again, snapshot the temperature and mark the relative position Busy.
   */
  function MoveRelative(f: Focuser, dir: Direction, ticks: int, before: AxisStatus, started: bool, after: AxisStatus): (o: Outcome<PropertyState>)
    requires f.connected
    ensures before.running ==> o == Outcome(Poll(f, before), Alert)
    ensures !before.running ==> o.next.sent == f.sent + [Increment(ticks, dir)]
    ensures !before.running && !started ==> o == Outcome(Poll(f, before).(sent := o.next.sent), Alert)
    ensures !before.running && started ==>
      o.result == Ok && o.next.thermal.lastTemperature == f.thermal.temperature
      && o.next.relStatus == Busy && o.next.position == after.position
    ensures o.next.thermal.lastTemperature != f.thermal.lastTemperature ==> !before.running && started
    ensures o.next.connected && o.next.limits == f.limits
  {
    IncrementFromPolled(Poll(f, before), dir, ticks, started, after)
  }

  /** MoveRelFocuser after its first poll: the guard, the increment command and the start. */
  function IncrementFromPolled(g: Focuser, dir: Direction, ticks: int, started: bool, after: AxisStatus): (o: Outcome<PropertyState>)
    ensures g.axis.running ==> o == Outcome(g, Alert)
    ensures o.result == Ok <==> !g.axis.running && started
    ensures o.result != Ok ==> o.next.thermal == g.thermal && o.next.position == g.position
  {
    if g.axis.running then Outcome(g, Alert)
    else
      var h := g.(sent := g.sent + [Increment(ticks, dir)]);
      if !started then Outcome(h, Alert)
      else Outcome(Started(h, after).(relStatus := Busy), Ok)
  }

  /** The direction the relative-position handler asks for: the selected one, swapped when the focuser is reversed. */
  function RelativeDirection(inwardSelected: bool, reverse: bool): (d: Direction)
    ensures d == Inward <==> inwardSelected != reverse
  {
    if inwardSelected then (if reverse then Outward else Inward)
    else (if reverse then Inward else Outward)
  }

  /** IUUpdateNumber on the relative position: a value outside [0, relMax] is refused and the old one kept. */
  function RelativeTicks(f: Focuser, ticks: int): (t: int)
    ensures 0 <= ticks <= f.limits.relMax ==> t == ticks
    ensures !(0 <= ticks <= f.limits.relMax) ==> t == f.relTicks
  {
    if 0 <= ticks <= f.limits.relMax then ticks else f.relTicks
  }

  /**
   * The relative-position branch of ISNewNumber: refused (false) on the
   * remembered running flag, without a new poll. Otherwise the requested
   * ticks are stored when within [0, relMax] (the old ticks are kept when
   * not), the stored ticks are moved in the (possibly reversed) selected
   * direction, and the result of the move is published as the
   * relative-position state.
   */
  function RelativeRequest(f: Focuser, ticks: int, inwardSelected: bool, before: AxisStatus, started: bool, after: AxisStatus): (o: Outcome<bool>)
    requires f.connected
    ensures f.axis.running ==> o == Outcome(f, false)
    ensures !f.axis.running ==> o.result && o.next.relTicks == RelativeTicks(f, ticks)
    ensures !f.axis.running ==>
      var t := RelativeTicks(f, ticks);
      var m := MoveRelative(f.(relTicks := t), RelativeDirection(inwardSelected, f.reverseDirection), t, before, started, after);
      o.next == m.next.(relStatus := m.result)
  {
    if f.axis.running then Outcome(f, false)
    else
      var t := RelativeTicks(f, ticks);
      var m := MoveRelative(f.(relTicks := t), RelativeDirection(inwardSelected, f.reverseDirection), t, before, started, after);
      Outcome(m.next.(relStatus := m.result), true)
  }

  /** The reset-position switch: an absolute move to the board's home position, then 0 written to the store. */
  function ResetPosition(f: Focuser, home: int, before: AxisStatus, started: bool, after: AxisStatus): (g: Focuser)
    requires f.connected
    ensures g.store == Some(0) && ReadPosition(g.store) == 0
    ensures g == MoveAbsolute(f, home, before, started, after).next.(store := Some(0))
  {
    var m := MoveAbsolute(f, home, before, started, after).next;
    m.(store := SavePosition(m.store, 0))
  }

  // ---------------------------------------------------------------- connection

  /** The position Connect seeds: the stored one when it reads as other than -1 and, as `uint32_t`, does not exceed the grid. */
  function SeededPosition(stored: int, grid: u32): (p: Option<int>)
    ensures p.Some? <==> stored != -1 && ToU32(stored) <= grid
    ensures p.Some? ==> p.value == stored
  {
    if stored != -1 then
      if ToU32(stored) > grid then None else Some(stored)
    else None
  }

  /**
   * Connect, from the moment the board client exists: poll, initialise an
   * uninitialised board, seed the position, schedule a poll and recompute the
   * focuser info. A seeded stored position is pushed to the board; otherwise
   * the board's position is used.
   */
  function Connect(f: Focuser, status: AxisStatus, grid: u32, hwPosition: int): (g: Focuser)
    requires f.optics.travel > 0.0 && f.limits.maxPosition > 0
    ensures g.connected && g.timers.poll && InfoCurrent(g)
    ensures var p := Poll(f.(connected := true), status);
      var init := if status.initialized then [] else [Initialize];
      match SeededPosition(ReadPosition(p.store), grid)
      case Some(v) => g.position == v && g.sent == f.sent + init + [SetPosition(v)]
      case None => g.position == hwPosition && g.sent == f.sent + init
  {
    var k := SeedPosition(Attach(f, status), grid, hwPosition);
    k.(timers := k.timers.(poll := true),
       optics := k.optics.(info := FocusZone(k.optics.travel, k.optics.aperture, k.optics.focal, k.limits.maxPosition)))
  }

  /** The first steps of Connect: mark the client open, poll, and initialise a board that reports itself uninitialised. */
  function Attach(f: Focuser, status: AxisStatus): (h: Focuser)
    ensures h.connected && h.axis.initialized == status.initialized
    ensures h.sent == f.sent + (if status.initialized then [] else [Initialize])
  {
    var p := Poll(f.(connected := true), status);
    if !p.axis.initialized then p.(sent := p.sent + [Initialize]) else p
  }

  /**
   * The seeding step of Connect: a readable stored position within the grid
   * becomes the position and is pushed to the board; otherwise the board's
   * position is taken and nothing is sent. Only position and commands change.
   */
  function SeedPosition(h: Focuser, grid: u32, hwPosition: int): (k: Focuser)
    ensures var stored := ReadPosition(h.store);
      k.position == (if h.store.Some? && stored != -1 && ToU32(stored) <= grid then h.store.value else hwPosition)
    ensures k.sent == h.sent || k.sent == h.sent + [SetPosition(k.position)]
    ensures k.sent != h.sent <==> h.store.Some? && h.store.value != -1 && ToU32(h.store.value) <= grid
    ensures k == h.(position := k.position, sent := k.sent)
  {
    match SeededPosition(ReadPosition(h.store), grid)
    case Some(v) => h.(position := v, sent := h.sent + [SetPosition(v)])
    case None => h.(position := hwPosition)
  }

  /** Disconnect: the client is dropped and every timer removed. */
  function Disconnect(f: Focuser): (g: Focuser)
    ensures !g.connected && g.timers == Timers(false, false, false)
    ensures g == f.(connected := false, timers := g.timers)
  {
    f.(connected := false, timers := Timers(false, false, false))
  }

  // ---------------------------------------------------------------- configuration

  /**
   * SetFocuserMaxPosition: a current position above the new maximum is first
   * pushed down to it on the board and re-read; then the grid per revolution is
   * set. Only when the board accepts that are the maximum, the absolute
   * range [0, value] and the relative range [0, value / 2] adopted and the
   * focuser info recomputed; the clamp is not undone on refusal.
   */
  function SetMaxPosition(f: Focuser, value: u32, clamp: AxisStatus, accepted: bool): (o: Outcome<bool>)
    requires f.connected && f.optics.travel > 0.0 && value > 0
    ensures var clamped := if f.position > value then f.sent + [SetPosition(value)] else f.sent;
      o.next.sent == clamped + [SetGridPerRevolution(value)]
    ensures f.position > value ==> o.next.position == clamp.position
    ensures f.position <= value ==> o.next.position == f.position
    ensures o.result == accepted
    ensures accepted ==> o.next.limits == Limits(0, value, value, value / 2) && InfoCurrent(o.next)
    ensures !accepted ==> o.next.limits == f.limits && o.next.optics == f.optics
  {
    var g := if f.position > value then Poll(f.(sent := f.sent + [SetPosition(value)]), clamp) else f;
    var h := g.(sent := g.sent + [SetGridPerRevolution(value)]);
    if !accepted then Outcome(h, false)
    else
      var k := h.(limits := Limits(0, value, value, value / 2));
      Outcome(k.(optics := k.optics.(info := FocusZone(k.optics.travel, k.optics.aperture, k.optics.focal, value))), true)
  }

  /** SyncFocuser: refused when disconnected; otherwise tell the board its position is `ticks` and poll. */
  function Sync(f: Focuser, ticks: u32, status: AxisStatus): (o: Outcome<bool>)
    ensures o.result == f.connected
    ensures !f.connected ==> o.next == f
    ensures f.connected ==> o.next == Poll(f.(sent := f.sent + [SetPosition(ticks)]), status)
  {
    if !f.connected then Outcome(f, false)
    else Outcome(Poll(f.(sent := f.sent + [SetPosition(ticks)]), status), true)
  }

  /** AbortFocuser: refused when disconnected; otherwise ask the board to stop and poll. Idle follows only from the poll. */
  function Abort(f: Focuser, status: AxisStatus): (o: Outcome<bool>)
    ensures o.result == f.connected
    ensures !f.connected ==> o.next == f
    ensures f.connected ==> o.next == Poll(f.(sent := f.sent + [Stop]), status)
    ensures f.connected ==> (o.next.axis.running <==> status.running)
  {
    if !f.connected then Outcome(f, false)
    else Outcome(Poll(f.(sent := f.sent + [Stop]), status), true)
  }

  /** The EnableBacklash(true) that follows a successful backlash setting when the backlash switch is on. */
  function Reenable(enabled: bool): seq<Command>
  {
    if enabled then [EnableBacklash(true)] else []
  }

  /** SetFocuserBacklash: send the step count; on success re-enable backlash on the board if it is switched on. */
  function SetBacklashSteps(f: Focuser, steps: int, accepted: bool): (o: Outcome<bool>)
    ensures o.result == (f.connected && accepted)
    ensures !f.connected ==> o.next == f
    ensures f.connected ==> o.next == f.(sent := f.sent + [SetBacklashCycles(steps)] + Reenable(accepted && f.backlash.enabled))
  {
    if !f.connected then Outcome(f, false)
    else
      var g := f.(sent := f.sent + [SetBacklashCycles(steps)]);
      if !accepted then Outcome(g, false)
      else Outcome(g.(sent := g.sent + Reenable(f.backlash.enabled)), true)
  }

  /**
   * SetFocuserBacklashEnabled: send the flag; the result is the board's answer.
   * The backlash switch follows the request only when it succeeds (the INDI
   * focuser interface keeps the old switch otherwise).
   */
  function SetBacklashEnabled(f: Focuser, enabled: bool, accepted: bool): (o: Outcome<bool>)
    ensures o.result == (f.connected && accepted)
    ensures !f.connected ==> o.next == f
    ensures f.connected ==> o.next.sent == f.sent + [EnableBacklash(enabled)]
    ensures o.next.backlash.enabled == if o.result then enabled else f.backlash.enabled
  {
    if !f.connected then Outcome(f, false)
    else
      var g := f.(sent := f.sent + [EnableBacklash(enabled)]);
      if !accepted then Outcome(g, false) else Outcome(g.(backlash := g.backlash.(enabled := enabled)), true)
  }

  /**
   * The backlash-period branch of ISNewNumber. `inRange` is whether the value
   * lies in the property's range, which Connect takes from the board; a value
   * outside it is refused by IUUpdateNumber and the old period is kept, and
   * the handler goes on with that. The period is committed and the property
   * marked Busy before the board is asked; a refusal returns false and leaves
   * both in place. On success, backlash is re-enabled on the board if
   * switched on, and the property becomes Ok.
   */
  function BacklashPeriodRequest(f: Focuser, periodUs: real, inRange: bool, accepted: bool): (o: Outcome<bool>)
    requires f.connected
    ensures var p := if inRange then periodUs else f.backlash.periodUs;
      && o.result == accepted
      && o.next.backlash == f.backlash.(periodUs := p, status := if accepted then Ok else Busy)
      && o.next == f.(backlash := o.next.backlash, sent := f.sent + [SetBacklashPeriod(p)] + Reenable(accepted && f.backlash.enabled))
  {
    var p := if inRange then periodUs else f.backlash.periodUs;
    var g := f.(backlash := f.backlash.(periodUs := p, status := Busy), sent := f.sent + [SetBacklashPeriod(p)]);
    if !accepted then Outcome(g, false)
    else Outcome(g.(sent := g.sent + Reenable(g.backlash.enabled), backlash := g.backlash.(status := Ok)), true)
  }

  /** ReverseFocuser: record the flag; always succeeds. */
  function Reverse(f: Focuser, enabled: bool): (g: Focuser)
    ensures g.reverseDirection == enabled
    ensures g.(reverseDirection := f.reverseDirection) == f
  {
    f.(reverseDirection := enabled)
  }

  /** The range of the travel property: 10 to 200 mm. */
  const TravelMin: real := 10.0
  const TravelMax: real := 200.0

  /**
   * The focuser-travel branch of ISNewNumber: store the travel when it is
   * within [10, 200] mm (IUUpdateNumber keeps the old one otherwise) and
   * recompute the focuser info either way.
   */
  function SetTravel(f: Focuser, mm: real): (g: Focuser)
    requires f.limits.maxPosition > 0 && f.optics.travel > 0.0
    ensures g.optics.travel == if TravelMin <= mm <= TravelMax then mm else f.optics.travel
    ensures InfoCurrent(g)
    ensures g == f.(optics := g.optics) && g.optics.aperture == f.optics.aperture && g.optics.focal == f.optics.focal
  {
    var t := if TravelMin <= mm <= TravelMax then mm else f.optics.travel;
    f.(optics := f.optics.(travel := t, info := FocusZone(t, f.optics.aperture, f.optics.focal, f.limits.maxPosition)))
  }

  /** A snooped TELESCOPE_INFO: store aperture and focal length and recompute the focuser info. */
  function SnoopScope(f: Focuser, aperture: real, focal: real): (g: Focuser)
    requires f.optics.travel > 0.0 && f.limits.maxPosition > 0
    ensures g.optics.aperture == aperture && g.optics.focal == focal && InfoCurrent(g)
    ensures aperture * focal == 0.0 ==> g.optics.info.cfz == 0.0 && g.optics.info.quality == Alert
    ensures g == f.(optics := g.optics) && g.optics.travel == f.optics.travel
  {
    f.(optics := f.optics.(aperture := aperture, focal := focal,
                           info := FocusZone(f.optics.travel, aperture, focal, f.limits.maxPosition)))
  }

  /** The range of the temperature-coefficient property: 0 to 50 um per m per degree C. */
  const CoefMax: real := 50.0

  /** The temperature-coefficient branch of ISNewNumber: a value outside [0, 50] is refused by IUUpdateNumber. */
  function SetTemperatureCoefficient(f: Focuser, coef: real): (g: Focuser)
    ensures g.thermal.coef == if 0.0 <= coef <= CoefMax then coef else f.thermal.coef
    ensures g == f.(thermal := g.thermal) && g.thermal == f.thermal.(coef := g.thermal.coef)
  {
    if 0.0 <= coef <= CoefMax then f.(thermal := f.thermal.(coef := coef)) else f
  }

  /**
   * The temperature-compensation switch. Disabling removes the compensation
   * timer. Enabling adds one only when the stored handle is 0, which a handle
   * (-1, or an id handed out by the event loop) never is, so enabling never
   * (re)starts the timer.
   */
  function SetCompensation(f: Focuser, enable: bool): (g: Focuser)
    ensures g.thermal.compensationEnabled == enable
    ensures g.timers.compensation == (enable && f.timers.compensation)
    ensures g == f.(thermal := g.thermal, timers := g.timers)
  {
    if enable then f.(thermal := f.thermal.(compensationEnabled := true))
    else f.(thermal := f.thermal.(compensationEnabled := false), timers := f.timers.(compensation := false))
  }

  /** The temperature-sensor switch: the Raspberry Pi 1-wire sensor, or an analogue pin of the FPGA. */
  datatype Sensor = PiOneWire | FpgaPin14 | FpgaPin15

  /**
   * The temperature-sensor branch of ISNewSwitch. Choosing an FPGA pin removes
   * the compensation timer. Choosing the 1-wire sensor adds one only when the
   * stored handle is 0, which it never is (as in SetCompensation), so
   * compensation stays off until the next connection. Nothing is sent to the
   * board; which sensor readtemp asks is not modelled, the reading being a parameter.
   */
  function SelectSensor(f: Focuser, sensor: Sensor): (g: Focuser)
    ensures g.timers.compensation == (sensor == PiOneWire && f.timers.compensation)
    ensures g == f.(timers := f.timers.(compensation := g.timers.compensation))
  {
    if sensor == PiOneWire then f else f.(timers := f.timers.(compensation := false))
  }

  // ---------------------------------------------------------------- temperature

  /** readtemp: a reading above 100 or below -99 degrees C is refused and the previous temperature kept. */
  function ReadTemperature(f: Focuser, reading: real): (o: Outcome<bool>)
    ensures o.result <==> -99.0 <= reading <= 100.0
    ensures o.next == if o.result then f.(thermal := f.thermal.(temperature := reading)) else f
  {
    if reading > 100.0 || reading < -99.0 then Outcome(f, false)
    else Outcome(f.(thermal := f.thermal.(temperature := reading)), true)
  }

  /** The temperature-update timer fires: read the sensor if connected, and schedule the next update. */
  function TemperatureTimer(f: Focuser, reading: real): (g: Focuser)
    ensures g.timers.temperature
    ensures g.thermal.temperature == if f.connected && -99.0 <= reading <= 100.0 then reading else f.thermal.temperature
    ensures g == f.(thermal := g.thermal, timers := f.timers.(temperature := true))
  {
    var g := if f.connected then ReadTemperature(f, reading).next else f;
    g.(timers := g.timers.(temperature := true))
  }

  /**
   * The temperature branch of updateProperties on connection: when a first
   * reading is accepted, read once more, take the temperature as the last
   * one and start the temperature and compensation timers.
   */
  function StartTemperature(f: Focuser, first: real, second: real): (o: Outcome<bool>)
    ensures o.result <==> -99.0 <= first <= 100.0
    ensures !o.result ==> o.next == f
    ensures o.result ==>
      o.next.thermal.lastTemperature == o.next.thermal.temperature && o.next.timers.temperature && o.next.timers.compensation
    ensures o.result ==> o.next.thermal.temperature == (if -99.0 <= second <= 100.0 then second else first)
  {
    var r := ReadTemperature(f, first);
    if !r.result then Outcome(f, false)
    else
      var g := ReadTemperature(r.next, second).next;
      Outcome(g.(thermal := g.thermal.(lastTemperature := g.thermal.temperature),
                 timers := g.timers.(temperature := true, compensation := true)), true)
  }

  /** The focus shift (um) for a temperature change: coefficient * focal length / 1000 * delta. */
  function ThermalExpansion(coef: real, focal: real, delta: real): (e: real)
    ensures delta == 0.0 || coef == 0.0 || focal == 0.0 ==> e == 0.0
    ensures coef >= 0.0 && focal >= 0.0 ==> (delta > 0.0 ==> e >= 0.0) && (delta < 0.0 ==> e <= 0.0)
  {
    coef * focal / 1000.0 * delta
  }

  function Abs(x: real): real { if x < 0.0 then -x else x }

  /** The steps to move: half the expansion in steps, rounded, so the focus is re-centred in the CFZ. */
  function ThermalAdjustment(expansion: real, stepSize: real): (steps: int)
    requires stepSize > 0.0
    ensures expansion / stepSize / 2.0 - 0.5 <= steps as real <= expansion / stepSize / 2.0 + 0.5
    ensures expansion >= 0.0 ==> steps >= 0
    ensures expansion <= 0.0 ==> steps <= 0
  {
    Round(expansion / stepSize / 2.0)
  }

  /** The expansion since the last motion, from the current temperature, coefficient and focal length. */
  function Drift(t: Thermal, focal: real): (d: real)
    ensures t.temperature == t.lastTemperature ==> d == 0.0
  {
    ThermalExpansion(t.coef, focal, t.temperature - t.lastTemperature)
  }

  /** Whether a compensation pass moves: enabled, the temperature changed, and the drift exceeds half the CFZ. */
  predicate CompensationFires(f: Focuser): (r: bool)
    ensures !f.thermal.compensationEnabled || f.thermal.temperature == f.thermal.lastTemperature ==> !r
    ensures f.thermal.coef == 0.0 && f.optics.info.cfz >= 0.0 ==> !r
  {
    && f.thermal.compensationEnabled
    && f.thermal.temperature != f.thermal.lastTemperature
    && Abs(Drift(f.thermal, f.optics.focal)) > f.optics.info.cfz / 2.0
  }

  /**
   * The compensation timer fires (temperatureCompensation). Disconnected: it
   * returns without rescheduling. Connected: when CompensationFires, an absolute
   * move to position + adjustment is requested and the temperature becomes the
   * last temperature whatever the move returns; then the next pass is scheduled.
   */
  function Compensate(f: Focuser, before: AxisStatus, started: bool, after: AxisStatus): (g: Focuser)
    requires Consistent(f)
    ensures !f.connected ==> g == f.(timers := f.timers.(compensation := false))
    ensures f.connected ==> g.timers.compensation
    ensures f.connected && !CompensationFires(f) ==> g == f.(timers := f.timers.(compensation := true))
    ensures f.connected && CompensationFires(f) ==>
      var steps := ThermalAdjustment(Drift(f.thermal, f.optics.focal), f.optics.info.stepSize);
      var m := MoveAbsolute(f, f.position + steps, before, started, after).next;
      g == m.(thermal := m.thermal.(lastTemperature := f.thermal.temperature), timers := m.timers.(compensation := true))
    ensures f.connected && CompensationFires(f) ==> g.thermal.lastTemperature == g.thermal.temperature
  {
    if !f.connected then f.(timers := f.timers.(compensation := false))
    else
      var g := CompensationMove(f, before, started, after);
      g.(timers := g.timers.(compensation := true))
  }

  /** The decision of a connected compensation pass: the move and the new last temperature when it fires, else nothing. */
  function CompensationMove(f: Focuser, before: AxisStatus, started: bool, after: AxisStatus): (g: Focuser)
    requires f.connected && f.optics.info.stepSize > 0.0
    ensures !CompensationFires(f) ==> g == f
    ensures CompensationFires(f) ==>
      var steps := ThermalAdjustment(Drift(f.thermal, f.optics.focal), f.optics.info.stepSize);
      var m := MoveAbsolute(f, f.position + steps, before, started, after).next;
      g == m.(thermal := m.thermal.(lastTemperature := f.thermal.temperature))
  {
    if CompensationFires(f) then
      var steps := ThermalAdjustment(Drift(f.thermal, f.optics.focal), f.optics.info.stepSize);
      var m := MoveAbsolute(f, f.position + steps, before, started, after).next;
      m.(thermal := m.thermal.(lastTemperature := f.thermal.temperature))
    else f
  }
}
