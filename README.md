# FPGA focuser controller and gphoto trigger parsers, in Dafny

This project models two INDI third-party drivers.

- **The FPGA focuser** (`indi-fpgafocuser`). The INDI driver talks to a
  focuser motor on an FPGA board through a remote client (`koheron_interface`).
  It keeps the absolute position, the board's running and direction flags, the
  "motion detected" edge flag, the reverse flag, the temperature readings, the
  backlash settings and the focus-zone figures. It also persists the position
  in a file.
- **Two small pieces of the gphoto driver.**
  - The Peltier cooler trigger decides from its port string whether the cooler
    is switched through a Raspberry Pi GPIO pin or an ESP relay board, and which
    request switches it on or off.
  - The memory-mapped shutter driver splits a `name@offset` device string and
    tests hexadecimal notation.

How the project is laid out:

- `focuser_spec.dfy` (module `FocuserSpec`) is the focuser as values. It has one
  `Focuser` state record and one transition function per handler. Each handler
  returns the new state together with the handler's result.
  - Every reply from the board is an argument: the status reply, the position,
    and whether it accepted a command.
  - Every command sent to the board is appended to the `sent` log. So "issues no
    motion command" is a statement about `sent`.
  - The position file is an `Option<int>` store.
  - Timer handles are "pending" flags. A handle of -1 is false.
- `fpga_focuser.dfy` (module `FocuserDriver`) is the driver object. Class
  `FpgaFocuser` has the source's fields and one method per handler, performing
  the source's steps in order. Each method is proved to produce exactly the state
  (and result) of the matching `FocuserSpec` function. The module also holds
  `is_number` as a loop.
- `focuser_invariants.dfy` (module `FocuserInvariants`) proves properties across
  handlers.
  - Every handler preserves the state invariant `Consistent`, so every state
    reachable from construction satisfies it.
  - A sequence of status polls writes the store exactly on the edge where motion
    stops.
- `peltier_cooling.dfy` (module `PeltierCooling`) holds the trigger
  classification and the relay dispatch.
- `mmap_driver.dfy` (module `MMapDriver`) holds `is_hex_notation` and the device
  string split.
- `std_string.dfy` (module `StdString`) holds `std::count`, `find` and
  `find_first_not_of` as functions.
- `wrappers.dfy` holds `Option`.

Floating-point values (temperatures, travel, focal length, CFZ) are modelled as
`real`. C's `round` is modelled as rounding half away from zero. An `int` cast to
`uint32_t` is reduction modulo 2^32 (`ToU32`).

## Model

| member | source | states |
|---|---|---|
| FocuserSpec.ToU32 | indi-fpgafocuser/fpga_focuser.cpp:184-185 | the `uint32_t` conversion keeps values in range and adds 2^32 to negative ones |
| FocuserSpec.Round | indi-fpgafocuser/fpga_focuser.cpp:987 | the rounded value is within 0.5 of the argument and has its sign |
| FocuserSpec.Initial | indi-fpgafocuser/fpga_focuser.h:87-101 | a fresh focuser has every hardware flag, `detected_motion` and `reverse_direction` false, no timer pending, no command sent, and satisfies Consistent |
| FocuserSpec.ReadPosition | indi-fpgafocuser/fpga_focuser.cpp:794-836 | `savePosition(-1)` reads -1 when the file is missing or unreadable, and otherwise the stored number |
| FocuserSpec.SavePosition | indi-fpgafocuser/fpga_focuser.cpp:794-836 | any argument but -1 is written and then reads back; -1 writes nothing |
| FocuserSpec.FRatio | indi-fpgafocuser/fpga_focuser.cpp:881-888 | the f-ratio is 0 when aperture or focal length is 0 |
| FocuserSpec.Quality | indi-fpgafocuser/fpga_focuser.cpp:894-903 | the band is Ok exactly from 4 steps per CFZ, Busy exactly strictly between 2 and 4, and Alert exactly at 2 or below |
| FocuserSpec.FocusZone | indi-fpgafocuser/fpga_focuser.cpp:873-911 | step size is positive, CFZ and steps per CFZ are non-negative, an unknown aperture or focal length gives CFZ 0 and Alert, and the state is the Quality band of the steps per CFZ. The step size is 1000 × travel / maximum position, in µm per step |
| FocuserSpec.FocusZoneExample | indi-fpgafocuser/fpga_focuser.cpp:873-911 | a 200 mm aperture at 1400 mm focal length, 10 mm travel and 10000 steps give 1 µm steps, a CFZ of 124.3424 µm, 124 steps per CFZ and Ok |
| FocuserSpec.Poll | indi-fpgafocuser/fpga_focuser.cpp:929-956 | the poll adopts the board's running flag and position. The store changes only on the edge (edge flag set, board idle), and a position other than -1 is written there. A running reply schedules a poll and marks the position Busy. An idle reply keeps the timers and marks both positions Ok, and only an idle one changes the relative state. The board's initialized and direction flags are adopted. The ticks, reverse flag, limits, optics, backlash, temperatures, connection and command log never change |
| FocuserSpec.StatusTimer | indi-fpgafocuser/fpga_focuser.cpp:957-963 | the timer consumes its pending poll and polls only while connected; another poll is pending exactly when connected and the board runs |
| FocuserSpec.Started | indi-fpgafocuser/fpga_focuser.cpp:771-775 | after a start the position is the re-read one and the last temperature is the current reading |
| FocuserSpec.MoveAbsolute | indi-fpgafocuser/fpga_focuser.cpp:742-780 | Alert without a command while the board runs or the target is out of [min, max]. Ok without a command when the target is the position just read. Otherwise exactly one GotoTarget with direction `current < target`. A refusal gives Alert; a start gives Ok, Busy, the new position and the snapshot temperature. The last temperature changes only on a started move |
| FocuserSpec.GotoFromPolled | indi-fpgafocuser/fpga_focuser.cpp:745-779 | after the first poll: Alert and no change while the board runs or the target is outside [min, max]. The result is Ok exactly when idle, in range, and either already at the target or started. Any non-Ok result keeps the temperatures and the position just read |
| FocuserSpec.MoveRelative | indi-fpgafocuser/fpga_focuser.cpp:720-740 | Alert without a command while the board runs. Otherwise exactly one Increment command, with no bounds check. A refusal gives Alert; a start gives Ok, Busy and the snapshot temperature. The last temperature changes only on a started move, and the limits never change |
| FocuserSpec.IncrementFromPolled | indi-fpgafocuser/fpga_focuser.cpp:723-739 | after the first poll: Alert and no change while the board runs. The result is Ok exactly when idle and started. Any non-Ok result keeps the temperatures and the position just read |
| FocuserSpec.RelativeDirection | indi-fpgafocuser/fpga_focuser.cpp:402-408 | the direction is inward exactly when the inward switch is selected and the focuser is not reversed, or the other way round |
| FocuserSpec.RelativeTicks | indi-fpgafocuser/fpga_focuser.cpp:298-299 | a requested tick count replaces the stored one exactly when it lies in the property's range [0, relMax]; otherwise the stored count is kept |
| FocuserSpec.RelativeRequest | indi-fpgafocuser/fpga_focuser.cpp:396-411 | refused and unchanged on the remembered running flag. Otherwise it stores RelativeTicks (an out-of-range request keeps the old ticks and still moves by them), moves relatively in the possibly swapped direction, and publishes the move's result as the relative state |
| FocuserSpec.ResetPosition | indi-fpgafocuser/fpga_focuser.cpp:490-504 | the reset is an absolute move to the home position, after which the store holds 0 |
| FocuserSpec.SeededPosition | indi-fpgafocuser/fpga_focuser.cpp:182-202 | the stored position is adopted exactly when it reads as other than -1 and, as `uint32_t`, does not exceed the grid per revolution; otherwise the board's position is kept |
| FocuserSpec.Connect | indi-fpgafocuser/fpga_focuser.cpp:145-211 | a connected focuser has a poll pending and current focus info. Its position and commands follow SeededPosition: an adopted position is pushed with SetPosition after any Initialize; otherwise the board's position is used |
| FocuserSpec.Attach | indi-fpgafocuser/fpga_focuser.cpp:160-172 | the client is open, the board's initialized flag is adopted, and Initialize is sent exactly when the board reports itself uninitialised |
| FocuserSpec.SeedPosition | indi-fpgafocuser/fpga_focuser.cpp:182-202 | the seeding step takes the stored position exactly when the store holds a value other than -1 that fits the grid, and then sends exactly one SetPosition with it; otherwise it takes the board's position and sends nothing. Nothing else changes |
| FocuserSpec.Disconnect | indi-fpgafocuser/fpga_focuser.cpp:213-229 | disconnection removes every timer and changes nothing else |
| FocuserSpec.SetMaxPosition | indi-fpgafocuser/fpga_focuser.cpp:115-143 | a position above the new maximum is first clamped on the board and re-read. The grid is then always sent. The limits become [0, value], and the relative range [0, value / 2], with current focus info only when the board accepts; a refusal keeps the old limits and focus info |
| FocuserSpec.Sync | indi-fpgafocuser/fpga_focuser.cpp:671-679 | fails and changes nothing when disconnected; otherwise sends SetPosition(ticks) and then re-reads the status |
| FocuserSpec.Abort | indi-fpgafocuser/fpga_focuser.cpp:711-718 | fails and changes nothing when disconnected; otherwise sends Stop and re-reads; the running flag is the one re-read |
| FocuserSpec.SetBacklashSteps | indi-fpgafocuser/fpga_focuser.cpp:681-691 | succeeds exactly when connected and the board accepts. Sends the cycle count, then EnableBacklash(true) only on success with backlash switched on |
| FocuserSpec.SetBacklashEnabled | indi-fpgafocuser/fpga_focuser.cpp:693-702 | succeeds exactly when connected and the board accepts. Sends the flag when connected. The switch follows the request only on success |
| FocuserSpec.BacklashPeriodRequest | indi-fpgafocuser/fpga_focuser.cpp:414-428 | an in-range period is committed before the board is asked and is kept on refusal (state Busy); an out-of-range one keeps the old period, which is still sent. On success the state is Ok and backlash is re-enabled if switched on |
| FocuserSpec.Reverse | indi-fpgafocuser/fpga_focuser.cpp:782-792 | only the reverse flag changes, to the requested value |
| FocuserSpec.SetTravel | indi-fpgafocuser/fpga_focuser.cpp:431-439 | the travel takes the requested value exactly within [10, 200] mm and is kept otherwise; the focus info is recomputed either way, and nothing else changes |
| FocuserSpec.SnoopScope | indi-fpgafocuser/fpga_focuser.cpp:631-641 | only aperture, focal length and the recomputed focus info change; a zero aperture or focal length gives CFZ 0 and Alert |
| FocuserSpec.SetTemperatureCoefficient | indi-fpgafocuser/fpga_focuser.cpp:442-449 | the coefficient takes the requested value exactly within [0, 50] and is kept otherwise; nothing else changes |
| FocuserSpec.SetCompensation | indi-fpgafocuser/fpga_focuser.cpp:536-557 | the switch follows the request. Disabling removes the compensation timer. Enabling never starts one, because the handle is never 0 |
| FocuserSpec.SelectSensor | indi-fpgafocuser/fpga_focuser.cpp:506-534 | nothing is sent to the board. Selecting an FPGA pin removes the compensation timer; selecting the 1-wire sensor never adds one, because the handle is never 0. Nothing else changes |
| FocuserSpec.ReadTemperature | indi-fpgafocuser/fpga_focuser.cpp:838-871 | a reading is accepted exactly within [-99, 100]; an accepted reading becomes the temperature, and a refused one leaves the state unchanged |
| FocuserSpec.TemperatureTimer | indi-fpgafocuser/fpga_focuser.cpp:964-970 | the timer always reschedules itself; it reads the sensor only while connected |
| FocuserSpec.StartTemperature | indi-fpgafocuser/fpga_focuser.cpp:343-355 | when the first reading is accepted, the second reading is taken, the last temperature is set to the current one and both temperature timers start; otherwise nothing changes |
| FocuserSpec.ThermalExpansion | indi-fpgafocuser/fpga_focuser.cpp:981-984 | the expansion is 0 when the temperature change, the coefficient or the focal length is 0, and has the sign of the temperature change for a non-negative coefficient and focal length |
| FocuserSpec.Drift | indi-fpgafocuser/fpga_focuser.cpp:981-984 | the drift since the last temperature is 0 when the temperature has not changed |
| FocuserSpec.CompensationFires | indi-fpgafocuser/fpga_focuser.cpp:977-985 | a pass never moves while compensation is disabled or the temperature equals the last one, nor with a zero coefficient |
| FocuserSpec.ThermalAdjustment | indi-fpgafocuser/fpga_focuser.cpp:985-987 | the adjustment is within half a step of half the expansion in steps and has the expansion's sign |
| FocuserSpec.Compensate | indi-fpgafocuser/fpga_focuser.cpp:972-995 | disconnected: nothing but the timer handle changes, and it is not rescheduled. Connected and not firing (disabled, same temperature, or drift within CFZ/2): only the reschedule. Firing: an absolute move to position + adjustment. The last temperature becomes the reading whatever the move returns |
| FocuserDriver.FpgaFocuser.constructor | indi-fpgafocuser/fpga_focuser.h:87-101 | a fresh object's state is FocuserSpec.Initial and satisfies Consistent |
| FocuserDriver.FpgaFocuser.SavePosition | indi-fpgafocuser/fpga_focuser.cpp:794-836 | the store becomes FocuserSpec.SavePosition of the old one, and the result is what it reads as |
| FocuserDriver.FpgaFocuser.UpdateStatusFunc | indi-fpgafocuser/fpga_focuser.cpp:929-956 | the fields become FocuserSpec.Poll of the old state |
| FocuserDriver.FpgaFocuser.UpdateStatus | indi-fpgafocuser/fpga_focuser.cpp:957-963 | the fields become FocuserSpec.StatusTimer of the old state, and Consistent is kept |
| FocuserDriver.FpgaFocuser.MoveAbsFocuser | indi-fpgafocuser/fpga_focuser.cpp:742-780 | fields and result are FocuserSpec.MoveAbsolute of the old state, and Consistent is kept |
| FocuserDriver.FpgaFocuser.MoveRelFocuser | indi-fpgafocuser/fpga_focuser.cpp:720-740 | fields and result are FocuserSpec.MoveRelative of the old state, and Consistent is kept |
| FocuserDriver.FpgaFocuser.NewRelativePosition | indi-fpgafocuser/fpga_focuser.cpp:396-411 | fields and result are FocuserSpec.RelativeRequest of the old state, and Consistent is kept |
| FocuserDriver.FpgaFocuser.ResetAbsolutePosition | indi-fpgafocuser/fpga_focuser.cpp:490-504 | the fields become FocuserSpec.ResetPosition of the old state, and Consistent is kept |
| FocuserDriver.FpgaFocuser.GetFocuserInfo | indi-fpgafocuser/fpga_focuser.cpp:873-911 | only the focus info changes, to FocusZone of travel, aperture, focal length and maximum position |
| FocuserDriver.FpgaFocuser.Connect | indi-fpgafocuser/fpga_focuser.cpp:145-211 | the fields become FocuserSpec.Connect of the old state, and Consistent is kept |
| FocuserDriver.FpgaFocuser.Disconnect | indi-fpgafocuser/fpga_focuser.cpp:213-229 | the fields become FocuserSpec.Disconnect of the old state, and Consistent is kept |
| FocuserDriver.FpgaFocuser.SetFocuserMaxPosition | indi-fpgafocuser/fpga_focuser.cpp:115-143 | fields and result are FocuserSpec.SetMaxPosition of the old state, and Consistent is kept |
| FocuserDriver.FpgaFocuser.SyncFocuser | indi-fpgafocuser/fpga_focuser.cpp:671-679 | fields and result are FocuserSpec.Sync of the old state, and Consistent is kept |
| FocuserDriver.FpgaFocuser.AbortFocuser | indi-fpgafocuser/fpga_focuser.cpp:711-718 | fields and result are FocuserSpec.Abort of the old state, and Consistent is kept |
| FocuserDriver.FpgaFocuser.SetFocuserBacklash | indi-fpgafocuser/fpga_focuser.cpp:681-691 | fields and result are FocuserSpec.SetBacklashSteps of the old state, and Consistent is kept |
| FocuserDriver.FpgaFocuser.SetFocuserBacklashEnabled | indi-fpgafocuser/fpga_focuser.cpp:693-702 | fields and result are FocuserSpec.SetBacklashEnabled of the old state, and Consistent is kept |
| FocuserDriver.FpgaFocuser.NewBacklashPeriod | indi-fpgafocuser/fpga_focuser.cpp:414-428 | fields and result are FocuserSpec.BacklashPeriodRequest of the old state, and Consistent is kept |
| FocuserDriver.FpgaFocuser.ReverseFocuser | indi-fpgafocuser/fpga_focuser.cpp:782-792 | the fields become FocuserSpec.Reverse of the old state, and the result is true, and Consistent is kept |
| FocuserDriver.FpgaFocuser.NewTravel | indi-fpgafocuser/fpga_focuser.cpp:431-439 | the fields become FocuserSpec.SetTravel of the old state, and Consistent is kept |
| FocuserDriver.FpgaFocuser.SnoopScopeParameters | indi-fpgafocuser/fpga_focuser.cpp:631-641 | the fields become FocuserSpec.SnoopScope of the old state, and Consistent is kept |
| FocuserDriver.FpgaFocuser.NewTemperatureCoefficient | indi-fpgafocuser/fpga_focuser.cpp:442-449 | the fields become FocuserSpec.SetTemperatureCoefficient of the old state, and Consistent is kept |
| FocuserDriver.FpgaFocuser.SetTemperatureCompensation | indi-fpgafocuser/fpga_focuser.cpp:536-557 | the fields become FocuserSpec.SetCompensation of the old state, and Consistent is kept |
| FocuserDriver.FpgaFocuser.SetTemperatureSensor | indi-fpgafocuser/fpga_focuser.cpp:506-534 | the fields become FocuserSpec.SelectSensor of the old state, and Consistent is kept |
| FocuserDriver.FpgaFocuser.ReadTemp | indi-fpgafocuser/fpga_focuser.cpp:838-871 | fields and result are FocuserSpec.ReadTemperature of the old state, and Consistent is kept |
| FocuserDriver.FpgaFocuser.UpdateTemperature | indi-fpgafocuser/fpga_focuser.cpp:964-970 | the fields become FocuserSpec.TemperatureTimer of the old state, and Consistent is kept |
| FocuserDriver.FpgaFocuser.StartTemperatureUpdates | indi-fpgafocuser/fpga_focuser.cpp:343-355 | fields and result are FocuserSpec.StartTemperature of the old state, and Consistent is kept |
| FocuserDriver.FpgaFocuser.TemperatureCompensation | indi-fpgafocuser/fpga_focuser.cpp:972-995 | the fields become FocuserSpec.Compensate of the old state, and Consistent is kept |
| FocuserDriver.IsNumber | indi-fpgafocuser/fpga_focuser.h:110-115 | true exactly for a non-empty string of decimal digits, so the empty string and any sign, space or letter give false |
| FocuserInvariants.PollConsistent | indi-fpgafocuser/fpga_focuser.cpp:929-956 | a status poll preserves Consistent |
| FocuserInvariants.MoveAbsoluteConsistent | indi-fpgafocuser/fpga_focuser.cpp:742-780 | an absolute move preserves Consistent |
| FocuserInvariants.MoveRelativeConsistent | indi-fpgafocuser/fpga_focuser.cpp:720-740 | a relative move preserves Consistent |
| FocuserInvariants.RelativeRequestConsistent | indi-fpgafocuser/fpga_focuser.cpp:396-411 | the relative-position handler preserves Consistent |
| FocuserInvariants.ConnectConsistent | indi-fpgafocuser/fpga_focuser.cpp:145-211 | connecting preserves Consistent |
| FocuserInvariants.SetMaxPositionConsistent | indi-fpgafocuser/fpga_focuser.cpp:115-143 | changing the maximum position preserves Consistent |
| FocuserInvariants.CompensateConsistent | indi-fpgafocuser/fpga_focuser.cpp:972-995 | a compensation pass preserves Consistent |
| FocuserInvariants.CompensationSettles | indi-fpgafocuser/fpga_focuser.cpp:972-995 | after a connected compensation pass, with no new reading, the next pass does not fire and changes nothing |
| FocuserInvariants.StartedWithoutMotionNotStored | indi-fpgafocuser/fpga_focuser.cpp:745-779 | when a started move's second poll already reports the board idle, the edge flag is never set, so a following idle poll leaves the store as it was |
| FocuserInvariants.StepConsistent | indi-fpgafocuser/fpga_focuser.cpp:375-641 | every handler, on any board replies, preserves Consistent |
| FocuserInvariants.Run | indi-fpgafocuser/fpga_focuser.cpp:375-641 | any sequence of handler invocations from a Consistent state ends in a Consistent state |
| FocuserInvariants.ReachableConsistent | indi-fpgafocuser/fpga_focuser.cpp:873-911 | in every state reachable from construction, travel and maximum position are positive, the bounds are ordered, a running connected board has a poll pending, and a connected focuser's step size is positive |
| FocuserInvariants.Polls | indi-fpgafocuser/fpga_focuser.cpp:929-956 | polls never send commands or change limits or temperatures; after them the position and running flag are those of the last reply |
| FocuserInvariants.PollsAppend | indi-fpgafocuser/fpga_focuser.cpp:929-956 | polling two reply sequences one after the other equals polling their concatenation |
| FocuserInvariants.IdlePollsKeepStore | indi-fpgafocuser/fpga_focuser.cpp:935-953 | idle replies after an idle one never write the store and never schedule a poll |
| FocuserInvariants.RunningPollsKeepStore | indi-fpgafocuser/fpga_focuser.cpp:935-953 | running replies never write the store, and after at least one of them the edge flag is set and a poll is pending |
| FocuserInvariants.MotionStopPersistsOnce | indi-fpgafocuser/fpga_focuser.cpp:935-953 | after running replies, an idle one and any number of further idle ones, the store holds the position where motion stopped |
| StdString.Count | indi-gphoto/peltier_cooling.hpp:111-112 | the count is the multiplicity of the character, and is 0 exactly when it does not occur |
| StdString.Find | indi-gphoto/peltier_cooling.hpp:113 | npos exactly when the character does not occur; otherwise the index of its first occurrence |
| StdString.FindFirstNotOf | indi-gphoto/peltier_cooling.hpp:119 | npos exactly when every character from `pos` on is in the set; otherwise the first index from `pos` whose character is not |
| StdString.CountSplit | indi-gphoto/mmapdriver.h:36 | counting across a split at an occurrence adds the counts of both sides plus one |
| PeltierCooling.PiTriggerPin | indi-gphoto/peltier_cooling.hpp:110-126 | an accepted port yields the text after the '@' as the pin, and that text is all decimal digits |
| PeltierCooling.PiTriggerPinAccepts | indi-gphoto/peltier_cooling.hpp:111-123 | isPiTrigger accepts exactly the ports with length 4 to 6, the only '@' at index 3, no ':' and only decimal digits after the '@'; the pin is the text after the '@' |
| PeltierCooling.EmptyPinAccepted | indi-gphoto/peltier_cooling.hpp:118-123 | "abc@" is accepted with the empty pin |
| PeltierCooling.RelayFrame | indi-gphoto/peltier_cooling.hpp:54-76 | the relay frame is A0 01 01 A2 (on) or A0 01 00 A1 (off), and its last byte is the low byte of the sum of the first three |
| PeltierCooling.PeltierTrigger.constructor | indi-gphoto/peltier_cooling.hpp:25-43 | an empty port sets no flag. A Pi trigger is never ESP and has its GPIO wrapper for the pin. An ESP trigger is a non-Pi port that is an IPv4 address; it keeps the address and is HTTP exactly when the board's root page answers 200 |
| PeltierCooling.PeltierTrigger.IsPiTrigger | indi-gphoto/peltier_cooling.hpp:110-126 | accepts exactly when PiTriggerPin does, and then makes the GPIO wrapper for the pin; a refusal leaves it as it was |
| PeltierCooling.PeltierTrigger.SetEspIP | indi-gphoto/peltier_cooling.hpp:89-101 | a non-IPv4 string is refused and changes nothing. Otherwise the address is kept, the root page is requested, and HTTP is recorded exactly on status 200 |
| PeltierCooling.PeltierTrigger.SwitchCooling | indi-gphoto/peltier_cooling.hpp:50-87 | Pi first (GPIO set or clear on the trigger's pin, success). Then ESP without HTTP (the relay frame over TCP port 8080; the result is whether it was sent). Then ESP with HTTP (the RELAY URL; success exactly on status 200). Otherwise false with no request |
| PeltierCooling.PeltierTrigger.StartCooling | indi-gphoto/peltier_cooling.hpp:50-68 | start_cooling sends GpioSet on the trigger's pin, the frame A0 01 01 A2, or the `/RELAY=ON` URL, by the same dispatch |
| PeltierCooling.PeltierTrigger.StopCooling | indi-gphoto/peltier_cooling.hpp:69-87 | stop_cooling sends GpioClear on the trigger's pin, the frame A0 01 00 A1, or the `/RELAY=OFF` URL, by the same dispatch |
| MMapDriver.IsHexNotation | indi-gphoto/mmapdriver.h:64-69 | an accepted string is longer than 2 and starts with a lower-case "0x" followed by a hexadecimal digit |
| MMapDriver.HexNotationChars | indi-gphoto/mmapdriver.h:64-69 | is_hex_notation holds exactly for strings longer than 2 that start with a lower-case "0x" followed only by hexadecimal digits |
| MMapDriver.HexNotationExamples | indi-gphoto/mmapdriver.h:66-68 | "0x" alone and "0X1" are refused, and "0xDEADbeef" is accepted |
| MMapDriver.SplitDevice | indi-gphoto/mmapdriver.h:36-44 | an accepted device string is the name, '@' and the suffix; the name has at most two characters and neither part holds an '@' |
| MMapDriver.SplitJoined | indi-gphoto/mmapdriver.h:36-44 | joining a name of at most two characters and a suffix, both without '@', splits back into the same two parts |
| MMapDriver.SplitDeviceRefuses | indi-gphoto/mmapdriver.h:36-42 | the split is refused exactly when the '@' count is not 1, an '@' lies beyond index 2, or the third condition holds |
| MMapDriver.MMemDriver.constructor | indi-gphoto/mmapdriver.h:32-53 | a new driver is not connected and has offset 0. Its name is the text before the '@' when the string is accepted, and empty otherwise |

## Left out

- INDI property plumbing is not modelled: property definitions, `IUUpdate*`, `IDSet*`, configuration saving and the global driver object. Only the decisions inside the handlers are.
- The `koheron_interface` client is foreign. Its replies are parameters: `AxisStatus` for a status reply with its position, `started` and `accepted` for command answers, and the grid and position read at connect. The client's creation in Connect and its failure paths (no IP address, an invalid one, a thrown exception) are not modelled.
- The position file's path, built from `getenv`, and its I/O are replaced by an `Option<int>` store; a write that fails is not modelled.
- Timers are "pending" flags. The pile-up of timers is not modelled: a running poll adds a timer on every call, and MoveAbsFocuser polls twice.
- The function-local `static detected_motion` is modelled as one per-object field; sharing it across objects is not modelled.
- `lastTemperature` is uninitialised in the source. It is 0 in the model, and it is assigned before any read of it.
- Floating point is idealised as `real`. The `(int)cfz` cast is the floor of a non-negative value. No rounding-error claims are made.
- `IUUpdateNumber` refuses a value outside its property's range and keeps the old one; the handler then carries on with the old value. The model does this for the relative ticks, the backlash period, the travel and the coefficient. The backlash period's range is set from the board at connect, so whether a value is in range is the parameter `inRange`.
- FocuserInvariants.Step: leaves the state unchanged for a maximum position of 0, because getFocuserInfo would divide by it. The property's range [1000, 0x3FFFFFFF] is not enforced, so the step applies every value from 1 to 999.
- The relative-position handler moves once per motion switch that is on. The motion switch is one-of-many, so exactly one is on; the model takes the selected direction as one boolean.
- IERmTimer leaves the stale id in the handle variable. The model clears the "pending" flag instead, which is what the handle stands for.
- The presets handler (fpga_focuser.cpp:461-487) is not a separate member: each selected preset is an absolute move to the preset's value, which is FocuserSpec.MoveAbsolute.
- Motor type and the debug switches are not modelled; they only relay settings to the board.
- The speed is left out. `SetFocuserSpeed` (fpga_focuser.cpp:704-709) sends nothing: it only checks the connection. The speed reaches the board as the period argument `speed / motorPeriodUs` of every FocuserIncrement and FocuserGotoTarget call (fpga_focuser.cpp:728, 764). The model's `Increment` and `GotoTarget` commands drop that argument.
- The backlash period is sent as given; its division by the motor period is not modelled.
- SetFocuserMaxPosition also updates the steps of the relative property and the ranges of the sync and backlash properties. These are not modelled; the model keeps the absolute range, the maximum and the relative range [0, value / 2], which the relative-position handler checks.
- The range [1000, 0x3FFFFFFF] of the maximum-position property is not modelled. Nothing in the driver checks it before SetFocuserMaxPosition runs; its caller is the INDI base class.
- FocuserSpec.MoveAbsolute: requires a connected focuser, because the source calls the board client without checking it; the same holds for MoveRelative, RelativeRequest, ResetPosition, SetMaxPosition and BacklashPeriodRequest.
- FocuserSpec.SetMaxPosition: also requires a positive value, because a 0 would divide by zero in getFocuserInfo. The source does not exclude 0 itself.
- FocuserSpec.Compensate: requires Consistent, so that the step size it divides by is positive; ReachableConsistent shows every reachable state qualifies.
- PeltierCooling.PiTriggerPin: strings are modelled as sequences of characters, while `std::string` counts and indexes bytes. The model and the source agree on ASCII input only. For example, "éa@1" is 5 bytes in UTF-8, so the source finds the '@' at byte 3 and accepts pin "1", while the model finds it at index 2 and refuses. The same holds for the StdString functions and MMapDriver.SplitDevice.
- Networking is foreign: IPv4 parsing (`inet_pton`), HTTP requests, TCP sockets and the GPIO wrapper. Their answers are parameters (`ipv4`, `httpStatus`, `tcpSent`), and the requests are returned as `RelayRequest` values.
- MMapDriver.SplitDevice: the third condition `found << device.size() - 5` shifts by an underflowed `size_t` for short strings, which is undefined behaviour. Its value is taken as the parameter `shiftGuard`.
- MMapDriver.MMemDriver.constructor: `is_valid_hex` is not defined in the source, and `connect = true` names no field. The model ends the constructor after the split, with the driver not connected. The suffix left in the erased `device` is computed but not kept, as in the source.
- `openShutter` and `closeShutter` of the memory-mapped driver are declared but not defined, so they are not modelled.

## Code and design notes

- The connect-time bound compares the stored position, as `uint32_t`, with the board's grid per revolution, not with the absolute-position maximum. The model follows this.
- Temperature compensation sets `lastTemperature` to the current reading whether or not the move it requested succeeded. The model follows this.
- The backlash-period handler commits the new period before asking the board, so a refusal does not roll it back.
- Enabling temperature compensation adds a timer only when the stored handle equals 0. A handle is -1 or an event-loop id, so enabling never starts the timer; only updateProperties does. The model follows this.
- An out-of-range relative-position request still moves: the handler uses whatever value the property holds, so the focuser moves by the previous tick count.
- When a started absolute move's second poll already finds the board idle, `detected_motion` is never set, so the final position is never written to the position file (FocuserInvariants.StartedWithoutMotionNotStored).
- Choosing an FPGA temperature pin removes the compensation timer, and choosing the 1-wire sensor again never restarts it, because the handle is never 0.
