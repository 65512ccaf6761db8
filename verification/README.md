# OpenLogi agent: a verified model of its concurrent state

OpenLogi's background agent is a set of small state machines that share a mouse, an overlay and a
receiver. A write is numbered now, lands later, may be skipped for a newer one, and reports later
still. This project models those machines in Dafny and proves what they promise over every run.

Check it with `dafny verify dfyconfig.toml`.

## How it is built

Each component is one module: values and functions for what an operation does, a class whose methods
update fields in place as the source does and are proved to compute those functions or to take those
steps, a world whose events are the atomic steps of every thread, an invariant, and theorems over all
event sequences.
Nothing is fair or ordered unless the source orders it.

| module | component |
|---|---|
| `PointerSpeeds` | precision mode and the numbering of pointer-speed writes |
| `PrecisionModes` | what each operation does to modes, debts and speeds, against its inverses |
| `PrecisionSafety`, `PrecisionRuns`, `PrecisionTheorems` | no mouse is left slow and forgotten |
| `ShiftTheorems`, `RoamingTheorems` | exactly when a DPI shift, and a change of route, keep that promise |
| `NewestWrite` | the newest number carries the newest state |
| `HeldDpiShifts`, `DpiBeforeShift` | held DPI shifts and the DPI they return to |
| `DpiCycles` | DPI presets, stepping, rebuilding |
| `ActionRing`, `RingAnswers`, `PointerContext` | the Actions Ring and the pointer context held back under it |
| `Indicators` | the backlight and lock-key indicators with their timers |
| `ReceiverAccess`, `TransportTurns`, `EventMonitor` | leases, turnstiles, the live event monitor |
| `BinaryWatch`, `RecentApps`, `KeyboardSelection` | history refinements and the keyboard choice |

## What the code does not promise

Three families of runs break "no mouse is left slow and forgotten". The code is modelled as it is. Each
family has a run from the initial state, and the exact condition that shuts it out.

- A DPI shift that must read the sensor, because neither config nor an action ever set the DPI, started
  while the mouse is at the precision speed or a precision write runs. Its low write ends the mode, reads
  the precision DPI and settles the debt by landing; the release then restores that reading.
  `SafeShiftIsExact`: in every state the shift is safe if and only if the DPI is known or the mouse is
  calm, neither slow nor about to be. `NeverForgottenIfChecked` gives the form the agent can check: DPI
  known, or mode off and nothing owed. `ForgottenIsReached` gives the run.
- A change of route. Writes numbered on a route wait there when the mouse leaves and run when it comes
  back. `StaleWriteIsExact`, with no low write left to read there: the change is safe if and only if the mode is on, or a restore is owed that no
  landed write is about to settle, or no slowing write runs on the new route or waits there as the newest.
  A low write of a held shift left behind adds a second hazard, which exists even in the mode: it may read
  the sensor of a mouse that was slowed elsewhere (`StaleReadingIsReached`). `SafeRoamIsExact` covers both.
- A sensor that reports no default DPI, which the source accepts on purpose. `AccountedExactly` shows that
  it is the only other way a mouse stays slow.

`NeverForgotten` assumes the first two conditions of the shifts and changes of route in a run, and nothing
else.

## Model

| member | source | states |
|---|---|---|
| `PointerSpeeds.PointerSpeeds.Request` | crates/openlogi-agent-core/src/hardware/write_order.rs:107-166 | numbers one write: the next number of that route, and no other route moves |
| `PointerSpeeds.PointerSpeeds.OweRestore` | crates/openlogi-agent-core/src/pointer_speed.rs:82-89 | owes the key a restore stamped with a generation one above every earlier one |
| `PointerSpeeds.PointerSpeeds.Place` | crates/openlogi-agent-core/src/pointer_speed.rs:544-553 | takes the next number of the route; a place that settles a restore darkens the LED |
| `PointerSpeeds.PointerSpeeds.Write` | crates/openlogi-agent-core/src/pointer_speed.rs:532-539 | one numbered write of the target at that place |
| `PointerSpeeds.PointerSpeeds.PrecisionWrite` | crates/openlogi-agent-core/src/pointer_speed.rs:557-566 | one numbered write of the slowest speed that lights the LED and settles nothing |
| `PointerSpeeds.PointerSpeeds.Republish` | crates/openlogi-agent-core/src/pointer_speed.rs:291-305 | replaces the online mice and the selection; modes and debts stay |
| `PointerSpeeds.PointerSpeeds.Toggle` | crates/openlogi-agent-core/src/pointer_speed.rs:311-333 | acts on the named or selected online mouse only; the flag returned is the mode afterwards, ending it owes and carries a new restore, entering it cancels the debt |
| `PointerSpeeds.PointerSpeeds.ReapplyTo` | crates/openlogi-agent-core/src/pointer_speed.rs:345-361 | a reconnect writes the precision speed in the mode, the carried debt when one is owed, else the saved value if any |
| `PointerSpeeds.PointerSpeeds.HostModeWrite` | crates/openlogi-agent-core/src/pointer_speed.rs:431-438 | the write a reconnect would owe the online mouse; nothing for an offline one |
| `PointerSpeeds.PointerSpeeds.Settle` | crates/openlogi-agent-core/src/pointer_speed.rs:366-371 | clears the debt only when the report carries its own generation |
| `PointerSpeeds.PointerSpeeds.AppMouse` | crates/openlogi-agent-core/src/pointer_speed.rs:390-398 | one mouse of an app write: mode off, a new debt if it was on or owed, the saved value replaced |
| `PointerSpeeds.PointerSpeeds.App` | crates/openlogi-agent-core/src/pointer_speed.rs:381-403 | the loop over every matching mouse, in whatever order the hash map yields them, equals the fold of the single steps, then one number is taken |
| `PointerSpeeds.PointerSpeeds.ShiftRestorePlace` | crates/openlogi-agent-core/src/pointer_speed.rs:411-426 | a shift restore gets a place exactly when the mode is off and no debt but its own is pending, and takes that debt over |
| `PointerSpeeds.PointerSpeeds.Preset` | crates/openlogi-agent-core/src/pointer_speed.rs:444-466 | a preset ends the mode of the DPI mouse found at the route and carries its debt |
| `PointerSpeeds.PointerSpeeds.ReloadMouse` | crates/openlogi-agent-core/src/pointer_speed.rs:493-509 | one online mouse of a reload: ended mode, pending debt, changed scaled speed or nothing |
| `PointerSpeeds.PointerSpeeds.OweOffline` | crates/openlogi-agent-core/src/pointer_speed.rs:511-514 | every offline mouse whose mode ended is owed a restore, one generation each |
| `PointerSpeeds.PointerSpeeds.ReloadWrites` | crates/openlogi-agent-core/src/pointer_speed.rs:480-516 | the whole reload, extraction and both loops, equals folding the single steps over the mice and then the offline ones |
| `PrecisionSafety.StepKeeps` | crates/openlogi-agent-core/src/pointer_speed.rs:311-516 | the invariant behind the next rows, over mice that roam between routes: numbers and generations are ordered, on each route every carrier of a debt is newer than every slowing write, a mouse neither on nor owed has no write left that can slow it where it is |
| `PrecisionSafety.TurnKeeps` | crates/openlogi-agent-core/src/hardware/write_order.rs:299-337 | a turn in which the newest number runs and an older one is skipped keeps the invariant: one write at a time per route, no slowing write freed by it |
| `PrecisionSafety.ChooseKeeps` | crates/openlogi-agent-core/src/hardware.rs:1403-1406 | a shift restore takes its target when its turn starts, from the DPI last set or the reading, or ends with nothing to restore |
| `PrecisionSafety.ReportKeeps` | crates/openlogi-agent-core/src/pointer_speed.rs:366-371 | a landing reported arbitrarily late never clears a newer debt and never leaves a slow mouse unowed |
| `PrecisionSafety.RoamKeeps` | crates/openlogi-agent-core/src/pointer_speed.rs:34-38 | a safe change of route keeps the invariant |
| `PrecisionTheorems.NeverForgotten` | crates/openlogi-agent-core/src/pointer_speed.rs:24-38 | over every interleaving of presses, app writes, presets, reloads, reconnects, shifts, changes of route, skips, landings, failures and late reports in which each shift and each change of route is a safe one: a mouse at the precision speed, or about to be, has its mode on or a restore owed |
| `PrecisionTheorems.NeverForgottenIfChecked` | crates/openlogi-agent-core/src/runtime.rs:572-610 | for a mouse that keeps its route it suffices that the agent starts no shift of unknown DPI in the mode or with a debt |
| `PrecisionTheorems.AccountedExactly` | crates/openlogi-agent-core/src/hardware.rs:861-869 | a mouse off its own speed is always in the mode or owed if and only if it is scaled or its sensor lists a default DPI |
| `PrecisionTheorems.NoDefaultStaysSlow` | crates/openlogi-agent-core/src/hardware.rs:861-869 | for a DPI mouse without a default, a run that ends slow with nothing owed |
| `PrecisionTheorems.ReconnectPaysTheDebt` | crates/openlogi-agent-core/src/pointer_speed.rs:335-361 | from any state of the invariant with a debt, however the write running at that moment ends, a reconnect whose write then lands and reports leaves no debt and the mouse at its own speed, short of a sensor without a default DPI |
| `ShiftTheorems.SafeShiftIsExact` | crates/openlogi-agent-core/src/runtime.rs:576-599 | in every state of the invariant, starting a shift is safe in every continuation if and only if the DPI is known, or the mouse it acts on is not slow and no running write is about to slow it |
| `ShiftTheorems.ShiftForgets` | crates/openlogi-agent-core/src/runtime.rs:572-656 | a shift of unknown DPI started on a slow mouse, or before a running precision write, can end with the mouse slow, the mode off and nothing owed |
| `ShiftTheorems.ReleasedEarlyCarriesTheDebt` | crates/openlogi-agent-core/src/runtime.rs:612-655 | a shift held in the mode and released before its low write lands numbers a restore that carries the debt of the mode it ended |
| `ShiftTheorems.KnownShiftKeepsItsFallback` | crates/openlogi-agent-core/src/runtime.rs:594-598 | a shift started with the DPI known returns to it even if the DPI is forgotten during the hold |
| `ShiftTheorems.ForgottenIsReached` | crates/openlogi-agent-core/src/hardware.rs:825-844 | such a run exists from the initial state, for every DPI mouse |
| `RoamingTheorems.StaleWriteIsExact` | crates/openlogi-agent-core/src/pointer_speed.rs:34-38 | in every state with no low write left to read on the new route, a change of route is safe in every continuation if and only if the mode is on, or a restore is owed that no landed write is about to settle, or no slowing write runs on the new route or waits there as the newest |
| `RoamingTheorems.SafeRoamIsExact` | crates/openlogi-agent-core/src/pointer_speed.rs:345-361 | the same with low writes left behind: safe if and only if also none of them may read a slow sensor there |
| `RoamingTheorems.RoamingIsReached` | crates/openlogi-agent-core/src/pointer_speed.rs:311-333 | for every mouse with two routes, a run from the initial state in which a precision write left behind on the first route slows it with nothing owed |
| `RoamingTheorems.StaleReadingIsReached` | crates/openlogi-agent-core/src/hardware.rs:828-832 | for every DPI mouse with two routes, a run in which the mouse returns in the mode and is still forgotten, because a low write left behind reads it slow |
| `PrecisionModes.PressActsOn` | crates/openlogi-agent-core/src/pointer_speed.rs:311-333 | a press flips the mode of exactly the named mouse, or the selected one when it names none, if online, and by the DPI button only a scaled one; what it writes and owes |
| `PrecisionModes.AppWritesOnce` | crates/openlogi-agent-core/src/pointer_speed.rs:381-403 | an app write numbers one write of its value, which carries a debt exactly when a matching mouse was on or owed, and then a pending debt of one of them |
| `PrecisionModes.ShiftRestoreIsDecided` | crates/openlogi-agent-core/src/pointer_speed.rs:405-426 | a shift restore gets a place and takes over the debt of its own low write, landed or not, and is refused once the mode is on again or ended anew |
| `PrecisionModes.AppEndsExactly` | crates/openlogi-agent-core/src/pointer_speed.rs:373-398 | an app write ends the mode of exactly the mice of its kind on its route, owes those that were slow, replaces their saved value, and leaves every other mouse alone |
| `PrecisionModes.AppValueIsReturnedTo` | crates/openlogi-agent-core/src/pointer_speed.rs:373-376 | after an app write, precision mode returns to the value it wrote |
| `PrecisionModes.ReloadEndsExactly` | crates/openlogi-agent-core/src/pointer_speed.rs:468-479 | a reload ends the mode of exactly the mice, online or not, whose speed or assignments changed, owes each of them a restore, and keeps every other mode and debt |
| `PrecisionModes.ReloadWritesExactly` | crates/openlogi-agent-core/src/pointer_speed.rs:468-516 | a reload over mice with distinct keys writes to exactly those whose mode it ends and those whose speed changed and that are owed or scaled with a saved speed: one write each, in order, that returns the speed, carries what is then owed and has the next number of its route |
| `PrecisionModes.ReloadWritesGiveBack` | crates/openlogi-agent-core/src/pointer_speed.rs:491-510 | every write of a reload gives an online mouse its saved speed or default and settles only its own debt |
| `NewestWrite.NewestAlwaysCarries` | crates/openlogi-agent-core/src/pointer_speed.rs:34-38 | for a mouse that stays online, over every run of writes of its kind: the newest numbered write lights the LED exactly while the mode is on and carries any outstanding debt, and no key is both on and owed |
| `NewestWrite.NewestCarriesFromStart` | crates/openlogi-agent-core/src/pointer_speed.rs:34-38 | the same from the initial state |
| `NewestWrite.StepCarries` | crates/openlogi-agent-core/src/pointer_speed.rs:311-516 | each operation renumbers whenever it changes the mode or the debt |
| `NewestWrite.NeverOnNoLed` | crates/openlogi-agent-core/src/pointer_speed.rs:18-23 | a mouse whose precision button was never pressed never gets an LED instruction or a debt |
| `HeldDpiShifts.RunConserves` | crates/openlogi-agent-core/src/runtime.rs:551-563 | after every sequence of starts and ends each press count equals the presses mapped to the device and is positive, and no press lacks its device |
| `HeldDpiShifts.OneWriteOneDecision` | crates/openlogi-agent-core/src/runtime.rs:572-656 | low writes of a device equal its restore decisions, plus one while it is held |
| `HeldDpiShifts.BalancedLeavesNothing` | crates/openlogi-agent-core/src/runtime.rs:612-625 | if every start is followed by its end, both maps are empty |
| `HeldDpiShifts.RegisteredIsDown` | crates/openlogi-agent-core/src/runtime.rs:573-586 | a press is registered for exactly the device it is down on, told by the events alone: put down by a start with a target while up, not ended since |
| `HeldDpiShifts.HeldIsDown` | crates/openlogi-agent-core/src/runtime.rs:586-590 | a device is held exactly while some press is down on it |
| `HeldDpiShifts.LowersOnTheFirst` | crates/openlogi-agent-core/src/runtime.rs:585-599 | the low DPI is written exactly when a press that was up goes down on a device with no press down |
| `HeldDpiShifts.DecidesOnTheLast` | crates/openlogi-agent-core/src/runtime.rs:612-625 | a restore is decided exactly when the last press down on the device ends |
| `HeldDpiShifts.HeldSinceItsLowWrite` | crates/openlogi-agent-core/src/runtime.rs:600-609 | a held shift is that of its first press: it keeps its key, and no low write came since |
| `HeldDpiShifts.HeldDpiShifts.Start` | crates/openlogi-agent-core/src/runtime.rs:572-610 | registers the press once; writes low exactly on the first press of a device; keeps the counts |
| `HeldDpiShifts.HeldDpiShifts.End` | crates/openlogi-agent-core/src/runtime.rs:612-625 | unregisters the press; hands out the shift exactly on the last release of a device; keeps the counts |
| `DpiBeforeShift.NeverMistaken` | crates/openlogi-agent-core/src/hardware.rs:825-844 | on a mouse whose DPI was never set, in every run the stored reading is the original DPI, or there is none and the sensor is at the original, and every restore that landed wrote the original |
| `DpiBeforeShift.ReleasedIsRestored` | crates/openlogi-agent-core/src/hardware.rs:1400-1418 | all presses released and the newest write over without failing: the sensor is back at the original |
| `DpiBeforeShift.ShiftsDown` | crates/openlogi-agent-core/src/hardware.rs:825-844 | from any reachable rest, a first press whose write lands puts the sensor at the low DPI with the original stored |
| `DpiBeforeShift.ShiftsBack` | crates/openlogi-agent-core/src/hardware.rs:1400-1418 | and the last release whose restore lands puts the original back and forgets the reading |
| `DpiBeforeShift.StepKeeps` | crates/openlogi-agent-core/src/runtime.rs:565-656 | each step keeps the reading and the alternation of holds and restores that make this inductive |
| `DpiCycles.NearestIndex` | crates/openlogi-agent-core/src/dpi.rs:231-234 | the first preset at the least distance |
| `DpiCycles.LeastAbove` | crates/openlogi-agent-core/src/dpi.rs:176-178 | the first least preset above the reading, none exactly when there is none above |
| `DpiCycles.GreatestBelow` | crates/openlogi-agent-core/src/dpi.rs:188-190 | the last greatest preset below the reading, none exactly when there is none below |
| `DpiCycles.Highest` | crates/openlogi-agent-core/src/dpi.rs:179-179 | the last greatest preset |
| `DpiCycles.Lowest` | crates/openlogi-agent-core/src/dpi.rs:205-206 | the first least preset |
| `DpiCycles.Nearest` | crates/openlogi-core/src/hid/dpi.rs:107-119 | the loop over the listed values finds the first nearest one |
| `DpiCycles.NormalizeIsNearest` | crates/openlogi-agent-core/src/dpi.rs:224-228 | the result is listed and no listed value is nearer; a listed DPI, and any DPI without capabilities, stands for itself |
| `DpiCycles.NormalizeTwice` | crates/openlogi-agent-core/src/dpi.rs:224-228 | normalizing is idempotent |
| `DpiCycles.IndexStaysInBounds` | crates/openlogi-agent-core/src/dpi.rs:133-217 | over every run of rebuilds, cycles, picks, steps, reapplies, rejections and reconnects no index leaves its preset list |
| `DpiCycles.CyclesVisitEachPresetOnce` | crates/openlogi-agent-core/src/dpi.rs:137-143 | as many cycles as presets visit each preset exactly once and return to the start |
| `DpiCycles.SteppingFromAReadingAgrees` | crates/openlogi-agent-core/src/dpi.rs:172-192 | on strictly increasing normalized presets, stepping from a preset's DPI is stepping from its index, both ways |
| `DpiCycles.ClimbReachesTheTop` | crates/openlogi-agent-core/src/dpi.rs:172-181 | from any reading, as many steps up as presets end at the highest preset |
| `DpiCycles.DescentReachesTheBottom` | crates/openlogi-agent-core/src/dpi.rs:185-192 | and as many steps down at the lowest |
| `DpiCycles.PickSurvivesReapply` | crates/openlogi-agent-core/src/dpi.rs:147-153 | reapplying the DPI a pick set leaves the pick in place when presets are distinct and supported |
| `DpiCycles.PickMoves` | crates/openlogi-agent-core/src/dpi.rs:147-153 | a pick goes to its preset, past the end to the last, and sets the nearest listed DPI |
| `DpiCycles.StepsMove` | crates/openlogi-agent-core/src/dpi.rs:137-167 | steps and cycles go one place, stop at the ends or wrap, and set the nearest listed DPI |
| `DpiCycles.StepsFromAReadingMove` | crates/openlogi-agent-core/src/dpi.rs:172-193 | a step up goes to a preset above the reading with none between, at the top to a highest one; dually down |
| `DpiCycles.ReapplyGoesNear` | crates/openlogi-agent-core/src/dpi.rs:216-222 | reapplying goes to the first of the presets nearest to the DPI it sets |
| `DpiCycles.RebuildGoesNear` | crates/openlogi-agent-core/src/orchestrator.rs:1236-1270 | a rebuild with other presets or saved DPI goes to the preset nearest to the current DPI, which it keeps unless the saved one changed, and learns the sensor anew |
| `DpiCycles.TouchesItsOwn` | crates/openlogi-agent-core/src/dpi.rs:46-78 | what is reapplied, rejected or reconnected touches the devices at its route, or of its key, and no other |
| `DpiCycles.RebuildOf` | crates/openlogi-agent-core/src/orchestrator.rs:1222-1275 | the last included device of a key decides its new state |
| `DpiCycles.RebuildCovers` | crates/openlogi-agent-core/src/orchestrator.rs:1228-1235 | a key has a state afterwards exactly when an online, enabled, routed device has it |
| `DpiCycles.RebuildKeepsPlace` | crates/openlogi-agent-core/src/orchestrator.rs:1246-1270 | a rebuild keeps the shift cell of a mouse that stays, and with unchanged presets and saved DPI everything but the route |
| `DpiCycles.DpiCycleState.NormalizeDpi` | crates/openlogi-agent-core/src/dpi.rs:224-228 | the nearest listed DPI, any DPI without capabilities |
| `DpiCycles.DpiCycleState.NormalizedPresets` | crates/openlogi-agent-core/src/dpi.rs:195-200 | every preset normalized, in place |
| `DpiCycles.DpiCycleState.SelectCurrent` | crates/openlogi-agent-core/src/dpi.rs:210-214 | sets and returns the normalized preset at the index, in bounds |
| `DpiCycles.DpiCycleState.CycleOn` | crates/openlogi-agent-core/src/dpi.rs:137-143 | advances by one, wrapping |
| `DpiCycles.DpiCycleState.SetTo` | crates/openlogi-agent-core/src/dpi.rs:147-153 | jumps to a preset, clamped |
| `DpiCycles.DpiCycleState.Up` | crates/openlogi-agent-core/src/dpi.rs:156-160 | one preset up, stopping at the last |
| `DpiCycles.DpiCycleState.Down` | crates/openlogi-agent-core/src/dpi.rs:163-167 | one preset down, stopping at the first |
| `DpiCycles.DpiCycleState.UpFrom` | crates/openlogi-agent-core/src/dpi.rs:172-181 | the least preset above the reading, else the highest |
| `DpiCycles.DpiCycleState.DownFrom` | crates/openlogi-agent-core/src/dpi.rs:185-193 | the greatest preset below the reading, else the lowest |
| `DpiCycles.DpiCycleState.SetBack` | crates/openlogi-agent-core/src/dpi.rs:216-222 | the DPI is current and the nearest preset is selected |
| `DpiCycles.DpiCycles.TargetForShift` | crates/openlogi-agent-core/src/dpi.rs:31-36 | key, normalized least preset and route of the named or selected device, exactly when it has presets and a route |
| `DpiCycles.DpiCycles.ReappliedTo` | crates/openlogi-agent-core/src/dpi.rs:46-50 | reapplies to the one device |
| `DpiCycles.DpiCycles.Reconnected` | crates/openlogi-agent-core/src/dpi.rs:54-58 | replaces only the shift cell |
| `DpiCycles.DpiCycles.ReappliedAt` | crates/openlogi-agent-core/src/dpi.rs:62-68 | the loop reapplies to every device at the route and to no other |
| `DpiCycles.DpiCycles.RejectedAt` | crates/openlogi-agent-core/src/dpi.rs:72-78 | the loop makes exactly the devices at the route that hold the DPI forget it |
| `DpiCycles.DpiCycles.RebuildDpiCycles` | crates/openlogi-agent-core/src/orchestrator.rs:1222-1275 | the rebuilding loop equals the rebuild the rows above are about |
| `ActionRing.AtMostOneActivation` | crates/openlogi-agent-core/src/action_ring.rs:180-215 | in every run, overlapping begins included, each session yields at most one activation: a slot of the layout at begin, within the lifetime, by release only after the hold time; the highlight is a filled slot |
| `ActionRing.OnlyFirstReleaseChooses` | crates/openlogi-agent-core/src/action_ring.rs:345-367 | a release closes or chooses only if no release reached the session before, between 250 ms and the lifetime |
| `ActionRing.HighlightFollowsTheReports` | crates/openlogi-agent-core/src/action_ring.rs:286-313 | the highlight is what the session's own hover and unhover reports left |
| `ActionRing.ReleaseRunsTheHighlight` | crates/openlogi-agent-core/src/action_ring.rs:345-367 | a release that counts runs the action the layout at begin held in the highlighted slot, and cancels only when nothing is highlighted |
| `ActionRing.SessionIdsAreFresh` | crates/openlogi-agent-core/src/action_ring.rs:181-182 | an id taken by begin was never used before |
| `ActionRing.GenerationCountsChanges` | crates/openlogi-agent-core/src/action_ring.rs:269-282 | after every operation the published invocation is the active session's, and the generation rises by one exactly when it changed |
| `ActionRing.GenerationsOnlyRise` | crates/openlogi-agent-core/src/action_ring.rs:269-282 | along a run generations never fall, and an unchanged one means an unchanged observation |
| `ActionRing.EqualGenerationsEqualObservations` | crates/openlogi-agent-core/src/action_ring.rs:269-282 | at any two moments of a run equal generations mean equal observations |
| `ActionRing.OtherSessionsAreLeftAlone` | crates/openlogi-agent-core/src/action_ring.rs:145-150 | a command naming another session changes nothing but expiry |
| `RingAnswers.ActiveExactly` | crates/openlogi-agent-core/src/action_ring.rs:129-150 | which session is active, told by the events alone: the one begun and not since replaced, cancelled, dismissed, chosen from, released after the hold time or found past its lifetime |
| `RingAnswers.ActivateIsExact` | crates/openlogi-agent-core/src/action_ring.rs:316-337 | an activation succeeds exactly on a filled slot of the open session within its lifetime, with the action of its layout; otherwise the error names what is missing |
| `RingAnswers.HoverIsExact` | crates/openlogi-agent-core/src/action_ring.rs:286-304 | both errors, the silent repeat and the new highlight, by the session, its layout and its reports |
| `RingAnswers.DismissIsExact` | crates/openlogi-agent-core/src/action_ring.rs:226-239 | a dismissal names exactly the open session within its lifetime that has a filled slot |
| `RingAnswers.ReleaseIsExact` | crates/openlogi-agent-core/src/action_ring.rs:345-367 | a release is kept exactly when no session is open within its lifetime, or a release came since it began, or it began less than 250 ms ago; kept it leaves the session open, otherwise none |
| `RingAnswers.ReleaseAnswers` | crates/openlogi-agent-core/src/action_ring.rs:360-366 | and a release that counts answers with the highlighted action of the layout, or a cancel without one |
| `RingAnswers.NoSessionAnswers` | crates/openlogi-agent-core/src/action_ring.rs:145-150 | with no session open within its lifetime every command finds none and leaves none |
| `RingAnswers.ShowsTheLayout` | crates/openlogi-agent-core/src/action_ring.rs:183-202 | the overlay observes each filled slot of the open session under its custom label and icon, or those of its action, and no other slot |
| `RingAnswers.ShowsNothingElse` | crates/openlogi-agent-core/src/action_ring.rs:269-282 | and nothing when no session is open |
| `ActionRing.ActionRingManager.Republish` | crates/openlogi-agent-core/src/action_ring.rs:269-282 | publishes the active invocation, silently when it is the same |
| `ActionRing.ActionRingManager.ExpireAndPublish` | crates/openlogi-agent-core/src/action_ring.rs:382-386 | drops a session past its lifetime and publishes that first |
| `ActionRing.ActionRingManager.ReserveId` | crates/openlogi-agent-core/src/action_ring.rs:181-182 | takes the next session id |
| `ActionRing.ActionRingManager.BeginSession` | crates/openlogi-agent-core/src/action_ring.rs:183-215 | the loop splits the layout into presentations and actions; the session replaces the active one |
| `ActionRing.ActionRingManager.DismissActive` | crates/openlogi-agent-core/src/action_ring.rs:226-239 | closes and names the showing session |
| `ActionRing.ActionRingManager.IsShowing` | crates/openlogi-agent-core/src/action_ring.rs:243-247 | whether a session with actions is active, after expiry |
| `ActionRing.ActionRingManager.HoverSlot` | crates/openlogi-agent-core/src/action_ring.rs:286-304 | highlights a filled slot; both errors and the silent repeat |
| `ActionRing.ActionRingManager.UnhoverSlots` | crates/openlogi-agent-core/src/action_ring.rs:308-313 | clears the highlight of the named session |
| `ActionRing.ActionRingManager.ActivateSlot` | crates/openlogi-agent-core/src/action_ring.rs:316-337 | closes the session and returns the snapshotted action; both errors leave it open |
| `ActionRing.ActionRingManager.ReleaseTrigger` | crates/openlogi-agent-core/src/action_ring.rs:345-367 | a short press keeps the ring, a long one chooses or cancels |
| `ActionRing.ActionRingManager.CancelSession` | crates/openlogi-agent-core/src/action_ring.rs:370-380 | closes the named session only |
| `PointerContext.LatestAppliedOrHeld` | crates/openlogi-agent/src/lifecycle.rs:564-591 | over every order of pointer events, ring commands and wakeups the applied context is the latest, or the latest is unidentified and is the held one |
| `PointerContext.HeldContextIsApplied` | crates/openlogi-agent/src/lifecycle.rs:362-364 | no lost wakeup: when the ring no longer shows, a held context has a wakeup waiting, and taking it applies exactly that context |
| `PointerContext.OnlyTheLatestIsApplied` | crates/openlogi-agent/src/lifecycle.rs:582-591 | a superseded held context is never applied later |
| `PointerContext.RingHoldsBack` | crates/openlogi-agent/src/lifecycle.rs:450-454 | after any run, an unidentified context is held and the applied one kept exactly when the active session was opened at most SESSION_LIFETIME ago on a layout with a filled slot; every other context is applied at once and drops what was held |
| `PointerContext.Lifecycle.OnPointer` | crates/openlogi-agent/src/lifecycle.rs:450-454 | the event taken as the run takes it: the ring is asked, which may expire it, only for an unidentified context; that one is held while the ring shows, any other applied |
| `PointerContext.Lifecycle.OnPointerLost` | crates/openlogi-agent/src/lifecycle.rs:482-489 | a lost watcher applies the unidentified context |
| `PointerContext.Lifecycle.ApplyPointerContext` | crates/openlogi-agent/src/lifecycle.rs:582-591 | applies the context and drops the held one |
| `PointerContext.Lifecycle.ApplyHeldPointer` | crates/openlogi-agent/src/lifecycle.rs:572-580 | the check of the run: asks the ring only when something is held, and applies it once the ring is closed |
| `PointerContext.Lifecycle.OnRingChanged` | crates/openlogi-agent/src/lifecycle.rs:362-364 | a wakeup and its check |
| `Indicators.RunKeeps` | crates/openlogi-agent-core/src/backlight_overlay.rs:40-65 | generations only rise and one seen twice shows the same thing |
| `Indicators.ShownUntilItsOwnTimer` | crates/openlogi-agent-core/src/backlight_overlay.rs:40-65 | something is shown exactly while the timer stamped with the current generation is pending |
| `Indicators.OlderTimersChangeNothing` | crates/openlogi-agent-core/src/lock_keys.rs:64-77 | an older timer changes nothing |
| `Indicators.ShownForItsLifetime` | crates/openlogi-agent-core/src/backlight_overlay.rs:54-64 | with every due timer run, the indicator is on exactly during the lifetime of the newest change |
| `Indicators.ShowsTheLastChange` | crates/openlogi-agent-core/src/backlight_overlay.rs:40-65 | told by the events: with every due timer run, the last change is shown exactly while less than its lifetime has passed since |
| `Indicators.NothingShownUnchanged` | crates/openlogi-agent-core/src/backlight_overlay.rs:22-36 | without a change nothing is shown |
| `Indicators.BacklightOverlayManager.ShowLevel` | crates/openlogi-agent-core/src/backlight_overlay.rs:40-54 | publishes the level under a new generation and starts its timer |
| `Indicators.BacklightOverlayManager.Hide` | crates/openlogi-agent-core/src/backlight_overlay.rs:54-64 | hides only the change it was started with |
| `Indicators.LockKeyIndicator.Announce` | crates/openlogi-agent-core/src/lock_keys.rs:44-66 | shows the change exactly when notifications are on and the key is indicated here |
| `Indicators.LockKeyIndicator.Hide` | crates/openlogi-agent-core/src/lock_keys.rs:65-77 | hides only the change it was started with |
| `ReceiverAccess.CountsAreLiveRequests` | crates/openlogi-agent-core/src/receiver_access.rs:155-175 | in every interleaving, cancelled waits included, each count is the number of live requests and never underflows |
| `ReceiverAccess.ExclusiveLeaseIsAlone` | crates/openlogi-agent-core/src/receiver_access.rs:69-73 | an exclusive lease excludes every other lease and guard, and its request is still announced |
| `ReceiverAccess.SessionTriesIfUnrequested` | crates/openlogi-agent-core/src/receiver_access.rs:112-114 | at the first look a session goes on exactly when no request is alive |
| `ReceiverAccess.SessionGrantedIfUnrequested` | crates/openlogi-agent-core/src/receiver_access.rs:111-120 | at the second look, with the read guard held, a session is granted exactly when no request is alive |
| `ReceiverAccess.SessionsPredateRequests` | crates/openlogi-agent-core/src/receiver_access.rs:106-120 | every session lease still held was granted before every live request was announced |
| `ReceiverAccess.RequestCounts.Begin` | crates/openlogi-agent-core/src/receiver_access.rs:156-163 | adds one to the count of the reason |
| `ReceiverAccess.RequestCounts.Drop` | crates/openlogi-agent-core/src/receiver_access.rs:166-174 | takes one from the count of the reason |
| `ReceiverAccess.RequestCounts.ExclusiveRequested` | crates/openlogi-agent-core/src/receiver_access.rs:50-52 | whether any count is not zero |
| `EventMonitor.DisablesOnlyWhenIdle` | crates/openlogi-agent-core/src/event_monitor.rs:120-148 | in every interleaving of atomic steps, monitoring is disabled only by a swap with no poll stored since the swap before |
| `EventMonitor.ClearSparesReenabledEvents` | crates/openlogi-agent-core/src/event_monitor.rs:135-144 | a clear never discards an event whose recorder saw monitoring on after that tick's swap |
| `EventMonitor.EventsAreAccountedFor` | crates/openlogi-agent-core/src/event_monitor.rs:101-118 | at most CAPACITY buffered; polls return events in push order without repeats; every push is in exactly one of returned, evicted, cleared, buffered |
| `EventMonitor.EvictsOnlyTheOldest` | crates/openlogi-agent-core/src/event_monitor.rs:101-106 | the buffer holds the newest pushes, and an event is pushed out only by a whole buffer of later ones |
| `EventMonitor.RecordedIsPolled` | crates/openlogi-agent-core/src/event_monitor.rs:76-118 | an event recorded while monitoring is on is the last one the next poll returns, after all that was buffered |
| `EventMonitor.TwoTicksDisable` | crates/openlogi-agent-core/src/event_monitor.rs:120-148 | one tick without a poll keeps monitoring on and the buffer; the second turns it off and clears |
| `EventMonitor.Monitor.Record` | crates/openlogi-agent-core/src/event_monitor.rs:76-107 | the look and the push or miss of the run; moves, disabled and contended events are dropped, and the buffer holds the pushed events the run says are buffered |
| `EventMonitor.Monitor.Poll` | crates/openlogi-agent-core/src/event_monitor.rs:111-118 | the store and the drain of the run; the events returned are those whose push numbers the run returns |
| `EventMonitor.Monitor.IdleTick` | crates/openlogi-agent-core/src/event_monitor.rs:120-148 | the retry loop, with any number of spurious failures, is one tick of the run |
| `TransportTurns.OneTurnPerTransport` | crates/openlogi-agent-core/src/hardware.rs:59-131 | two live handles are the same turn if and only if their routes share a physical transport (slots of one receiver do, whatever their numbers; other devices only with themselves), with strong counts falling between any two looks |
| `TransportTurns.Turns.Prune` | crates/openlogi-agent-core/src/hardware.rs:117-117 | the retain loop, with handles dropped before every look, is a run of prune steps |
| `TransportTurns.Turns.SearchOne` | crates/openlogi-agent-core/src/hardware.rs:118-121 | one look of the search, after handles were dropped, is one search step |
| `TransportTurns.Turns.PushNew` | crates/openlogi-agent-core/src/hardware.rs:124-129 | a new turn is pushed when no entry of the transport was alive |
| `TransportTurns.Turns.TurnFor` | crates/openlogi-agent-core/src/hardware.rs:114-130 | the whole call is a run of such steps, and the turn it returns is that of exactly the live handles of the transport |
| `BinaryWatch.VerdictRefinesHistory` | crates/openlogi-agent/src/binary_watch.rs:120-161 | Restart exactly when the sighting is a changed fingerprint equal to the last one that was not unanswered, with no retry between; Uninstalled exactly when allowed and the last three sightings were absent |
| `BinaryWatch.PendingIsLastSeen` | crates/openlogi-agent/src/binary_watch.rs:156-160 | what is pending is the last fingerprint the history settled on |
| `BinaryWatch.MissingIsAbsentRun` | crates/openlogi-agent/src/binary_watch.rs:141-149 | the counter is the length of the trailing run of absences; a retry does not break it |
| `BinaryWatch.Watcher.OnTick` | crates/openlogi-agent/src/binary_watch.rs:134-161 | one tick computes that verdict and that state |
| `RecentApps.RecentAppsRefineHistory` | crates/openlogi-agent-core/src/observable.rs:335-351 | the bounded list is the first RECENT_APPS of the one list the history determines: distinct foreign ids by latest appearance, each as last published |
| `RecentApps.RecencyIsByRecency` | crates/openlogi-agent-core/src/observable.rs:340-347 | the unbounded list meets that specification |
| `RecentApps.ByRecencyIsUnique` | crates/openlogi-agent-core/src/observable.rs:340-347 | and nothing else does |
| `RecentApps.ListIsCutRecency` | crates/openlogi-agent-core/src/observable.rs:343-346 | cutting on every update gives the cut of the uncut list |
| `RecentApps.CutThenRemove` | crates/openlogi-agent-core/src/observable.rs:344-346 | removing after a cut agrees with removing before it on all but the last place |
| `RecentApps.GenerationCountsChanges` | crates/openlogi-agent-core/src/observable.rs:143-151 | the generation counts how often the frontmost application changed |
| `RecentApps.ObservableForeground.Retain` | crates/openlogi-agent-core/src/observable.rs:344-344 | removes every entry of the id and keeps the order |
| `RecentApps.ObservableForeground.Update` | crates/openlogi-agent-core/src/observable.rs:143-151 | one update; the generation rises exactly when the frontmost application changed |
| `KeyboardSelection.KeyboardSpecs` | crates/openlogi-agent-core/src/orchestrator.rs:1000-1015 | for every candidate list: one winner per route, where capturing keys for the app in front beats not, then online beats offline, then the earliest wins; routes in first-seen order |
| `KeyboardSelection.FindRoute` | crates/openlogi-agent-core/src/orchestrator.rs:1008-1008 | finds the entry of a route or there is none |
| `KeyboardSelection.SelectionIsUnique` | crates/openlogi-agent-core/src/orchestrator.rs:1000-1015 | that condition determines the selection |

## Left out

- PrecisionTheorems.NeverForgotten: the watched mouse is alone on its routes and keeps its kind; several mice on one direct route share numbers and the code promises nothing there.
- RoamingTheorems.SafeRoamIsExact: a low write left behind is taken to use the newest reading cell, or the empty cell of a shift still held; for one whose cell a reconnect has replaced, the condition is proved sufficient (PrecisionSafety.RoamKeeps) and not necessary.
- NewestWrite.NewestAlwaysCarries: the mouse has one route, since a write on another one says nothing about it, and writes of the other kind (a DPI write to a scaled mouse, or the reverse) are excluded, as they do not carry its debt.
- PointerSpeeds.PointerSpeeds.HostModeWrite: reads and numbers in one step, where the source takes the lock twice; a saved value that went stale in between is covered in runs by a reconnect with an arbitrary saved value.
- PointerSpeeds.PointerSpeeds.Republish: takes the map of online mice; collecting it from the device list is left to the caller.
- HeldDpiShifts.HeldDpiShifts.Start: a device is keyed by its route, which stands for the route's text form, and the target the DPI cycles name is a parameter; the low write itself is an event of `PrecisionSafety` and `DpiBeforeShift`.
- HeldDpiShifts.HeldDpiShifts.End: stops at the decision; what the restore then does is in `PrecisionSafety` (`ReleaseShift`) and `DpiBeforeShift`.
- DpiBeforeShift.NeverMistaken: no precision mode, preset, panel write or reconnect during the run, and the presets' low DPI is a parameter.
- DpiCycles.DpiCycles.RebuildDpiCycles: a shift cell is a number and a new cell a fresh number; the devices' presets, stock presets and saved DPI are fields of the device.
- EventMonitor.Monitor.Record: events keep their own form instead of the wire form, so the narrowing of scroll deltas to 32-bit floats is not modelled.
- EventMonitor.Monitor.IdleTick: the steps of one call without another thread between them; interleavings are the subject of the run theorems of that module.
- PointerContext.Lifecycle.OnPointer: no ring command falls between the question and the decision; in the run theorems it may.
- PointerContext.Lifecycle.ApplyPointerContext: the rebuild of bindings in the orchestrator and the cancelled pointer buttons are not part of the model.
- RecentApps.ObservableForeground.Update: OpenLogi's own identifiers are a set given to the update; the rest of the snapshot is left out.
- KeyboardSelection.KeyboardSpecs: the candidates and the two facts that rank them are inputs; building them from config, and the specifications made from the winners, are left out.
- HID++ requests, channels, threads and logging: a write lands, fails with or without having taken effect, or is abandoned; a timed-out write has no later effect.
- The locks of the async runtime and standard library: mutual exclusion is assumed of them, atomics are sequentially consistent, lock poisoning is not modelled.
- Generations, session ids and write numbers are unbounded, so wrap-around is not modelled; u8 levels and DPI values are naturals.
- The other disciplines of `hardware/write_order.rs` (policies, retries, strictly ordered writes): pointer-speed writes use request ordering only.
- Capture plans, lights, cookies, keyboard layouts, config reload fan-out, IPC long-polling and the platform code: mostly dispatch into code outside these machines, with easy properties.
