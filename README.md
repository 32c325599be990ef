# Elevator supersystem coordinator

A Dafny model of the elevator supersystem of an FRC robot (season 2025). The
supersystem coordinates three mechanisms: the elevator, the coral arm pivot and
the coral arm gripper. It remembers the height, angle and gripper voltage its
setters last recorded; `coralPrepareArm` commands the pivot without recording
the angle (see "## Findings"). It builds the commands that drive the three mechanisms together,
and the sequencing operations (intake, coral scoring, algae extraction) that
chain those commands with sensor conditions, a timeout and a guard.

Layout:

- `Presets.dfy` (module `Presets`): the preset names and the preset table. The
  table gives a height and an angle per preset; its values are not known here,
  so every result holds for every table. It also holds the `CoralLayer` and
  `AlgaeExtractionLayer` enumerations and their preset mappings.
- `Commands.dfy` (module `Commands`): the command a call returns, as a value.
  `Parallel(target)` drives all three mechanisms together, `PivotTo` drives the
  pivot alone, and `AndThen`, `Until`, `WithTimeout`, `OnlyIf` and `Idle`
  mirror the scheduler's combinators. Conditions are named, not evaluated.
  `DriveTargets` lists the three-mechanism targets of a command in phase order.
- `Coordination.dfy` (module `Coordination`): every operation as a function from
  the recorded triple to the new triple and the command (`Apply`). `Run` issues
  a sequence of calls. The lemmas here hold for every preset table and every
  starting triple; those about `Run` hold for every sequence of calls.
- `ElevatorSupersystem.dfy` (module `Supersystem`): the class
  `ElevatorSupersystem` with the three mutable fields and one method per source
  method. Builder methods call the setter methods while they assemble the
  chain, as the source does. Every method except `coralPrepareArm`, and
  `coralScoreCoral` on a null layer, records its values before it returns.
  Each method states its new recorded triple and the three-mechanism targets of
  its command, and ties both to `Coordination.Apply`.

The fluent chains keep the source's bracketing. In `a.until(c1).andThen(b).until(c2).andThen(d)`
the second `until` applies to everything before it, so the model builds
`AndThen(Until(AndThen(Until(a, c1), b), c2), d)`.

Three behaviours of the code are easy to miss, and the model keeps them:

- `intakeLoadIntake` runs both of its setters while it builds the chain
  (ElevatorSupersystem.java:103-109). So (IntakeCatch height, IntakeCatch
  angle, 1) is recorded even when the `onlyIf` guard later skips the chain.
  `Supersystem.ElevatorSupersystem.IntakeLoadIntake` states this.
- The `onlyIf` guard of `intakeLoadIntake` wraps both phases, not only the
  second one.
- `AlgaeExtractionLayer.toPreset` is crossed: `High` maps to `ExtractAlgaeLow`
  and `Low` maps to `ExtractAlgaeHigh` (ElevatorSupersystem.java:178-183).
  `algaeExtractionPrepareArm` always uses the angle of `ExtractAlgaeLow`.

## Model

| member | source | states |
|---|---|---|
| `Supersystem.ElevatorSupersystem.constructor` | src/main/java/frc/robot/supersystems/ElevatorSupersystem.java:21-29 | a new coordinator has recorded height, angle and voltage all 0 |
| `Supersystem.ElevatorSupersystem.SetState` | src/main/java/frc/robot/supersystems/ElevatorSupersystem.java:31-39 | records exactly (h, a, v) and returns the parallel drive of all three mechanisms to (h, a, v) |
| `Supersystem.ElevatorSupersystem.SetStateHeightAngle` | src/main/java/frc/robot/supersystems/ElevatorSupersystem.java:41-45 | records (h, a), keeps the recorded voltage, and drives to the new recorded triple |
| `Supersystem.ElevatorSupersystem.SetStateElevator` | src/main/java/frc/robot/supersystems/ElevatorSupersystem.java:47-50 | changes only the recorded height; drives to the new recorded triple |
| `Supersystem.ElevatorSupersystem.SetStateGripper` | src/main/java/frc/robot/supersystems/ElevatorSupersystem.java:52-55 | changes only the recorded voltage; drives to the new recorded triple |
| `Supersystem.ElevatorSupersystem.SetStatePivot` | src/main/java/frc/robot/supersystems/ElevatorSupersystem.java:57-60 | changes only the recorded angle; drives to the new recorded triple |
| `Supersystem.ElevatorSupersystem.SetStatePreset` | src/main/java/frc/robot/supersystems/ElevatorSupersystem.java:62-66 | records the preset's height and angle, keeps the voltage, drives to the new triple |
| `Supersystem.ElevatorSupersystem.SetStatePresetVoltage` | src/main/java/frc/robot/supersystems/ElevatorSupersystem.java:68-73 | records (preset height, preset angle, v) and drives to it |
| `Supersystem.ElevatorSupersystem.IntakeSetupIntake` | src/main/java/frc/robot/supersystems/ElevatorSupersystem.java:95-101 | from (h0, a0, v0) the phase targets are (h0, 0.15, v0), (IntakeCatch height, 0.15, v0), (IntakeCatch height, IntakeGrip angle, v0); the last one stays recorded |
| `Supersystem.ElevatorSupersystem.IntakeLoadIntake` | src/main/java/frc/robot/supersystems/ElevatorSupersystem.java:103-109 | phase targets (IntakeGrip, voltage 2) then (IntakeCatch, voltage 1); the first phase waits for the beam break under a 3 s timeout; the chain is guarded by "elevator above the IntakeCatch height"; (IntakeCatch, 1) stays recorded whatever the guard does |
| `Supersystem.ElevatorSupersystem.IntakePostIntake` | src/main/java/frc/robot/supersystems/ElevatorSupersystem.java:115-121 | phase targets (IntakeCatch height, ScoreL4 angle, v0) then (ScoreL1 height, ScoreL4 angle, v0); the latter stays recorded |
| `Supersystem.ElevatorSupersystem.StoragePosition` | src/main/java/frc/robot/supersystems/ElevatorSupersystem.java:123-125 | records what intakePostIntake records, (ScoreL1 height, ScoreL4 angle, v0), with the same phase targets, and returns the same operation's command |
| `Supersystem.ElevatorSupersystem.CoralPrepareElevator` | src/main/java/frc/robot/supersystems/ElevatorSupersystem.java:141-143 | changes only the recorded height, to the height of the layer's preset |
| `Supersystem.ElevatorSupersystem.CoralPrepareArm` | src/main/java/frc/robot/supersystems/ElevatorSupersystem.java:145-147 | commands the pivot alone to the layer preset's angle, drives no three-mechanism target and may not change any recorded field |
| `Supersystem.ElevatorSupersystem.CoralScoreCoral` | src/main/java/frc/robot/supersystems/ElevatorSupersystem.java:149-172 | L1 sets only the voltage, to -3; L2 gives (L2 height, L2 angle - 0.0277, 0); L3 gives (L3 height, L4 angle - 0.0277, 0); L4 gives (L4 height, 0, 0); null gives the empty command and no change |
| `Supersystem.ElevatorSupersystem.AlgaeExtractionPrepareElevator` | src/main/java/frc/robot/supersystems/ElevatorSupersystem.java:186-188 | changes only the recorded height, to the height of the preset the level maps to |
| `Supersystem.ElevatorSupersystem.AlgaeExtractionPrepareArm` | src/main/java/frc/robot/supersystems/ElevatorSupersystem.java:190-192 | changes only the recorded angle, to the ExtractAlgaeLow angle |
| `Supersystem.ElevatorSupersystem.AlgaeExtractionExtractAlgae` | src/main/java/frc/robot/supersystems/ElevatorSupersystem.java:194-196 | changes only the recorded voltage, to -3 |
| `Presets.CoralLayerToPreset` | src/main/java/frc/robot/supersystems/ElevatorSupersystem.java:128-139 | total; each layer maps to a scoring preset, and reading the layer off that preset's name gives the layer back |
| `Presets.CoralLayerToPresetInjective` | src/main/java/frc/robot/supersystems/ElevatorSupersystem.java:131-138 | distinct layers select distinct presets |
| `Presets.CoralLayerToPresetOnto` | src/main/java/frc/robot/supersystems/ElevatorSupersystem.java:131-138 | every scoring preset is selected by the layer it is named after |
| `Presets.AlgaeLayerToPreset` | src/main/java/frc/robot/supersystems/ElevatorSupersystem.java:175-184 | total onto the extraction presets, and crossed: each level maps to the preset named after the other level |
| `Presets.AlgaeLayerToPresetBijective` | src/main/java/frc/robot/supersystems/ElevatorSupersystem.java:178-183 | the two levels map onto both extraction presets, one each |
| `Coordination.ApplySetter` | src/main/java/frc/robot/supersystems/ElevatorSupersystem.java:31-73 | every setter's command drives all three mechanisms to exactly the new recorded triple, and the fields a setter does not write keep their values |
| `Coordination.Apply` | src/main/java/frc/robot/supersystems/ElevatorSupersystem.java:95-196 | every operation leaves recorded the last three-mechanism target its command carries, or the old triple when it carries none (coralPrepareArm's pivot-only command carries none), and keeps every field it does not write |
| `Coordination.PostIntake` | src/main/java/frc/robot/supersystems/ElevatorSupersystem.java:115-121 | phase targets (IntakeCatch height, ScoreL4 angle, v0) then (ScoreL1 height, ScoreL4 angle, v0); the latter is the recorded triple it leaves |
| `Coordination.Run` | src/main/java/frc/robot/supersystems/ElevatorSupersystem.java:21-196 | a sequence of calls returns one command per call, and the recorded triple it leaves is the last three-mechanism target of those commands, or the starting triple when they carry none |
| `Coordination.RunSnoc` | src/main/java/frc/robot/supersystems/ElevatorSupersystem.java:21-23 | one more call changes the recorded triple exactly as that call does alone, and appends its command |
| `Coordination.RunPreservesUnwritten` | src/main/java/frc/robot/supersystems/ElevatorSupersystem.java:41-60 | a field that no call of a sequence writes keeps its value through the whole sequence |
| `Coordination.ReadAfterSet` | src/main/java/frc/robot/supersystems/ElevatorSupersystem.java:31-73 | after any history, a setter's command drives to exactly the triple then recorded, and setState(h, a, v) leaves exactly (h, a, v) |
| `Coordination.ApplyStateIdempotent` | src/main/java/frc/robot/supersystems/ElevatorSupersystem.java:94-196 | issuing any operation twice records what issuing it once does |
| `Coordination.PrepareArmThenScoreL1DrivesBack` | src/main/java/frc/robot/supersystems/ElevatorSupersystem.java:145-153 | coralPrepareArm(L) then coralScoreCoral(L1) emits PivotTo(the preset angle of L) and then a drive of all three mechanisms back to the angle recorded before |
| `Coordination.CoralPrepareArmRecorded` | src/main/java/frc/robot/supersystems/ElevatorSupersystem.java:145-147 | corrected coralPrepareArm: still drives the pivot alone, and also records the angle it drives to; height and voltage are kept |
| `Coordination.PreparedArmHeldBySetters` | src/main/java/frc/robot/supersystems/ElevatorSupersystem.java:52-60 | after the corrected prepare, every setter that does not write the angle drives the pivot to the prepared angle |
| `Coordination.StorageIsPostIntake` | src/main/java/frc/robot/supersystems/ElevatorSupersystem.java:123-125 | storagePosition and intakePostIntake have the same effect and command |

## Findings

| source | as written | input that shows it | evidently intended | confidence | as-written member | corrected member |
|---|---|---|---|---|---|---|
| src/main/java/frc/robot/supersystems/ElevatorSupersystem.java:145-147 | `coralPrepareArm` drives the pivot to the layer's angle with `coral_arm_pivot.setAngle` and does not record that angle. Every later setter that keeps the angle drives the pivot to the stale recorded angle | from any recorded angle other than the ScoreL1 angle, `coralPrepareArm(L1)` then `coralScoreCoral(L1)`: the second command drives the pivot back to the old angle while the gripper ejects | record the prepared angle, as `setStatePivot` does, while still commanding the pivot alone | not executed; low: RobotContainer.java (lines 221-265) binds no call to `coralPrepareArm`, so the stale angle may never matter in practice | `Coordination.PrepareArmThenScoreL1DrivesBack` | `Coordination.CoralPrepareArmRecorded` |

The class and `Coordination.Apply` keep `coralPrepareArm` as written. The
corrected definition stands beside them with its property
(`Coordination.PreparedArmHeldBySetters`), because the evidence that the
source is wrong is weak.

## Left out

- Run-time behaviour of commands. The tick-by-tick meaning of `parallel`,
  `until`, `withTimeout`, `andThen` and `onlyIf` belongs to the command
  scheduler library, which is not part of this model. Conditions, the timeout and
  the guard appear only as named parts of the command value.
- Sensors. The beam-break input and the `hasCoral` trigger (ElevatorSupersystem.java:25-26, 90-92)
  appear only as the condition name `BeamBroken`. Elevator and pivot position
  comparisons are likewise only names.
- `setStateFromDashboard` (ElevatorSupersystem.java:75-80) reads the dashboard,
  which is input/output.
- `testTriggers` (ElevatorSupersystem.java:111-113) only prints.
- `getInstance` (ElevatorSupersystem.java:82-88) is a synchronized singleton
  accessor. The model has one object per constructor call and no concurrency.
- Preset values. `Preset` is not defined in Constants.java. Its table is
  therefore a constructor parameter with arbitrary heights and angles.
- Floating point. `double` values are modelled as `real`. `angle - 0.0277` is
  exact in the model, while the source rounds it.
- Null arguments. `coralPrepareElevator`, `coralPrepareArm` and
  `algaeExtractionPrepareElevator` dereference their argument and throw on
  null. The model gives them non-null layer types. Only `coralScoreCoral`
  handles null, as an `Option`.
- Units and mechanism commands. CoralArmPivot.java and CoralArmGripper.java are
  not part of this model. `Elevator.setHeight` is a stub (Elevator.java:94). The
  per-mechanism commands are therefore represented only by their targets.
- RobotContainer.java, CoralArm.java and Constants.java: operator bindings,
  drive speed scaling (including the turtle trigger), motor configuration and
  tuning constants.
