/** The elevator supersystem coordinator: the one object that remembers the
    height, angle and gripper voltage its setters last recorded, and builds
    the commands that drive the elevator, the arm pivot and the gripper.
    coralPrepareArm commands the pivot without recording the angle.

    Every method except coralPrepareArm, and coralScoreCoral on a null layer,
    records its values in the three fields before it returns its command, so a
    builder that calls several setters while assembling a chain leaves
    recorded the values of its last phase. Each method's contract gives the
    new recorded triple and the three-mechanism targets of its command, and
    ties both to Coordination.Apply, about which the sequence properties are
    proved. */
module Supersystem {
  import opened Presets
  import opened Commands
  import C = Coordination

  class ElevatorSupersystem {
    /** Heights and angles of the presets. */
    const presets: PresetTable

    var curElevatorHeight: real
    var curArmAngle: real
    var curGripperVoltage: real

    /** The recorded triple. */
    function Recorded(): Target
      reads this
    {
      Target(curElevatorHeight, curArmAngle, curGripperVoltage)
    }

    /** What `op` would record and return if issued now. */
    ghost function After(op: C.Op): C.Outcome
      reads this
    {
      C.Apply(presets, op, Recorded())
    }

    /** The coordinator starts with all three recorded values at zero. */
    constructor (presets: PresetTable)
      ensures this.presets == presets
      ensures Recorded() == Target(0.0, 0.0, 0.0)
    {
      this.presets := presets;
      curElevatorHeight := 0.0;
      curArmAngle := 0.0;
      curGripperVoltage := 0.0;
    }

    /** setState(height, angle, voltage): records all three values and drives
        the three mechanisms to them together. */
    method SetState(height: real, angle: real, voltage: real) returns (c: Command)
      modifies this
      ensures Recorded() == Target(height, angle, voltage)
      ensures c == Parallel(Target(height, angle, voltage))
      ensures C.Outcome(Recorded(), c) == old(After(C.Set(C.SetState(height, angle, voltage))))
    {
      curElevatorHeight := height;
      curArmAngle := angle;
      curGripperVoltage := voltage;
      c := Parallel(Target(height, angle, voltage));
    }

    /** setState(height, angle): keeps the recorded voltage. */
    method SetStateHeightAngle(height: real, angle: real) returns (c: Command)
      modifies this
      ensures Recorded() == Target(height, angle, old(curGripperVoltage))
      ensures c == Parallel(Recorded())
      ensures C.Outcome(Recorded(), c) == old(After(C.Set(C.SetStateHeightAngle(height, angle))))
    {
      curElevatorHeight := height;
      curArmAngle := angle;
      c := SetState(height, angle, curGripperVoltage);
    }

    /** setStateElevator: keeps the recorded angle and voltage. */
    method SetStateElevator(height: real) returns (c: Command)
      modifies this
      ensures Recorded() == old(Recorded()).(height := height)
      ensures c == Parallel(Recorded())
      ensures C.Outcome(Recorded(), c) == old(After(C.Set(C.SetStateElevator(height))))
    {
      curElevatorHeight := height;
      c := SetState(height, curArmAngle, curGripperVoltage);
    }

    /** setStateGripper: keeps the recorded height and angle. */
    method SetStateGripper(voltage: real) returns (c: Command)
      modifies this
      ensures Recorded() == old(Recorded()).(voltage := voltage)
      ensures c == Parallel(Recorded())
      ensures C.Outcome(Recorded(), c) == old(After(C.Set(C.SetStateGripper(voltage))))
    {
      curGripperVoltage := voltage;
      c := SetState(curElevatorHeight, curArmAngle, voltage);
    }

    /** setStatePivot: keeps the recorded height and voltage. */
    method SetStatePivot(angle: real) returns (c: Command)
      modifies this
      ensures Recorded() == old(Recorded()).(angle := angle)
      ensures c == Parallel(Recorded())
      ensures C.Outcome(Recorded(), c) == old(After(C.Set(C.SetStatePivot(angle))))
    {
      curArmAngle := angle;
      c := SetState(curElevatorHeight, angle, curGripperVoltage);
    }

    /** setStatePreset(preset): the preset's height and angle, the recorded
        voltage kept. */
    method SetStatePreset(preset: Preset) returns (c: Command)
      modifies this
      ensures Recorded() == Target(presets.height(preset), presets.angle(preset), old(curGripperVoltage))
      ensures c == Parallel(Recorded())
      ensures C.Outcome(Recorded(), c) == old(After(C.Set(C.SetStatePreset(preset))))
    {
      curElevatorHeight := presets.height(preset);
      curArmAngle := presets.angle(preset);
      c := SetState(presets.height(preset), presets.angle(preset), curGripperVoltage);
    }

    /** setStatePreset(preset, voltage): the preset's height and angle with the
        given voltage. */
    method SetStatePresetVoltage(preset: Preset, voltage: real) returns (c: Command)
      modifies this
      ensures Recorded() == Target(presets.height(preset), presets.angle(preset), voltage)
      ensures c == Parallel(Recorded())
      ensures C.Outcome(Recorded(), c) == old(After(C.Set(C.SetStatePresetVoltage(preset, voltage))))
    {
      curElevatorHeight := presets.height(preset);
      curArmAngle := presets.angle(preset);
      curGripperVoltage := voltage;
      c := SetState(presets.height(preset), presets.angle(preset), voltage);
    }

    /** intakeSetupIntake: swing the pivot out until it passes zero, then move
        the elevator until it reaches the catch height, then pivot to the grip
        angle. All three setters run while the chain is built, so the catch
        height and the grip angle are what stays recorded. */
    method IntakeSetupIntake() returns (c: Command)
      modifies this
      ensures Recorded() == Target(presets.height(IntakeCatch), presets.angle(IntakeGrip), old(curGripperVoltage))
      ensures DriveTargets(c) == [
                Target(old(curElevatorHeight), C.IntakeSwingAngle, old(curGripperVoltage)),
                Target(presets.height(IntakeCatch), C.IntakeSwingAngle, old(curGripperVoltage)),
                Target(presets.height(IntakeCatch), presets.angle(IntakeGrip), old(curGripperVoltage))]
      ensures C.Outcome(Recorded(), c) == old(After(C.IntakeSetupIntake))
    {
      var swing := SetStatePivot(C.IntakeSwingAngle);
      var lift := SetStateElevator(presets.height(IntakeCatch));
      var grip := SetStatePivot(presets.angle(IntakeGrip));
      var reach := AndThen(Until(swing, PivotAbove(0.0)), lift);
      assert DriveTargets(reach) == DriveTargets(swing) + DriveTargets(lift);
      c := AndThen(Until(reach, ElevatorAtHeight(presets.height(IntakeCatch))), grip);
    }

    /** intakeLoadIntake: hold the grip preset with the gripper pulling in until
        the beam breaks or three seconds pass, then hold the catch preset with
        a light grip; the whole chain only runs if the elevator is above the
        catch height when it is scheduled. The recorded triple is that of the
        second phase whether or not the guard later lets the chain run. */
    method IntakeLoadIntake() returns (c: Command)
      modifies this
      ensures Recorded() == Target(presets.height(IntakeCatch), presets.angle(IntakeCatch), C.HoldVoltage)
      ensures DriveTargets(c) == [
                Target(presets.height(IntakeGrip), presets.angle(IntakeGrip), C.IntakeVoltage),
                Recorded()]
      ensures c.OnlyIf? && c.guard == ElevatorAbove(presets.height(IntakeCatch))
      ensures c.body.AndThen? && c.body.first == WithTimeout(Until(Parallel(DriveTargets(c)[0]), BeamBroken), C.IntakeTimeout)
      ensures C.Outcome(Recorded(), c) == old(After(C.IntakeLoadIntake))
    {
      var load := SetStatePresetVoltage(IntakeGrip, C.IntakeVoltage);
      var hold := SetStatePresetVoltage(IntakeCatch, C.HoldVoltage);
      var loadPhase := WithTimeout(Until(load, BeamBroken), C.IntakeTimeout);
      assert DriveTargets(Until(load, BeamBroken)) == DriveTargets(load);
      assert DriveTargets(loadPhase) == DriveTargets(load);
      var chain := AndThen(loadPhase, hold);
      assert DriveTargets(chain) == DriveTargets(load) + DriveTargets(hold);
      c := OnlyIf(chain, ElevatorAbove(presets.height(IntakeCatch)));
    }

    /** intakePostIntake: raise to the catch height with the L4 angle until the
        elevator is there and the pivot is past 0.1, then settle at the L1
        height with the L4 angle; the recorded voltage is kept. */
    method IntakePostIntake() returns (c: Command)
      modifies this
      ensures Recorded() == Target(presets.height(ScoreL1), presets.angle(ScoreL4), old(curGripperVoltage))
      ensures DriveTargets(c) == [
                Target(presets.height(IntakeCatch), presets.angle(ScoreL4), old(curGripperVoltage)),
                Recorded()]
      ensures C.Outcome(Recorded(), c) == old(After(C.IntakePostIntake))
    {
      var raise := SetStateHeightAngle(presets.height(IntakeCatch), presets.angle(ScoreL4));
      var stow := SetStateHeightAngle(presets.height(ScoreL1), presets.angle(ScoreL4));
      c := AndThen(
        Until(raise, Both(ElevatorAtHeight(presets.height(IntakeCatch)), PivotAbove(0.1))),
        stow);
    }

    /** storagePosition: the same operation as intakePostIntake. */
    method StoragePosition() returns (c: Command)
      modifies this
      ensures Recorded() == Target(presets.height(ScoreL1), presets.angle(ScoreL4), old(curGripperVoltage))
      ensures DriveTargets(c) == [
                Target(presets.height(IntakeCatch), presets.angle(ScoreL4), old(curGripperVoltage)),
                Recorded()]
      ensures C.Outcome(Recorded(), c) == old(After(C.StoragePosition))
    {
      c := IntakePostIntake();
    }

    /** coralPrepareElevator: only the recorded height changes, to the height of
        the layer's preset. */
    method CoralPrepareElevator(layer: CoralLayer) returns (c: Command)
      modifies this
      ensures Recorded() == old(Recorded()).(height := presets.height(CoralLayerToPreset(layer)))
      ensures c == Parallel(Recorded())
      ensures C.Outcome(Recorded(), c) == old(After(C.CoralPrepareElevator(layer)))
    {
      c := SetStateElevator(presets.height(CoralLayerToPreset(layer)));
    }

    /** coralPrepareArm: commands the pivot alone, to the angle of the layer's
        preset, and records nothing (the method may not modify the object). */
    method CoralPrepareArm(layer: CoralLayer) returns (c: Command)
      ensures c == PivotTo(presets.angle(CoralLayerToPreset(layer)))
      ensures DriveTargets(c) == []
      ensures C.Outcome(Recorded(), c) == After(C.CoralPrepareArm(layer))
    {
      c := PivotTo(presets.angle(CoralLayerToPreset(layer)));
    }

    /** coralScoreCoral: the release policy per layer. L1 only spins the
        gripper out; L2 drops the L2 angle by the release offset; L3 pairs the
        L3 height with the L4 angle less the offset; L4 levels the arm; a null
        layer yields the empty command and records nothing. The three
        positional layers also stop the gripper. */
    method CoralScoreCoral(selected: Option<CoralLayer>) returns (c: Command)
      modifies this
      ensures selected == None ==> c == Idle && Recorded() == old(Recorded())
      ensures selected == Some(L1) ==> Recorded() == old(Recorded()).(voltage := C.EjectVoltage)
      ensures selected == Some(L2) ==>
                Recorded() == Target(presets.height(ScoreL2), presets.angle(ScoreL2) - C.ReleaseOffset, 0.0)
      ensures selected == Some(L3) ==>
                Recorded() == Target(presets.height(ScoreL3), presets.angle(ScoreL4) - C.ReleaseOffset, 0.0)
      ensures selected == Some(L4) ==> Recorded() == Target(presets.height(ScoreL4), 0.0, 0.0)
      ensures selected != None ==> c == Parallel(Recorded())
      ensures C.Outcome(Recorded(), c) == old(After(C.CoralScoreCoral(selected)))
    {
      match selected
      case None =>
        c := Idle;
      case Some(L1) =>
        c := SetStateGripper(C.EjectVoltage);
      case Some(L2) =>
        c := SetState(presets.height(ScoreL2), presets.angle(ScoreL2) - C.ReleaseOffset, 0.0);
      case Some(L3) =>
        c := SetState(presets.height(ScoreL3), presets.angle(ScoreL4) - C.ReleaseOffset, 0.0);
      case Some(L4) =>
        c := SetState(presets.height(ScoreL4), 0.0, 0.0);
    }

    /** algaeExtractionPrepareElevator: only the recorded height changes, to the
        height of the preset the level maps to. */
    method AlgaeExtractionPrepareElevator(level: AlgaeExtractionLayer) returns (c: Command)
      modifies this
      ensures Recorded() == old(Recorded()).(height := presets.height(AlgaeLayerToPreset(level)))
      ensures c == Parallel(Recorded())
      ensures C.Outcome(Recorded(), c) == old(After(C.AlgaeExtractionPrepareElevator(level)))
    {
      c := SetStateElevator(presets.height(AlgaeLayerToPreset(level)));
    }

    /** algaeExtractionPrepareArm: only the recorded angle changes, to the angle
        of ExtractAlgaeLow, whatever level is being extracted. */
    method AlgaeExtractionPrepareArm() returns (c: Command)
      modifies this
      ensures Recorded() == old(Recorded()).(angle := presets.angle(ExtractAlgaeLow))
      ensures c == Parallel(Recorded())
      ensures C.Outcome(Recorded(), c) == old(After(C.AlgaeExtractionPrepareArm))
    {
      c := SetStatePivot(presets.angle(ExtractAlgaeLow));
    }

    /** algaeExtractionExtractAlgae: only the recorded voltage changes, to the
        ejecting voltage. */
    method AlgaeExtractionExtractAlgae() returns (c: Command)
      modifies this
      ensures Recorded() == old(Recorded()).(voltage := C.EjectVoltage)
      ensures c == Parallel(Recorded())
      ensures C.Outcome(Recorded(), c) == old(After(C.AlgaeExtractionExtractAlgae))
    {
      c := SetStateGripper(C.EjectVoltage);
    }
  }
}
