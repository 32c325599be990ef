/** The coordinator's operations as functions on the recorded target.

    Each operation takes the recorded (height, angle, voltage) triple to a new
    one and yields the command it builds. The builders call the setters while
    they assemble the command chain, so the recorded triple they leave is the
    one of their last phase, not of the phase that will run first. */
module Coordination {
  import opened Presets
  import opened Commands

  /** The setState family: each records some of the three fields and drives
      all three mechanisms to the resulting triple. */
  datatype Setter =
    | SetState(height: real, angle: real, voltage: real)
    | SetStateHeightAngle(height: real, angle: real)
    | SetStateElevator(height: real)
    | SetStateGripper(voltage: real)
    | SetStatePivot(angle: real)
    | SetStatePreset(preset: Preset)
    | SetStatePresetVoltage(preset: Preset, voltage: real)
  {
    /** Which recorded fields a setter may write. */
    predicate Writes(axis: Axis) {
      match this
      case SetState(_, _, _) => true
      case SetStateHeightAngle(_, _) => axis != Voltage
      case SetStateElevator(_) => axis == Height
      case SetStateGripper(_) => axis == Voltage
      case SetStatePivot(_) => axis == Angle
      case SetStatePreset(_) => axis != Voltage
      case SetStatePresetVoltage(_, _) => true
    }
  }

  /** Every public operation of the coordinator that records state or builds
      a command from the recorded state. */
  datatype Op =
    | Set(setter: Setter)
    | IntakeSetupIntake
    | IntakeLoadIntake
    | IntakePostIntake
    | StoragePosition
    | CoralPrepareElevator(layer: CoralLayer)
    | CoralPrepareArm(layer: CoralLayer)
    | CoralScoreCoral(selected: Option<CoralLayer>)   // None stands for a null layer
    | AlgaeExtractionPrepareElevator(level: AlgaeExtractionLayer)
    | AlgaeExtractionPrepareArm
    | AlgaeExtractionExtractAlgae
  {
    /** Which recorded fields an operation may write. */
    predicate Writes(axis: Axis) {
      match this
      case Set(st) => st.Writes(axis)
      case IntakeSetupIntake => axis != Voltage
      case IntakeLoadIntake => true
      case IntakePostIntake => axis != Voltage
      case StoragePosition => axis != Voltage
      case CoralPrepareElevator(_) => axis == Height
      case CoralPrepareArm(_) => false
      case CoralScoreCoral(selected) =>
        (match selected
         case None => false
         case Some(L1) => axis == Voltage
         case Some(_) => true)
      case AlgaeExtractionPrepareElevator(_) => axis == Height
      case AlgaeExtractionPrepareArm => axis == Angle
      case AlgaeExtractionExtractAlgae => axis == Voltage
    }
  }

  /** The recorded triple an operation leaves and the command it returns. */
  datatype Outcome = Outcome(state: Target, command: Command)

  /** The angle offset the arm drops by to release a coral on L2 and L3. */
  const ReleaseOffset: real := 0.0277

  /** The pivot angle the intake setup swings through first. */
  const IntakeSwingAngle: real := 0.15

  /** The gripper voltages used by intake and scoring. */
  const IntakeVoltage: real := 2.0
  const HoldVoltage: real := 1.0
  const EjectVoltage: real := -3.0

  /** How long intake load waits for the beam to break, in seconds. */
  const IntakeTimeout: real := 3.0

  /** A setter applied to the recorded triple `s`: the command drives all three
      mechanisms to exactly the new recorded triple, and the fields the setter
      does not write keep their values. */
  function ApplySetter(table: PresetTable, st: Setter, s: Target): (o: Outcome)
    ensures o.command == Parallel(o.state)
    ensures !st.Writes(Height) ==> o.state.height == s.height
    ensures !st.Writes(Angle) ==> o.state.angle == s.angle
    ensures !st.Writes(Voltage) ==> o.state.voltage == s.voltage
  {
    var next := match st
      case SetState(h, a, v) => Target(h, a, v)
      case SetStateHeightAngle(h, a) => Target(h, a, s.voltage)
      case SetStateElevator(h) => s.(height := h)
      case SetStateGripper(v) => s.(voltage := v)
      case SetStatePivot(a) => s.(angle := a)
      case SetStatePreset(p) => Target(table.height(p), table.angle(p), s.voltage)
      case SetStatePresetVoltage(p, v) => Target(table.height(p), table.angle(p), v);
    Outcome(next, Parallel(next))
  }

  /** An operation applied to the recorded triple `s`. The recorded triple it
      leaves is the last three-mechanism target its command carries (the
      recorded triple is left as it was when the command carries none, as the
      pivot-only command of coralPrepareArm does), and the fields it does not
      write keep their values. */
  function Apply(table: PresetTable, op: Op, s: Target): (o: Outcome)
    ensures o.state == LastOr(DriveTargets(o.command), s)
    ensures !op.Writes(Height) ==> o.state.height == s.height
    ensures !op.Writes(Angle) ==> o.state.angle == s.angle
    ensures !op.Writes(Voltage) ==> o.state.voltage == s.voltage
  {
    match op
    case Set(st) => ApplySetter(table, st, s)
    case IntakeSetupIntake =>
      var swing := ApplySetter(table, SetStatePivot(IntakeSwingAngle), s);
      var lift := ApplySetter(table, SetStateElevator(table.height(IntakeCatch)), swing.state);
      var grip := ApplySetter(table, SetStatePivot(table.angle(IntakeGrip)), lift.state);
      Outcome(grip.state,
        AndThen(
          Until(
            AndThen(Until(swing.command, PivotAbove(0.0)), lift.command),
            ElevatorAtHeight(table.height(IntakeCatch))),
          grip.command))
    case IntakeLoadIntake =>
      var load := ApplySetter(table, SetStatePresetVoltage(IntakeGrip, IntakeVoltage), s);
      var hold := ApplySetter(table, SetStatePresetVoltage(IntakeCatch, HoldVoltage), load.state);
      var loadPhase := WithTimeout(Until(load.command, BeamBroken), IntakeTimeout);
      assert DriveTargets(Until(load.command, BeamBroken)) == [load.state];
      assert DriveTargets(loadPhase) == [load.state];
      var chain := AndThen(loadPhase, hold.command);
      assert DriveTargets(chain) == [load.state, hold.state];
      Outcome(hold.state, OnlyIf(chain, ElevatorAbove(table.height(IntakeCatch))))
    case IntakePostIntake => PostIntake(table, s)
    case StoragePosition => PostIntake(table, s)
    case CoralPrepareElevator(layer) =>
      ApplySetter(table, SetStateElevator(table.height(CoralLayerToPreset(layer))), s)
    case CoralPrepareArm(layer) =>
      Outcome(s, PivotTo(table.angle(CoralLayerToPreset(layer))))
    case CoralScoreCoral(selected) =>
      (match selected
       case None => Outcome(s, Idle)
       case Some(L1) => ApplySetter(table, SetStateGripper(EjectVoltage), s)
       case Some(L2) =>
         ApplySetter(table, SetState(table.height(ScoreL2), table.angle(ScoreL2) - ReleaseOffset, 0.0), s)
       case Some(L3) =>
         ApplySetter(table, SetState(table.height(ScoreL3), table.angle(ScoreL4) - ReleaseOffset, 0.0), s)
       case Some(L4) =>
         ApplySetter(table, SetState(table.height(ScoreL4), 0.0, 0.0), s))
    case AlgaeExtractionPrepareElevator(level) =>
      ApplySetter(table, SetStateElevator(table.height(AlgaeLayerToPreset(level))), s)
    case AlgaeExtractionPrepareArm =>
      ApplySetter(table, SetStatePivot(table.angle(ExtractAlgaeLow)), s)
    case AlgaeExtractionExtractAlgae =>
      ApplySetter(table, SetStateGripper(EjectVoltage), s)
  }

  /** intakePostIntake, which storagePosition returns as it is: first the
      catch height with the L4 angle, then the L1 height with the L4 angle,
      the recorded voltage kept throughout; the second phase stays recorded. */
  function PostIntake(table: PresetTable, s: Target): (o: Outcome)
    ensures o.state == Target(table.height(ScoreL1), table.angle(ScoreL4), s.voltage)
    ensures DriveTargets(o.command) == [Target(table.height(IntakeCatch), table.angle(ScoreL4), s.voltage), o.state]
  {
    var raise := ApplySetter(table, SetStateHeightAngle(table.height(IntakeCatch), table.angle(ScoreL4)), s);
    var stow := ApplySetter(table, SetStateHeightAngle(table.height(ScoreL1), table.angle(ScoreL4)), raise.state);
    var raisePhase := Until(raise.command, Both(ElevatorAtHeight(table.height(IntakeCatch)), PivotAbove(0.1)));
    assert DriveTargets(raisePhase) == [raise.state];
    Outcome(stow.state, AndThen(raisePhase, stow.command))
  }

  /** The recorded triple after a sequence of calls and the commands they
      returned, in call order. */
  datatype Session = Session(state: Target, emitted: seq<Command>)

  /** Issue the calls `ops` one after another, starting from the recorded
      triple `s`: one command per call. The recorded triple a session leaves
      is the last three-mechanism target any of its commands carries, or the
      starting triple when none carries one. Pivot-only commands are not
      three-mechanism targets: the angle they drive to is never recorded. */
  function Run(table: PresetTable, ops: seq<Op>, s: Target): (r: Session)
    ensures |r.emitted| == |ops|
    ensures r.state == LastOr(AllDriveTargets(r.emitted), s)
    decreases |ops|
  {
    if ops == [] then Session(s, [])
    else
      var first := Apply(table, ops[0], s);
      var rest := Run(table, ops[1..], first.state);
      var emitted := [first.command] + rest.emitted;
      assert emitted[1..] == rest.emitted;
      LastOrAppend(DriveTargets(first.command), AllDriveTargets(rest.emitted), s);
      Session(rest.state, emitted)
  }

  /** All drive targets of a list of commands, in order. */
  function AllDriveTargets(cs: seq<Command>): seq<Target> {
    if cs == [] then [] else DriveTargets(cs[0]) + AllDriveTargets(cs[1..])
  }

  /** Issuing one more call extends the session by exactly that call. */
  lemma {:induction false} RunSnoc(table: PresetTable, ops: seq<Op>, op: Op, s: Target)
    ensures var before := Run(table, ops, s);
            var last := Apply(table, op, before.state);
            Run(table, ops + [op], s) == Session(last.state, before.emitted + [last.command])
    decreases |ops|
  {
    if ops == [] {
      assert [op][1..] == [];
    } else {
      var first := Apply(table, ops[0], s);
      assert (ops + [op])[0] == ops[0];
      assert (ops + [op])[1..] == ops[1..] + [op];
      RunSnoc(table, ops[1..], op, first.state);
    }
  }

  /** A field that no call of a sequence writes keeps its value through the
      whole sequence. */
  lemma {:induction false} RunPreservesUnwritten(table: PresetTable, ops: seq<Op>, s: Target, axis: Axis)
    requires forall i :: 0 <= i < |ops| ==> !ops[i].Writes(axis)
    ensures Run(table, ops, s).state.Get(axis) == s.Get(axis)
    decreases |ops|
  {
    if ops != [] {
      var first := Apply(table, ops[0], s);
      assert !ops[0].Writes(axis);
      assert first.state.Get(axis) == s.Get(axis);
      assert forall i :: 0 <= i < |ops[1..]| ==> !ops[1..][i].Writes(axis) by {
        forall i | 0 <= i < |ops[1..]| ensures !ops[1..][i].Writes(axis) {
          assert ops[1..][i] == ops[i + 1];
        }
      }
      RunPreservesUnwritten(table, ops[1..], first.state, axis);
    }
  }

  /** Whatever came before, a setter call leaves recorded exactly the triple
      its own command drives to, and a full setState call leaves exactly its
      three arguments. */
  lemma ReadAfterSet(table: PresetTable, ops: seq<Op>, st: Setter, s: Target)
    ensures var r := Run(table, ops + [Set(st)], s);
            |r.emitted| == |ops| + 1 && r.emitted[|ops|] == Parallel(r.state)
    ensures st.SetState? ==>
              Run(table, ops + [Set(st)], s).state == Target(st.height, st.angle, st.voltage)
  {
    RunSnoc(table, ops, Set(st), s);
  }

  /** The recorded state is idempotent under every operation: each one writes
      absolute values, so issuing it twice records what issuing it once does. */
  lemma ApplyStateIdempotent(table: PresetTable, op: Op, s: Target)
    ensures var once := Apply(table, op, s).state;
            Apply(table, op, once).state == once
  {
  }

  /** storagePosition is intakePostIntake. */
  lemma StorageIsPostIntake(table: PresetTable, s: Target)
    ensures Apply(table, StoragePosition, s) == Apply(table, IntakePostIntake, s)
  {
  }

  /** coralPrepareArm as written drives the pivot without recording the angle.
      Scoring on L1 right after it drives all three mechanisms to the recorded
      triple with the new voltage, which swings the pivot back to the angle
      recorded before the prepare. */
  lemma PrepareArmThenScoreL1DrivesBack(table: PresetTable, layer: CoralLayer, s: Target)
    ensures var r := Run(table, [CoralPrepareArm(layer), CoralScoreCoral(Some(L1))], s);
            r.emitted == [PivotTo(table.angle(CoralLayerToPreset(layer))),
                          Parallel(Target(s.height, s.angle, EjectVoltage))]
  {
    var ops := [CoralPrepareArm(layer), CoralScoreCoral(Some(L1))];
    assert ops[1..] == [CoralScoreCoral(Some(L1))];
    assert ops[1..][1..] == [];
  }

  /** coralPrepareArm with the prepared angle also recorded: the command still
      drives the pivot alone, to the angle the recorded triple now holds. */
  function CoralPrepareArmRecorded(table: PresetTable, layer: CoralLayer, s: Target): (o: Outcome)
    ensures o.command.PivotTo? && o.command.angle == o.state.angle
    ensures o.state.angle == table.angle(CoralLayerToPreset(layer))
    ensures o.state.height == s.height && o.state.voltage == s.voltage
  {
    var angle := table.angle(CoralLayerToPreset(layer));
    Outcome(s.(angle := angle), PivotTo(angle))
  }

  /** After the recording prepare, every setter that does not write the angle
      (scoring on L1 among them) keeps the pivot at the prepared angle. */
  lemma PreparedArmHeldBySetters(table: PresetTable, layer: CoralLayer, st: Setter, s: Target)
    requires !st.Writes(Angle)
    ensures var prepared := CoralPrepareArmRecorded(table, layer, s);
            var next := ApplySetter(table, st, prepared.state);
            next.command.Parallel? && next.command.target.angle == prepared.command.angle
  {
  }
}
