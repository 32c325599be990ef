/** The commands the coordinator hands to the scheduler, as values.

    Only their structure is modelled: which drive targets they carry, in which
    order, and which conditions, timeouts and guards surround them. When the
    scheduler runs them, and what the sensors behind the conditions read, is
    outside the model. */
module Commands {

  /** One recorded or commanded configuration of the three mechanisms:
      elevator height, arm pivot angle and gripper voltage. */
  datatype Target = Target(height: real, angle: real, voltage: real)
  {
    function Get(axis: Axis): real {
      match axis
      case Height => height
      case Angle => angle
      case Voltage => voltage
    }
  }

  /** The three mechanisms, as the three components of a Target. */
  datatype Axis = Height | Angle | Voltage

  /** The triggers the sequencing operations wait on, by name. */
  datatype Condition =
    | PivotAbove(angle: real)            // coral_arm_pivot.isGreaterThan
    | ElevatorAtHeight(height: real)     // elevator.isAtHeight
    | ElevatorAbove(height: real)        // elevator.isGreaterThanHeight
    | BeamBroken                         // the beam-break presence sensor
    | Both(left: Condition, right: Condition)

  datatype Command =
    | Parallel(target: Target)           // elevator, pivot and gripper driven together
    | PivotTo(angle: real)               // the pivot alone
    | AndThen(first: Command, next: Command)
    | Until(body: Command, condition: Condition)
    | WithTimeout(body: Command, seconds: real)
    | OnlyIf(body: Command, guard: Condition)
    | Idle                               // Commands.none()

  /** The three-mechanism drive targets of a command, in the order its phases
      issue them. */
  function DriveTargets(c: Command): seq<Target> {
    match c
    case Parallel(t) => [t]
    case PivotTo(_) => []
    case AndThen(a, b) => DriveTargets(a) + DriveTargets(b)
    case Until(b, _) => DriveTargets(b)
    case WithTimeout(b, _) => DriveTargets(b)
    case OnlyIf(b, _) => DriveTargets(b)
    case Idle => []
  }

  /** The last target of `ts`, or `otherwise` when there is none. */
  function LastOr(ts: seq<Target>, otherwise: Target): Target {
    if ts == [] then otherwise else ts[|ts| - 1]
  }

  /** Looking for the last target of a concatenation looks in the second part
      first and falls back on the first part. */
  lemma LastOrAppend(xs: seq<Target>, ys: seq<Target>, otherwise: Target)
    ensures LastOr(xs + ys, otherwise) == LastOr(ys, LastOr(xs, otherwise))
  {
  }
}
