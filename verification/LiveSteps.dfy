/** The native action behind each step of the schedule, and what a live inspection of it can find. */
module LiveSteps {
  import opened Wrappers
  import opened Catalog
  import opened EngineModel

  datatype NativeAction =
    | ObserveConfig | ObserveGpu | ObserveChipset | ObserveMemory | BaselineCapture | FinalCapture | FpsCapInfo
    | CleanPreparation | DownloadPreparation | ProfilePreparation | InterruptPreparation
    | DriverRemoval | DriverInstall | ProfileApply | NetworkTransaction
    | Handoff | BootTool | Guide | AmdGuide | RegistryBatch | Interrupts | PageFile | GpuPreference | CfgFiles | Advises

  /** Every other step of the schedule only gives advice. */
  function ActionOf(id: StepId): NativeAction {
    match id.phase
    case One =>
      if id.number == 1 then ObserveConfig
      else if id.number == 5 then ObserveGpu
      else if id.number == 8 then PageFile
      else if id.number == 12 then RegistryBatch
      else if id.number == 16 then NetworkTransaction
      else if id.number == 17 then BaselineCapture
      else if id.number == 18 then CleanPreparation
      else if id.number == 19 then DownloadPreparation
      else if id.number == 20 then ProfilePreparation
      else if id.number == 21 || id.number == 22 then InterruptPreparation
      else if id.number == 24 then ObserveMemory
      else if id.number == 30 then GpuPreference
      else if id.number == 34 then CfgFiles
      else if id.number == 35 then ObserveChipset
      else if id.number == 38 then Handoff
      else Advises
    case Two =>
      if id.number == 1 then BootTool
      else if id.number == 2 then DriverRemoval
      else if id.number == 3 then Handoff
      else Advises
    case Three =>
      if id.number == 1 then DriverInstall
      else if id.number == 2 || id.number == 3 then Interrupts
      else if id.number == 4 then ProfileApply
      else if id.number == 5 then FpsCapInfo
      else if id.number in {6, 11, 12} then Guide
      else if id.number == 8 then AmdGuide
      else if id.number == 13 then FinalCapture
      else Advises
  }

  /** What the machine shows an inspection: whether it can be seen at all, whether the step
      fits the hardware, whether the wanted state is there and can be told, and
      whether the configuration asks for a change. */
  datatype View = View(
    sees: bool, applicable: bool, satisfied: bool, supported: bool, configured: bool, reason: string)

  function Fitting(v: View, fits: Inspection): Option<Inspection> {
    Some(if v.applicable then fits else Inapplicable)
  }

  function Wanted(v: View): Inspection { if v.satisfied then Satisfied else NeedsApply }

  /** The outcome of a live inspection; None if it fails. The driver, profile and network
      steps have no inspection of their own, so where they apply it always fails. */
  function Finding(id: StepId, v: View): Option<Inspection> {
    if !v.sees then None
    else
      match ActionOf(id)
      case Advises => Some(Advisory(v.reason))
      case ObserveConfig => Some(Satisfied)
      case ObserveGpu => Some(Satisfied)
      case ObserveChipset => Fitting(v, Satisfied)
      case ObserveMemory => Fitting(v, Satisfied)
      case BaselineCapture => Some(if v.satisfied then Satisfied else Unsupported)
      case FinalCapture => Some(Unsupported)
      case FpsCapInfo => Some(if v.satisfied then Satisfied else Unsupported)
      case CleanPreparation => Fitting(v, Satisfied)
      case DownloadPreparation => Fitting(v, Satisfied)
      case ProfilePreparation => Fitting(v, Satisfied)
      case InterruptPreparation => Some(Satisfied)
      case Handoff => Some(Satisfied)
      case BootTool => Some(NeedsApply)
      case Guide => Some(Satisfied)
      case AmdGuide => Fitting(v, Satisfied)
      case RegistryBatch => Some(NeedsApply)
      case Interrupts => Some(Wanted(v))
      case PageFile =>
        Some(if !v.supported then Unsupported
             else if v.configured then NeedsApply
             else if v.satisfied then Satisfied else Advisory(v.reason))
      case GpuPreference => Fitting(v, Wanted(v))
      case CfgFiles => Fitting(v, Wanted(v))
      case DriverInstall => if v.applicable then None else Some(Inapplicable)
      case ProfileApply => if v.applicable then None else Some(Inapplicable)
      case DriverRemoval => None
      case NetworkTransaction => None
  }

  /** Some inspection lets the engine go on to verify or apply the step. */
  predicate CanComplete(id: StepId) {
    var a := ActionOf(id);
    !a.Advises? && !a.FinalCapture? && !a.DriverRemoval? && !a.DriverInstall? && !a.ProfileApply? && !a.NetworkTransaction?
  }

  predicate CanAdvise(id: StepId) { ActionOf(id).Advises? || ActionOf(id).PageFile? }

  /** Some inspection finds that the step does not apply. */
  predicate CanPass(id: StepId) {
    ActionOf(id) in {ObserveChipset, ObserveMemory, CleanPreparation, DownloadPreparation, ProfilePreparation, AmdGuide,
                     GpuPreference, CfgFiles, DriverInstall, ProfileApply}
  }

  predicate GoesOn(found: Option<Inspection>) { found == Some(Satisfied) || found == Some(NeedsApply) }

  /** The three predicates say exactly what inspections can find. */
  lemma FindingsAre(id: StepId)
    ensures CanComplete(id) <==> exists v :: GoesOn(Finding(id, v))
    ensures CanAdvise(id) <==> exists v :: Finding(id, v).Some? && Finding(id, v).value.Advisory?
    ensures CanPass(id) <==> exists v :: Finding(id, v) == Some(Inapplicable)
  {
    hide ActionOf;
    var yes := View(true, true, true, true, true, "");
    var no := View(true, false, false, false, false, "");
    var plain := View(true, true, false, true, false, "");
    assert CanComplete(id) ==> GoesOn(Finding(id, yes)) || GoesOn(Finding(id, plain));
    assert CanAdvise(id) ==> Finding(id, plain).Some? && Finding(id, plain).value.Advisory?;
    assert CanPass(id) ==> Finding(id, no) == Some(Inapplicable);
  }
}
