/** The reboot-spanning workflow as a transition system. Every durable write of
    a command is its own step, so a crash can fall between any two of them. */
module Lifecycle {
  import opened Wrappers
  import opened Catalog
  import opened ProgressRecord
  import opened Orchestration

  /** Where the running command stands; `Idle` when none runs. */
  datatype Pc =
    | Idle
    | PhaseOneRun
    | ArmRunOnce | ArmSafeBoot | ArmState | ArmProgress
    | ClearSafeBootSetting | ClearState | ClearProgress
    | PhaseTwoRun
    | HandoffRun | HandoffState | HandoffProgress
    | PhaseThreeRun
    | FinalHistory | FinalState | FinalProgress | FinalAuthorize
    | ClearRun

  /** Durable files, boot settings and the program counter. */
  datatype Sys = Sys(
    boot: BootEnvironment,
    safeBoot: bool,
    runOnce: bool,
    run: bool,
    runtimeSelected: bool,
    removalComplete: bool,
    state: RebootState,
    progress: Progress,
    stateReceipt: bool,
    historyReceipt: bool,
    pc: Pc)

  datatype Mark = AsCompleted(timestamp: string) | AsSkipped | AsAdvisory(reason: string)

  datatype Action =
    | StartOptimize(facts: PhaseFacts, incompleteRuntime: bool)
    | PublishRuntime
    | StartArm(facts: PhaseFacts)
    | StartPhaseTwo(facts: PhaseFacts)
    | StartPhaseThree(facts: PhaseFacts)
    | StartFinalBenchmark(facts: PhaseFacts)
    | RecordStep(id: StepId, mark: Mark)
    | StartRemoval(completes: bool)
    | FinishPhaseTwo
    | FinishPhaseThree(facts: PhaseFacts)
    | Advance(timestamp: string, facts: PhaseFacts)
    | ResetProgress(facts: PhaseFacts)
    | Crash
    | Reboot(into: BootEnvironment, keepsRunOnce: bool)
    | Outside(safeBoot: bool, runOnce: bool, run: bool, runtimeSelected: bool)

  predicate Tells(e: Evidence, truth: bool) { e.Unavailable? || e == (if truth then Verified else Absent) }

  /** Inspections are truthful or unavailable; the user binding may be anything. */
  predicate Truthful(s: Sys, f: PhaseFacts) {
    && f.boot == s.boot
    && (f.runtimeVerified ==> s.runtimeSelected)
    && f.safeModeReady == s.state.safeModeReady
    && Tells(f.handoff.phaseTwoRunOnce, s.runOnce)
    && Tells(f.handoff.phaseThreeRun, s.run)
    && Tells(f.handoff.safeBoot, s.safeBoot)
  }

  predicate StageIs(s: Sys, stage: RebootStage) {
    s.state.transaction.Some? && s.state.transaction.value.IsAuthorizedAt(stage)
  }

  predicate EarlierPhaseThreeResolved(p: Progress) {
    forall n | 2 <= n <= 12 :: p.IsCompleted(StepId(Three, n)) || p.IsSkipped(StepId(Three, n))
  }

  datatype FinalStatus = NoReceipt | Coherent | Incoherent

  /** The three benchmark files, read together. */
  function Status(s: Sys): FinalStatus {
    if && s.stateReceipt && s.historyReceipt && StageIs(s, PhaseThreeComplete)
       && s.progress.IsCompleted(DRIVER_INSTALL) && s.progress.IsCompleted(FINAL_BENCHMARK)
       && !s.progress.IsSkipped(FINAL_BENCHMARK) && EarlierPhaseThreeResolved(s.progress)
    then Coherent
    else if !s.stateReceipt && !s.historyReceipt
         && (s.state.transaction.Some? ==> s.state.transaction.value.stage != PhaseThreeComplete)
         && !s.progress.IsCompleted(FINAL_BENCHMARK) && !s.progress.IsSkipped(FINAL_BENCHMARK)
    then NoReceipt
    else Incoherent
  }

  function Marked(p: Progress, id: StepId, mark: Mark): Progress {
    match mark
    case AsCompleted(t) => p.Complete(id, t)
    case AsSkipped => p.Skip(id)
    case AsAdvisory(r) => p.AcknowledgeAdvisory(id, r)
  }

  /** The steps the running engine may still record. The network transaction and
      the baseline capture are separate commands, started when nothing else runs. */
  predicate Recordable(s: Sys, id: StepId) {
    && InCatalog(id) && Role(id).Engine? && !s.progress.Recorded(id)
    && match s.pc
       case PhaseOneRun => id.phase == One
       case PhaseTwoRun => id == DRIVER_CLEANUP
       case PhaseThreeRun => id.phase == Three
       case Idle => id == StepId(One, 16) || id == BASELINE_BENCHMARK
       case _ => false
  }

  function Moved(s: Sys, next: RebootStage, pc: Pc): Option<Sys> {
    if s.state.transaction.Some? && s.state.transaction.value.stage.AllowsTransitionTo(next) then
      Some(s.(state := s.state.(transaction := Some(s.state.transaction.value.(stage := next))), pc := pc))
    else None
  }

  function When(enabled: bool, next: Sys): Option<Sys> { if enabled then Some(next) else None }

  function WithFinal(f: PhaseFacts, e: Evidence): PhaseFacts { f.(finalBenchmark := e) }

  predicate Grants(s: Sys, request: PhaseRequest, f: PhaseFacts, t: Transition) {
    Truthful(s, f) && Authorize(request, s.state, s.progress, f) == Ok(t)
  }

  predicate AtProgressWrite(s: Sys) {
    s.pc.ArmProgress? || s.pc.ClearProgress? || s.pc.HandoffProgress? || s.pc.FinalProgress?
  }

  predicate AtStateWrite(s: Sys) {
    s.pc.ArmState? || s.pc.ClearState? || s.pc.HandoffState? || s.pc.FinalState?
  }

  /** The step that the last write of each bundle records. */
  function BundleStep(pc: Pc): StepId {
    match pc
    case ArmProgress => SAFE_MODE_HANDOFF
    case ClearProgress => SAFE_BOOT_CLEAR
    case HandoffProgress => PHASE_THREE_HANDOFF
    case _ => FINAL_BENCHMARK
  }

  function WriteProgress(s: Sys, timestamp: string): Sys {
    s.(progress := s.progress.Complete(BundleStep(s.pc), timestamp),
       pc := if s.pc.FinalProgress? then FinalAuthorize else Idle)
  }

  function WriteState(s: Sys): Option<Sys> {
    match s.pc
    case ArmState =>
      var t := if s.state.transaction.Some? then s.state.transaction
               else Some(RebootTransaction(true, PhaseOneSafeModeArmed));
      Some(s.(state := RebootState(true, t), pc := ArmProgress))
    case ClearState => Moved(s, PhaseTwoSafeMode, ClearProgress)
    case HandoffState => Moved(s, PhaseThreeArmed, HandoffProgress)
    case _ =>
      if StageIs(s, PhaseThreeComplete) then Some(s.(stateReceipt := true, pc := FinalProgress))
      else Moved(s.(stateReceipt := true), PhaseThreeComplete, FinalProgress)
  }

  /** Boot settings, Run values, the history file, and the final authorization. */
  function WriteSetting(s: Sys, f: PhaseFacts): Option<Sys> {
    match s.pc
    case ArmRunOnce =>
      When(s.state.transaction.None? || StageIs(s, PhaseOneSafeModeArmed), s.(runOnce := true, pc := ArmSafeBoot))
    case ArmSafeBoot => Some(s.(safeBoot := true, pc := ArmState))
    case ClearSafeBootSetting =>
      When(StageIs(s, PhaseOneSafeModeArmed) && s.runOnce, s.(safeBoot := false, pc := ClearState))
    case HandoffRun =>
      When(s.removalComplete && s.progress.IsCompleted(DRIVER_CLEANUP) && StageIs(s, PhaseTwoSafeMode),
           s.(run := true, pc := HandoffState))
    case FinalHistory => Some(s.(historyReceipt := true, pc := FinalState))
    case FinalAuthorize =>
      When(Status(s) == Coherent && Grants(s, ClearPhaseThreeHandoff, WithFinal(f, Verified), DoClearPhaseThreeHandoff),
           s.(pc := ClearRun))
    case ClearRun =>
      When(s.progress.IsCompleted(FINAL_BENCHMARK) && Status(s) == Coherent && s.run,
           s.(run := false, pc := Idle))
    case _ => None
  }

  /** The next durable write of the command in flight. */
  function Advanced(s: Sys, timestamp: string, f: PhaseFacts): Option<Sys> {
    if AtProgressWrite(s) then Some(WriteProgress(s, timestamp))
    else if AtStateWrite(s) then WriteState(s)
    else WriteSetting(s, f)
  }

  function InventoryOf(f: PhaseFacts, incomplete: bool): MigrationInventory {
    MigrationInventory(
      f.handoff.phaseTwoRunOnce == Verified, f.handoff.phaseThreeRun == Verified, f.handoff.safeBoot == Verified,
      incomplete || f.handoff.phaseTwoRunOnce.Unavailable? || f.handoff.phaseThreeRun.Unavailable?
      || f.handoff.safeBoot.Unavailable?)
  }

  predicate StartsCommand(a: Action) {
    a.StartOptimize? || a.StartArm? || a.StartPhaseTwo? || a.StartPhaseThree? || a.StartFinalBenchmark?
    || a.FinishPhaseTwo? || a.FinishPhaseThree?
  }

  function Goes(enabled: bool, pc: Pc): Option<Pc> { if enabled then Some(pc) else None }

  function StartedPhaseTwo(s: Sys, f: PhaseFacts): Option<Pc> {
    if Grants(s, PhaseTwo, f, RunPhaseTwoStepOne) then Some(ClearSafeBootSetting)
    else Goes(Grants(s, PhaseTwo, f, RunRemainingPhaseTwo), PhaseTwoRun)
  }

  function StartedPhaseThree(s: Sys, f: PhaseFacts): Option<Pc> {
    if Status(s) == Coherent then
      Goes(Grants(s, ClearPhaseThreeHandoff, WithFinal(f, Verified), DoClearPhaseThreeHandoff), ClearRun)
    else
      Goes(Status(s) == NoReceipt && Grants(s, PhaseThree, WithFinal(f, Absent), RunPhaseThree), PhaseThreeRun)
  }

  function StartedFinalBenchmark(s: Sys, f: PhaseFacts): Option<Pc> {
    if !Grants(s, FinalBenchmark, f, PersistFinal) then None
    else if s.progress.IsCompleted(FINAL_BENCHMARK) then Goes(Status(s) == Coherent, FinalAuthorize)
    else
      Goes(!s.progress.IsSkipped(FINAL_BENCHMARK) && s.progress.IsCompleted(DRIVER_INSTALL)
           && EarlierPhaseThreeResolved(s.progress)
           && StageIs(s, if s.stateReceipt then PhaseThreeComplete else PhaseThreeArmed),
           FinalHistory)
  }

  /** Where a command starts, or a phase run ends; nothing durable changes. */
  function Started(s: Sys, a: Action): Option<Pc>
    requires StartsCommand(a)
  {
    match a
    case FinishPhaseTwo =>
      Goes(s.pc == PhaseTwoRun, if s.progress.IsCompleted(DRIVER_CLEANUP) then HandoffRun else Idle)
    case FinishPhaseThree(f) =>
      Goes(s.pc == PhaseThreeRun && Status(s) == Coherent
           && Grants(s, ClearPhaseThreeHandoff, WithFinal(f, Verified), DoClearPhaseThreeHandoff),
           ClearRun)
    case _ => if s.pc != Idle then None else StartedFromIdle(s, a)
  }

  function StartedFromIdle(s: Sys, a: Action): Option<Pc>
    requires StartsCommand(a) && !a.FinishPhaseTwo? && !a.FinishPhaseThree?
  {
    match a
    case StartOptimize(f, incomplete) =>
      Goes(!AssessInventory(Some(MigrationState(s.state, false)), Some(s.progress), InventoryOf(f, incomplete)).Refuse?
           && Grants(s, Optimize, f, RunPhaseOne),
           PhaseOneRun)
    case StartArm(f) => Goes(Grants(s, ArmSafeMode, f, DoArmSafeMode), ArmRunOnce)
    case StartPhaseTwo(f) => StartedPhaseTwo(s, f)
    case StartPhaseThree(f) => StartedPhaseThree(s, f)
    case StartFinalBenchmark(f) => StartedFinalBenchmark(s, f)
  }

  predicate MayReset(s: Sys, f: PhaseFacts) {
    s.pc == Idle && Truthful(s, f) && f.boot == NormalBoot
    && f.handoff.safeBoot == Absent && f.handoff.phaseTwoRunOnce == Absent && f.handoff.phaseThreeRun == Absent
    && !HasRebootTransaction(MigrationState(s.state, false))
  }

  function Next(s: Sys, a: Action): Option<Sys> {
    if StartsCommand(a) then
      var pc := Started(s, a);
      if pc.None? then None else Some(s.(pc := pc.value))
    else
      match a
      case PublishRuntime =>
        When(s.pc == PhaseOneRun && RequireResolvedPhaseOne(s.progress).None?, s.(runtimeSelected := true, pc := Idle))
      case RecordStep(id, mark) => When(Recordable(s, id), s.(progress := Marked(s.progress, id, mark)))
      case StartRemoval(completes) =>
        When(s.pc == PhaseTwoRun && !s.progress.Recorded(DRIVER_CLEANUP),
             s.(removalComplete := s.removalComplete || completes))
      case Advance(timestamp, f) => Advanced(s, timestamp, f)
      case ResetProgress(f) => When(MayReset(s, f), s.(progress := DefaultProgress()))
      case Reboot(into, keeps) => Some(s.(boot := into, runOnce := s.runOnce && keeps, pc := Idle))
      case Outside(safeBoot, runOnce, run, selected) =>
        When(s.pc == Idle, s.(safeBoot := safeBoot, runOnce := runOnce, run := run, runtimeSelected := selected))
      case _ => Some(s.(pc := Idle))
  }

  predicate Init(s: Sys) {
    s.state == RebootState(false, None) && s.progress == DefaultProgress()
    && !s.stateReceipt && !s.historyReceipt && !s.removalComplete && s.pc == Idle
  }

  // The inductive invariant

  ghost predicate PhaseOneDone(p: Progress) {
    forall k | 1 <= k <= PhaseSize(One) && Role(StepId(One, k)).Engine? :: PhaseOneStepResolved(p, StepId(One, k))
  }

  ghost predicate PhaseTwoDone(p: Progress) {
    forall k | 1 <= k <= PhaseSize(Two) :: p.IsCompleted(StepId(Two, k))
  }

  /** How far a stage is along the one forward path. */
  function Rank(s: Sys): nat {
    match s.state.transaction
    case None => 0
    case Some(t) =>
      match t.stage
      case PhaseOneSafeModeArmed => 1
      case PhaseTwoSafeMode => 2
      case PhaseThreeArmed => 3
      case PhaseThreeComplete => 4
      case _ => 5
  }

  /** What the recorded progress and the stage say about each other. */
  ghost predicate Ordered(s: Sys) {
    var p := s.progress;
    && (s.state.transaction.Some? ==> s.state.transaction.value.wellFormed)
    && Rank(s) <= 4
    && p.Disjoint()
    && (Rank(s) >= 1 <==> s.state.safeModeReady)
    && (Rank(s) >= 1 ==> PhaseOneDone(p))
    && (p.Recorded(SAFE_MODE_HANDOFF) ==> p.IsCompleted(SAFE_MODE_HANDOFF) && Rank(s) >= 1)
    && (Rank(s) >= 2 ==> p.IsCompleted(SAFE_MODE_HANDOFF))
    && (p.Recorded(SAFE_BOOT_CLEAR) ==> p.IsCompleted(SAFE_BOOT_CLEAR) && Rank(s) >= 2)
    && (p.Recorded(DRIVER_CLEANUP) ==> p.IsCompleted(SAFE_BOOT_CLEAR))
    && (Rank(s) >= 3 ==> p.IsCompleted(DRIVER_CLEANUP) && s.removalComplete)
    && (p.Recorded(PHASE_THREE_HANDOFF) ==> p.IsCompleted(PHASE_THREE_HANDOFF) && Rank(s) >= 3)
    && (forall n | 1 <= n <= PhaseSize(Three) && p.Recorded(StepId(Three, n)) :: PhaseTwoDone(p))
    && (Rank(s) >= 4 || s.stateReceipt || s.historyReceipt || p.Recorded(FINAL_BENCHMARK) ==>
          PhaseTwoDone(p) && p.IsCompleted(DRIVER_INSTALL) && EarlierPhaseThreeResolved(p))
    && (p.Recorded(FINAL_BENCHMARK) ==> p.IsCompleted(FINAL_BENCHMARK) && Rank(s) >= 4 && s.stateReceipt && s.historyReceipt)
    && (s.stateReceipt <==> Rank(s) >= 4)
  }

  /** What the command in flight may rely on. */
  ghost predicate AtPc(s: Sys) {
    var p := s.progress;
    match s.pc
    case Idle => true
    case PhaseOneRun => Rank(s) == 0
    case ArmRunOnce => Rank(s) == 0 && PhaseOneDone(p)
    case ArmSafeBoot => Rank(s) == 0 && PhaseOneDone(p)
    case ArmState => Rank(s) == 0 && PhaseOneDone(p)
    case ArmProgress => Rank(s) == 1 && !p.Recorded(SAFE_MODE_HANDOFF)
    case ClearSafeBootSetting => StageIs(s, PhaseOneSafeModeArmed) && p.IsCompleted(SAFE_MODE_HANDOFF)
    case ClearState => StageIs(s, PhaseOneSafeModeArmed) && p.IsCompleted(SAFE_MODE_HANDOFF) && !s.safeBoot
    case ClearProgress => StageIs(s, PhaseTwoSafeMode) && !p.Recorded(SAFE_BOOT_CLEAR)
    case PhaseTwoRun =>
      s.boot == SafeModeBoot && !s.safeBoot && StageIs(s, PhaseTwoSafeMode) && p.IsCompleted(SAFE_BOOT_CLEAR)
    case HandoffRun => StageIs(s, PhaseTwoSafeMode) && p.IsCompleted(SAFE_BOOT_CLEAR)
    case HandoffState => StageIs(s, PhaseTwoSafeMode) && p.IsCompleted(DRIVER_CLEANUP) && s.removalComplete
    case HandoffProgress => StageIs(s, PhaseThreeArmed) && !p.Recorded(PHASE_THREE_HANDOFF)
    case PhaseThreeRun =>
      s.boot == NormalBoot && PhaseTwoDone(p) && StageIs(s, PhaseThreeArmed) && Status(s) == NoReceipt
    case FinalHistory => ReadyForReceipt(s)
    case FinalState => ReadyForReceipt(s) && s.historyReceipt
    case FinalProgress => ReadyForReceipt(s) && s.historyReceipt && s.stateReceipt && Rank(s) == 4
    case FinalAuthorize => Status(s) == Coherent
    case ClearRun => Status(s) == Coherent
  }

  ghost predicate ReadyForReceipt(s: Sys) {
    && PhaseTwoDone(s.progress) && s.progress.IsCompleted(DRIVER_INSTALL) && EarlierPhaseThreeResolved(s.progress)
    && !s.progress.Recorded(FINAL_BENCHMARK) && 3 <= Rank(s) <= 4
  }

  ghost predicate Inv(s: Sys) { Ordered(s) && AtPc(s) }
}
