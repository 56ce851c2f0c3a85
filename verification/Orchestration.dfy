/** Guards of the reboot-spanning transaction and of the legacy migration. */
module Orchestration {
  import opened Wrappers
  import opened Catalog
  import opened ProgressRecord

  datatype RebootStage =
    | PhaseOneSafeModeArmed | PhaseTwoSafeMode | PhaseThreeArmed | PhaseThreeComplete
    | RecoveryRequired | UnknownStage(name: string)
  {
    predicate AllowsTransitionTo(next: RebootStage) {
      || (PhaseOneSafeModeArmed? && next.PhaseTwoSafeMode?)
      || (PhaseTwoSafeMode? && next.PhaseThreeArmed?)
      || (PhaseThreeArmed? && next.PhaseThreeComplete?)
      || next.RecoveryRequired?
    }
  }

  /** `wellFormed` stands for the schema, id, user and runtime-record checks. */
  datatype RebootTransaction = RebootTransaction(wellFormed: bool, stage: RebootStage) {
    predicate IsAuthorizedAt(expected: RebootStage) { wellFormed && stage == expected }
  }

  datatype BootEnvironment = NormalBoot | SafeModeBoot

  datatype Evidence = Verified | Absent | Unavailable

  datatype HandoffEvidence = HandoffEvidence(
    phaseTwoRunOnce: Evidence, phaseThreeRun: Evidence, safeBoot: Evidence, sameUser: Evidence)

  /** What a platform inspection reports. */
  datatype PhaseFacts = PhaseFacts(
    boot: BootEnvironment,
    runtimeVerified: bool,
    handoff: HandoffEvidence,
    safeModeReady: bool,
    finalBenchmark: Evidence)

  /** The part of the persisted state that the guards read. */
  datatype RebootState = RebootState(safeModeReady: bool, transaction: Option<RebootTransaction>)

  datatype PhaseRequest = Optimize | ArmSafeMode | PhaseTwo | PhaseThree | FinalBenchmark | ClearPhaseThreeHandoff

  datatype Transition =
    | RunPhaseOne | DoArmSafeMode | RunPhaseTwoStepOne | RunRemainingPhaseTwo
    | RunPhaseThree | PersistFinal | DoClearPhaseThreeHandoff

  datatype GuardError =
    | WrongBoot(expected: BootEnvironment)
    | PhaseOneCannotResumeLaterPhase
    | MissingResolvedPhaseOneStep(number: nat)
    | SelectedRuntimeNotVerified
    | SafeModeReadinessNotPersisted
    | SafeModeHandoffInspectionUnavailable
    | SafeModeHandoffNotArmed
    | SafeBootInspectionUnavailable
    | SafeBootNotConfigured
    | SafeBootStillConfigured
    | MissingPhaseOneHandoffCompletion
    | PhaseTwoSafeBootClearNotCompleted
    | PhaseTwoSafeBootClearWasSkipped
    | MissingCompletedPhaseTwoStep(number: nat)
    | PhaseThreeHandoffInspectionUnavailable
    | PhaseThreeHandoffNotArmed
    | SameUserHandoffInspectionUnavailable
    | SameUserHandoffNotVerified
    | PhaseThreeHandoffMustRemain
    | LegacyRebootStateInspectionUnavailable
    | LegacyRebootTransactionArmed
    | ActiveRebootTransactionPresent
    | RebootTransactionMissing
    | RebootTransactionStageInvalid
    | FinalBenchmarkPersistenceUnavailable
    | FinalBenchmarkNotPersisted

  /** A guard passes or names its refusal. */
  type Guard = Option<GuardError>

  function Then(g: Guard, rest: Guard): Guard { if g.Some? then g else rest }

  function Require(condition: bool, error: GuardError): Guard {
    if condition then None else Some(error)
  }

  function RequireEvidence(e: Evidence, wanted: Evidence, opposite: GuardError, unavailable: GuardError): Guard
    requires !wanted.Unavailable?
  {
    if e == wanted then None else if e.Unavailable? then Some(unavailable) else Some(opposite)
  }

  predicate HasPhase(p: Progress, phase: Phase) {
    exists n | 1 <= n <= PhaseSize(phase) :: p.IsCompleted(StepId(phase, n)) || p.IsSkipped(StepId(phase, n))
  }

  predicate HasPhaseTwoLaterStep(p: Progress) {
    exists n | 2 <= n <= PhaseSize(Two) :: p.IsCompleted(StepId(Two, n)) || p.IsSkipped(StepId(Two, n))
  }

  predicate PhaseOneStepResolved(p: Progress, id: StepId) {
    || p.IsCompleted(id)
    || p.IsSkipped(id)
    || ((id == XMP_EXPO_CHECK || id == RESIZABLE_BAR_CHECK) && p.HasAdvisory(id))
  }

  /** The first engine step of Phase 1, from `n` on, that is not resolved. */
  function RequireResolvedPhaseOne(p: Progress, n: nat := 1): (g: Guard)
    requires n >= 1
    decreases PhaseSize(One) + 1 - n
    ensures g.None? <==> forall k | n <= k <= PhaseSize(One) && Role(StepId(One, k)).Engine? ::
                           PhaseOneStepResolved(p, StepId(One, k))
  {
    if n > PhaseSize(One) then None
    else if Role(StepId(One, n)).Engine? && !PhaseOneStepResolved(p, StepId(One, n)) then
      Some(MissingResolvedPhaseOneStep(n))
    else RequireResolvedPhaseOne(p, n + 1)
  }

  function RequireCompletedPhaseTwo(p: Progress, n: nat := 1): (g: Guard)
    requires n >= 1
    decreases PhaseSize(Two) + 1 - n
    ensures g.None? <==> forall k | n <= k <= PhaseSize(Two) :: p.IsCompleted(StepId(Two, k))
  {
    if n > PhaseSize(Two) then None
    else if !p.IsCompleted(StepId(Two, n)) then Some(MissingCompletedPhaseTwoStep(n))
    else RequireCompletedPhaseTwo(p, n + 1)
  }

  function RequireStage(state: RebootState, expected: RebootStage): Guard {
    match state.transaction
    case None => Some(RebootTransactionMissing)
    case Some(t) => Require(t.IsAuthorizedAt(expected), RebootTransactionStageInvalid)
  }

  function RequireFinalTransaction(state: RebootState): Guard {
    match state.transaction
    case None => Some(RebootTransactionMissing)
    case Some(t) =>
      Require(t.IsAuthorizedAt(PhaseThreeArmed) || t.IsAuthorizedAt(PhaseThreeComplete),
              RebootTransactionStageInvalid)
  }

  function RequireClean(e: Evidence): Guard {
    RequireEvidence(e, Absent, LegacyRebootTransactionArmed, LegacyRebootStateInspectionUnavailable)
  }

  function RequireCleanRebootState(h: HandoffEvidence): Guard {
    Then(RequireClean(h.phaseTwoRunOnce), Then(RequireClean(h.phaseThreeRun), RequireClean(h.safeBoot)))
  }

  function RequirePhaseThreeHandoff(h: HandoffEvidence): Guard {
    Then(RequireEvidence(h.phaseThreeRun, Verified, PhaseThreeHandoffNotArmed, PhaseThreeHandoffInspectionUnavailable),
         RequireEvidence(h.sameUser, Verified, SameUserHandoffNotVerified, SameUserHandoffInspectionUnavailable))
  }

  function Granted(g: Guard, t: Transition): Result<Transition, GuardError> {
    if g.Some? then Err(g.value) else Ok(t)
  }

  /** The only transition the caller may attempt on the observed facts. */
  function Authorize(request: PhaseRequest, state: RebootState, p: Progress, facts: PhaseFacts)
    : Result<Transition, GuardError>
  {
    match request
    case Optimize =>
      Granted(
        Then(Require(facts.boot == NormalBoot, WrongBoot(NormalBoot)),
        Then(RequireCleanRebootState(facts.handoff),
             Require(!HasPhase(p, Two) && !HasPhase(p, Three), PhaseOneCannotResumeLaterPhase))),
        RunPhaseOne)
    case ArmSafeMode =>
      Granted(
        Then(Require(facts.boot == NormalBoot, WrongBoot(NormalBoot)),
        Then(RequireResolvedPhaseOne(p),
        Then(Require(facts.runtimeVerified, SelectedRuntimeNotVerified),
             Require(state.transaction.None?, ActiveRebootTransactionPresent)))),
        DoArmSafeMode)
    case PhaseTwo => AuthorizePhaseTwo(state, p, facts)
    case PhaseThree =>
      Granted(
        Then(Require(facts.boot == NormalBoot, WrongBoot(NormalBoot)),
        Then(Require(facts.runtimeVerified, SelectedRuntimeNotVerified),
        Then(RequireStage(state, PhaseThreeArmed),
        Then(RequirePhaseThreeHandoff(facts.handoff),
             RequireCompletedPhaseTwo(p))))),
        RunPhaseThree)
    case FinalBenchmark =>
      Granted(
        Then(Require(facts.boot == NormalBoot, WrongBoot(NormalBoot)),
        Then(Require(facts.runtimeVerified, SelectedRuntimeNotVerified),
        Then(RequireFinalTransaction(state),
        Then(RequirePhaseThreeHandoff(facts.handoff),
             RequireCompletedPhaseTwo(p))))),
        PersistFinal)
    case ClearPhaseThreeHandoff =>
      Granted(
        Then(RequireStage(state, PhaseThreeComplete),
        Then(RequirePhaseThreeHandoff(facts.handoff),
        Then(Require(p.IsCompleted(DRIVER_INSTALL) && p.IsCompleted(FINAL_BENCHMARK), PhaseThreeHandoffMustRemain),
             RequireEvidence(facts.finalBenchmark, Verified, FinalBenchmarkNotPersisted,
                             FinalBenchmarkPersistenceUnavailable)))),
        DoClearPhaseThreeHandoff)
  }

  function AuthorizePhaseTwo(state: RebootState, p: Progress, facts: PhaseFacts): Result<Transition, GuardError> {
    var entry :=
      Then(Require(facts.boot == SafeModeBoot, WrongBoot(SafeModeBoot)),
      Then(Require(facts.runtimeVerified, SelectedRuntimeNotVerified),
      Then(Require(state.safeModeReady && facts.safeModeReady, SafeModeReadinessNotPersisted),
      Then(RequireEvidence(facts.handoff.phaseTwoRunOnce, Verified, SafeModeHandoffNotArmed,
                           SafeModeHandoffInspectionUnavailable),
      Then(Require(p.IsCompleted(SAFE_MODE_HANDOFF), MissingPhaseOneHandoffCompletion),
           Require(!p.IsSkipped(SAFE_BOOT_CLEAR), PhaseTwoSafeBootClearWasSkipped))))));
    if entry.Some? then Err(entry.value)
    else if p.IsCompleted(SAFE_BOOT_CLEAR) then
      Granted(
        Then(RequireStage(state, PhaseTwoSafeMode),
             RequireEvidence(facts.handoff.safeBoot, Absent, SafeBootStillConfigured, SafeBootInspectionUnavailable)),
        RunRemainingPhaseTwo)
    else if HasPhaseTwoLaterStep(p) then Err(PhaseTwoSafeBootClearNotCompleted)
    else
      Granted(
        Then(RequireStage(state, PhaseOneSafeModeArmed),
             RequireEvidence(facts.handoff.safeBoot, Verified, SafeBootNotConfigured, SafeBootInspectionUnavailable)),
        RunPhaseTwoStepOne)
  }

  // Fail-closed evidence

  predicate Degrades(e: Evidence, d: Evidence) { d == e || d.Unavailable? }

  predicate FactsDegrade(f: PhaseFacts, g: PhaseFacts) {
    && g.boot == f.boot
    && (g.runtimeVerified ==> f.runtimeVerified)
    && (g.safeModeReady ==> f.safeModeReady)
    && Degrades(f.handoff.phaseTwoRunOnce, g.handoff.phaseTwoRunOnce)
    && Degrades(f.handoff.phaseThreeRun, g.handoff.phaseThreeRun)
    && Degrades(f.handoff.safeBoot, g.handoff.safeBoot)
    && Degrades(f.handoff.sameUser, g.handoff.sameUser)
    && Degrades(f.finalBenchmark, g.finalBenchmark)
  }

  /** Losing evidence never turns a refusal into a grant, nor changes what is granted. */
  lemma UnavailableNeverGrants(
    request: PhaseRequest, state: RebootState, p: Progress, facts: PhaseFacts, degraded: PhaseFacts)
    requires FactsDegrade(facts, degraded)
    requires Authorize(request, state, p, degraded).Ok?
    ensures Authorize(request, state, p, facts) == Authorize(request, state, p, degraded)
  {
  }

  /** The requests that can be granted together. */
  ghost predicate Together(requests: set<PhaseRequest>) {
    || requests <= {Optimize, ArmSafeMode}
    || requests <= {PhaseTwo}
    || requests <= {PhaseThree, FinalBenchmark}
    || requests <= {FinalBenchmark, ClearPhaseThreeHandoff}
  }

  /** The boot, stage and Run evidence that every grant pins down. */
  lemma GrantPins(r: PhaseRequest, state: RebootState, p: Progress, facts: PhaseFacts)
    requires Authorize(r, state, p, facts).Ok?
    ensures r != ClearPhaseThreeHandoff ==> facts.boot == (if r == PhaseTwo then SafeModeBoot else NormalBoot)
    ensures match r
            case Optimize => facts.handoff.phaseThreeRun == Absent && !HasPhase(p, Two)
            case ArmSafeMode => state.transaction.None?
            case PhaseTwo =>
              state.transaction.Some? && (state.transaction.value.stage == PhaseOneSafeModeArmed
                                          || state.transaction.value.stage == PhaseTwoSafeMode)
            case PhaseThree =>
              facts.handoff.phaseThreeRun == Verified
              && state.transaction.Some? && state.transaction.value.stage == PhaseThreeArmed
            case FinalBenchmark => facts.handoff.phaseThreeRun == Verified && state.transaction.Some?
            case ClearPhaseThreeHandoff =>
              facts.handoff.phaseThreeRun == Verified
              && state.transaction.Some? && state.transaction.value.stage == PhaseThreeComplete
  {
  }

  /** On the same facts no two phases can both be authorized. */
  lemma AuthorizationIsExclusive(requests: set<PhaseRequest>, state: RebootState, p: Progress, facts: PhaseFacts)
    requires forall r | r in requests :: Authorize(r, state, p, facts).Ok?
    ensures Together(requests)
  {
    hide Authorize;
    forall r | r in requests { GrantPins(r, state, p, facts); }
    if ClearPhaseThreeHandoff in requests {
      assert requests <= {FinalBenchmark, ClearPhaseThreeHandoff};
    } else if PhaseTwo in requests {
      assert requests <= {PhaseTwo};
    } else if FinalBenchmark in requests || PhaseThree in requests {
      assert requests <= {PhaseThree, FinalBenchmark};
    } else {
      assert requests <= {Optimize, ArmSafeMode};
    }
  }

  // Legacy migration

  datatype SafebootEvidence = Configured(value: string) | SafebootAbsent | SafebootUnavailable

  /** The native inspection that both the guards and the migration are fed from. */
  datatype NativeState = NativeState(
    boot: BootEnvironment, phaseTwoRunOnce: Evidence, phaseThreeRun: Evidence,
    safeboot: SafebootEvidence, sameUser: Evidence)

  datatype LegacyHandoff = PhaseTwoArmed | PhaseThreeHandoffArmed | SafeBootArmed | IncompleteRuntime

  datatype MigrationInventory = MigrationInventory(
    phaseTwoRunOnceArmed: bool, phaseThreeRunArmed: bool, safeBootArmed: bool, incompleteRuntime: bool)

  datatype MigrationDecision =
    | NotNeeded | ConfirmIdle | ConfirmPartialPhaseOne(completed: nat, skipped: nat) | Refuse(reason: LegacyHandoff)

  /** `malformed`: the state file holds a transaction that did not decode. */
  datatype MigrationState = MigrationState(reboot: RebootState, malformed: bool)

  function PhaseOneSet(): set<StepId> { set n | 1 <= n <= PhaseSize(One) :: StepId(One, n) }

  function AssessInventory(state: Option<MigrationState>, progress: Option<Progress>, inv: MigrationInventory)
    : MigrationDecision
  {
    if inv.phaseTwoRunOnceArmed then Refuse(PhaseTwoArmed)
    else if inv.phaseThreeRunArmed then Refuse(PhaseThreeHandoffArmed)
    else if inv.safeBootArmed then Refuse(SafeBootArmed)
    else if inv.incompleteRuntime then Refuse(IncompleteRuntime)
    else if state.None? && progress.None? then NotNeeded
    else if (progress.Some? && (HasPhase(progress.value, Two) || HasPhase(progress.value, Three)))
         || (state.Some? && HasRebootTransaction(state.value)) then Refuse(IncompleteRuntime)
    else if progress.None? then ConfirmIdle
    else
      var completed := |progress.value.completed * PhaseOneSet()|;
      var skipped := |progress.value.skipped * PhaseOneSet()|;
      if completed + skipped == 0 then ConfirmIdle else ConfirmPartialPhaseOne(completed, skipped)
  }

  predicate HasRebootTransaction(s: MigrationState) {
    s.reboot.safeModeReady || s.reboot.transaction.Some? || s.malformed
  }

  function InventoryFromNative(n: NativeState, incomplete: bool): MigrationInventory {
    MigrationInventory(
      n.phaseTwoRunOnce == Verified,
      n.phaseThreeRun == Verified,
      n.safeboot.Configured?,
      incomplete || n.phaseTwoRunOnce.Unavailable? || n.phaseThreeRun.Unavailable? || n.safeboot.SafebootUnavailable?)
  }

  function SafebootAsEvidence(s: SafebootEvidence): Evidence {
    match s
    case Configured(_) => Verified
    case SafebootAbsent => Absent
    case SafebootUnavailable => Unavailable
  }

  function FactsFromNative(n: NativeState, runtimeVerified: bool, state: RebootState, final: Evidence): PhaseFacts {
    PhaseFacts(n.boot, runtimeVerified,
               HandoffEvidence(n.phaseTwoRunOnce, n.phaseThreeRun, SafebootAsEvidence(n.safeboot), n.sameUser),
               state.safeModeReady, final)
  }

  /** In a normal boot the migration check refuses whatever the Optimize guard
      refuses, and refuses besides exactly a recorded transaction or an
      incomplete runtime: the two checks agree on one native snapshot. */
  lemma MigrationRefusesIff(
    n: NativeState, state: MigrationState, p: Progress, incomplete: bool, runtimeVerified: bool, final: Evidence)
    requires n.boot == NormalBoot
    ensures AssessInventory(Some(state), Some(p), InventoryFromNative(n, incomplete)).Refuse? <==>
            || Authorize(Optimize, state.reboot, p, FactsFromNative(n, runtimeVerified, state.reboot, final)).Err?
            || HasRebootTransaction(state)
            || incomplete
  {
  }
}
