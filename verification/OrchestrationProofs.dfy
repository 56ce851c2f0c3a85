/** The exact conditions of the guards and of the migration check, over the
    observed facts and the recorded steps alone. */
module OrchestrationProofs {
  import opened Wrappers
  import opened Catalog
  import opened ProgressRecord
  import opened Orchestration

  // Grants

  predicate Resolved(p: Progress, phase: Phase, n: nat) { p.IsCompleted(StepId(phase, n)) || p.IsSkipped(StepId(phase, n)) }

  ghost predicate LaterPhasesUntouched(p: Progress) {
    && (forall n | 1 <= n <= 3 :: !Resolved(p, Two, n))
    && (forall n | 1 <= n <= 13 :: !Resolved(p, Three, n))
  }

  /** Every step of Phase 1 but its last is resolved; advisories count for the two firmware checks. */
  ghost predicate PhaseOneResolved(p: Progress) {
    forall n | 1 <= n <= 37 :: Resolved(p, One, n) || ((n == 2 || n == 9) && p.HasAdvisory(StepId(One, n)))
  }

  ghost predicate PhaseTwoCompleted(p: Progress) {
    p.IsCompleted(StepId(Two, 1)) && p.IsCompleted(StepId(Two, 2)) && p.IsCompleted(StepId(Two, 3))
  }

  predicate AtStage(state: RebootState, stage: RebootStage) {
    state.transaction.Some? && state.transaction.value.wellFormed && state.transaction.value.stage == stage
  }

  predicate RunArmedForUser(h: HandoffEvidence) { h.phaseThreeRun == Verified && h.sameUser == Verified }

  /** When each request may go on. */
  ghost predicate MayGoOn(request: PhaseRequest, state: RebootState, p: Progress, f: PhaseFacts) {
    match request
    case Optimize =>
      && f.boot == NormalBoot && LaterPhasesUntouched(p)
      && f.handoff.phaseTwoRunOnce == Absent && f.handoff.phaseThreeRun == Absent && f.handoff.safeBoot == Absent
    case ArmSafeMode =>
      f.boot == NormalBoot && PhaseOneResolved(p) && f.runtimeVerified && state.transaction == None
    case PhaseTwo =>
      && f.boot == SafeModeBoot && f.runtimeVerified && state.safeModeReady && f.safeModeReady
      && f.handoff.phaseTwoRunOnce == Verified
      && p.IsCompleted(StepId(One, 38)) && !p.IsSkipped(StepId(Two, 1))
      && if p.IsCompleted(StepId(Two, 1)) then AtStage(state, PhaseTwoSafeMode) && f.handoff.safeBoot == Absent
         else
           && !Resolved(p, Two, 2) && !Resolved(p, Two, 3)
           && AtStage(state, PhaseOneSafeModeArmed) && f.handoff.safeBoot == Verified
    case PhaseThree =>
      && f.boot == NormalBoot && f.runtimeVerified && AtStage(state, PhaseThreeArmed)
      && RunArmedForUser(f.handoff) && PhaseTwoCompleted(p)
    case FinalBenchmark =>
      && f.boot == NormalBoot && f.runtimeVerified
      && (AtStage(state, PhaseThreeArmed) || AtStage(state, PhaseThreeComplete))
      && RunArmedForUser(f.handoff) && PhaseTwoCompleted(p)
    case ClearPhaseThreeHandoff =>
      && AtStage(state, PhaseThreeComplete) && RunArmedForUser(f.handoff)
      && p.IsCompleted(StepId(Three, 1)) && p.IsCompleted(StepId(Three, 13)) && f.finalBenchmark == Verified
  }

  /** What each request is granted. */
  predicate IsFor(t: Transition, request: PhaseRequest, p: Progress) {
    match request
    case Optimize => t == RunPhaseOne
    case ArmSafeMode => t == DoArmSafeMode
    case PhaseTwo => t == (if p.IsCompleted(StepId(Two, 1)) then RunRemainingPhaseTwo else RunPhaseTwoStepOne)
    case PhaseThree => t == RunPhaseThree
    case FinalBenchmark => t == PersistFinal
    case ClearPhaseThreeHandoff => t == DoClearPhaseThreeHandoff
  }

  lemma PhaseTwoUntouched(p: Progress)
    ensures HasPhase(p, Two) <==> Resolved(p, Two, 1) || Resolved(p, Two, 2) || Resolved(p, Two, 3)
    ensures HasPhaseTwoLaterStep(p) <==> Resolved(p, Two, 2) || Resolved(p, Two, 3)
  {
  }

  lemma LaterIff(p: Progress)
    ensures !HasPhase(p, Two) && !HasPhase(p, Three) <==> LaterPhasesUntouched(p)
  {
    if HasPhase(p, Two) {
      var n :| 1 <= n <= 3 && (p.IsCompleted(StepId(Two, n)) || p.IsSkipped(StepId(Two, n)));
      assert Resolved(p, Two, n);
    } else if HasPhase(p, Three) {
      var n :| 1 <= n <= 13 && (p.IsCompleted(StepId(Three, n)) || p.IsSkipped(StepId(Three, n)));
      assert Resolved(p, Three, n);
    }
  }

  lemma EngineSteps(p: Progress)
    ensures RequireResolvedPhaseOne(p).None? <==> PhaseOneResolved(p)
  {
    assert forall n | 1 <= n <= 38 :: Role(StepId(One, n)).Engine? <==> n <= 37;
    assert forall n | 1 <= n <= 37 ::
        PhaseOneStepResolved(p, StepId(One, n)) <==> Resolved(p, One, n) || ((n == 2 || n == 9) && p.HasAdvisory(StepId(One, n)));
  }

  lemma PhaseTwoSteps(p: Progress)
    ensures RequireCompletedPhaseTwo(p).None? <==> PhaseTwoCompleted(p)
  {
    assert p.IsCompleted(StepId(Two, 1)) && p.IsCompleted(StepId(Two, 2)) && p.IsCompleted(StepId(Two, 3)) ==>
        forall k | 1 <= k <= 3 :: p.IsCompleted(StepId(Two, k));
  }

  /** Each request is granted, and what, exactly on these facts. */
  lemma AuthorizeIff(request: PhaseRequest, state: RebootState, p: Progress, f: PhaseFacts)
    ensures Authorize(request, state, p, f).Ok? <==> MayGoOn(request, state, p, f)
    ensures Authorize(request, state, p, f).Ok? ==> IsFor(Authorize(request, state, p, f).value, request, p)
  {
    hide HasPhase, HasPhaseTwoLaterStep, LaterPhasesUntouched, PhaseOneResolved, RequireResolvedPhaseOne,
      PhaseTwoCompleted, RequireCompletedPhaseTwo;
    LaterIff(p);
    PhaseTwoUntouched(p);
    EngineSteps(p);
    PhaseTwoSteps(p);
  }

  /** The stage that a request wants; the final benchmark may also find the transaction complete. */
  function StageFor(request: PhaseRequest, p: Progress): RebootStage {
    match request
    case PhaseTwo => if p.IsCompleted(StepId(Two, 1)) then PhaseTwoSafeMode else PhaseOneSafeModeArmed
    case PhaseThree => PhaseThreeArmed
    case FinalBenchmark => PhaseThreeArmed
    case _ => PhaseThreeComplete
  }

  /** What each refusal says is so. */
  ghost predicate IsTrue(e: GuardError, request: PhaseRequest, state: RebootState, p: Progress, f: PhaseFacts) {
    match e
    case WrongBoot(expected) => f.boot != expected && expected == (if request == PhaseTwo then SafeModeBoot else NormalBoot)
    case PhaseOneCannotResumeLaterPhase => !LaterPhasesUntouched(p)
    case MissingResolvedPhaseOneStep(n) => 1 <= n <= 37 && !Resolved(p, One, n)
    case SelectedRuntimeNotVerified => !f.runtimeVerified
    case SafeModeReadinessNotPersisted => !(state.safeModeReady && f.safeModeReady)
    case SafeModeHandoffInspectionUnavailable => f.handoff.phaseTwoRunOnce == Unavailable
    case SafeModeHandoffNotArmed => f.handoff.phaseTwoRunOnce == Absent
    case SafeBootInspectionUnavailable => f.handoff.safeBoot == Unavailable
    case SafeBootNotConfigured => f.handoff.safeBoot == Absent && !p.IsCompleted(StepId(Two, 1))
    case SafeBootStillConfigured => f.handoff.safeBoot == Verified && p.IsCompleted(StepId(Two, 1))
    case MissingPhaseOneHandoffCompletion => !p.IsCompleted(StepId(One, 38))
    case PhaseTwoSafeBootClearNotCompleted => !p.IsCompleted(StepId(Two, 1)) && (Resolved(p, Two, 2) || Resolved(p, Two, 3))
    case PhaseTwoSafeBootClearWasSkipped => p.IsSkipped(StepId(Two, 1))
    case MissingCompletedPhaseTwoStep(n) => 1 <= n <= 3 && !p.IsCompleted(StepId(Two, n))
    case PhaseThreeHandoffInspectionUnavailable => f.handoff.phaseThreeRun == Unavailable
    case PhaseThreeHandoffNotArmed => f.handoff.phaseThreeRun == Absent
    case SameUserHandoffInspectionUnavailable => f.handoff.sameUser == Unavailable
    case SameUserHandoffNotVerified => f.handoff.sameUser == Absent
    case PhaseThreeHandoffMustRemain => !(p.IsCompleted(StepId(Three, 1)) && p.IsCompleted(StepId(Three, 13)))
    case LegacyRebootStateInspectionUnavailable =>
      f.handoff.phaseTwoRunOnce == Unavailable || f.handoff.phaseThreeRun == Unavailable || f.handoff.safeBoot == Unavailable
    case LegacyRebootTransactionArmed =>
      f.handoff.phaseTwoRunOnce == Verified || f.handoff.phaseThreeRun == Verified || f.handoff.safeBoot == Verified
    case ActiveRebootTransactionPresent => state.transaction != None
    case RebootTransactionMissing => state.transaction == None
    case RebootTransactionStageInvalid =>
      && state.transaction != None
      && !AtStage(state, StageFor(request, p)) && (request.FinalBenchmark? ==> !AtStage(state, PhaseThreeComplete))
    case FinalBenchmarkPersistenceUnavailable => f.finalBenchmark == Unavailable
    case FinalBenchmarkNotPersisted => f.finalBenchmark == Absent
  }

  lemma {:induction false} MissingStep(p: Progress, n: nat)
    requires 1 <= n <= 39
    ensures var g := RequireResolvedPhaseOne(p, n);
            g.Some? ==> g.value.MissingResolvedPhaseOneStep? && n <= g.value.number <= 37 && !Resolved(p, One, g.value.number)
    decreases 39 - n
  {
    if n <= 38 { MissingStep(p, n + 1); }
  }

  lemma MissingPhaseTwoStep(p: Progress)
    ensures var g := RequireCompletedPhaseTwo(p);
            g.Some? ==> g.value.MissingCompletedPhaseTwoStep? && 1 <= g.value.number <= 3 && !p.IsCompleted(StepId(Two, g.value.number))
  {
  }

  lemma OptimizeRefusal(state: RebootState, p: Progress, f: PhaseFacts)
    requires Authorize(Optimize, state, p, f).Err?
    ensures IsTrue(Authorize(Optimize, state, p, f).error, Optimize, state, p, f)
  {
    hide HasPhase, HasPhaseTwoLaterStep, LaterPhasesUntouched, RequireResolvedPhaseOne, RequireCompletedPhaseTwo;
    LaterIff(p);
  }

  lemma ArmSafeModeRefusal(state: RebootState, p: Progress, f: PhaseFacts)
    requires Authorize(ArmSafeMode, state, p, f).Err?
    ensures IsTrue(Authorize(ArmSafeMode, state, p, f).error, ArmSafeMode, state, p, f)
  {
    hide HasPhase, HasPhaseTwoLaterStep, LaterPhasesUntouched, RequireResolvedPhaseOne, RequireCompletedPhaseTwo;
    MissingStep(p, 1);
  }

  lemma PhaseTwoRefusal(state: RebootState, p: Progress, f: PhaseFacts)
    requires Authorize(PhaseTwo, state, p, f).Err?
    ensures IsTrue(Authorize(PhaseTwo, state, p, f).error, PhaseTwo, state, p, f)
  {
    hide HasPhase, HasPhaseTwoLaterStep, LaterPhasesUntouched, RequireResolvedPhaseOne, RequireCompletedPhaseTwo;
    PhaseTwoUntouched(p);
  }

  lemma PhaseThreeRefusal(state: RebootState, p: Progress, f: PhaseFacts)
    requires Authorize(PhaseThree, state, p, f).Err?
    ensures IsTrue(Authorize(PhaseThree, state, p, f).error, PhaseThree, state, p, f)
  {
    hide HasPhase, HasPhaseTwoLaterStep, LaterPhasesUntouched, RequireResolvedPhaseOne, RequireCompletedPhaseTwo;
    MissingPhaseTwoStep(p);
  }

  lemma FinalBenchmarkRefusal(state: RebootState, p: Progress, f: PhaseFacts)
    requires Authorize(FinalBenchmark, state, p, f).Err?
    ensures IsTrue(Authorize(FinalBenchmark, state, p, f).error, FinalBenchmark, state, p, f)
  {
    hide HasPhase, HasPhaseTwoLaterStep, LaterPhasesUntouched, RequireResolvedPhaseOne, RequireCompletedPhaseTwo;
    MissingPhaseTwoStep(p);
  }

  lemma ClearPhaseThreeHandoffRefusal(state: RebootState, p: Progress, f: PhaseFacts)
    requires Authorize(ClearPhaseThreeHandoff, state, p, f).Err?
    ensures IsTrue(Authorize(ClearPhaseThreeHandoff, state, p, f).error, ClearPhaseThreeHandoff, state, p, f)
  {
    hide HasPhase, HasPhaseTwoLaterStep, LaterPhasesUntouched, RequireResolvedPhaseOne, RequireCompletedPhaseTwo;
  }

  /** Every refusal of every request names a fact that holds. */
  lemma RefusalsAreTrue(request: PhaseRequest, state: RebootState, p: Progress, f: PhaseFacts)
    requires Authorize(request, state, p, f).Err?
    ensures IsTrue(Authorize(request, state, p, f).error, request, state, p, f)
  {
    hide Authorize, IsTrue;
    match request
    case Optimize => OptimizeRefusal(state, p, f);
    case ArmSafeMode => ArmSafeModeRefusal(state, p, f);
    case PhaseTwo => PhaseTwoRefusal(state, p, f);
    case PhaseThree => PhaseThreeRefusal(state, p, f);
    case FinalBenchmark => FinalBenchmarkRefusal(state, p, f);
    case ClearPhaseThreeHandoff => ClearPhaseThreeHandoffRefusal(state, p, f);
  }

  // The migration check

  /** How many of the first `n` steps of Phase 1 are completed, and how many are skipped. */
  function CompletedUpTo(p: Progress, n: nat): nat {
    if n == 0 then 0 else CompletedUpTo(p, n - 1) + if p.IsCompleted(StepId(One, n)) then 1 else 0
  }

  function SkippedUpTo(p: Progress, n: nat): nat {
    if n == 0 then 0 else SkippedUpTo(p, n - 1) + if p.IsSkipped(StepId(One, n)) then 1 else 0
  }

  function FirstSteps(n: nat): set<StepId> { set k | 1 <= k <= n :: StepId(One, k) }

  lemma OneMoreStep(n: nat)
    requires n > 0
    ensures FirstSteps(n) == FirstSteps(n - 1) + {StepId(One, n)} && StepId(One, n) !in FirstSteps(n - 1)
  {
  }

  lemma {:induction false} CountIs(steps: set<StepId>, n: nat, count: nat)
    requires n > 0 && |steps * FirstSteps(n - 1)| == count
    ensures |steps * FirstSteps(n)| == count + if StepId(One, n) in steps then 1 else 0
  {
    hide FirstSteps;
    var before := steps * FirstSteps(n - 1);
    OneMoreStep(n);
    if StepId(One, n) in steps {
      assert steps * FirstSteps(n) == before + {StepId(One, n)};
    } else {
      assert steps * FirstSteps(n) == before;
    }
  }

  lemma NoSteps()
    ensures FirstSteps(0) == {}
  {
  }

  lemma {:induction false} CountsAre(p: Progress, n: nat)
    ensures |p.completed * FirstSteps(n)| == CompletedUpTo(p, n)
    ensures |p.skipped * FirstSteps(n)| == SkippedUpTo(p, n)
  {
    hide FirstSteps;
    if n == 0 {
      NoSteps();
      assert p.completed * FirstSteps(0) == {} && p.skipped * FirstSteps(0) == {};
    } else {
      CountsAre(p, n - 1);
      CountIs(p.completed, n, CompletedUpTo(p, n - 1));
      CountIs(p.skipped, n, SkippedUpTo(p, n - 1));
    }
  }

  lemma {:induction false} NoneUpTo(p: Progress, n: nat)
    ensures CompletedUpTo(p, n) + SkippedUpTo(p, n) == 0 <==> forall k | 1 <= k <= n :: !Resolved(p, One, k)
  {
    if n > 0 {
      NoneUpTo(p, n - 1);
      assert p.IsCompleted(StepId(One, n)) || p.IsSkipped(StepId(One, n)) <==> Resolved(p, One, n);
    }
  }

  lemma PhaseOneCounts(p: Progress)
    ensures |p.completed * PhaseOneSet()| == CompletedUpTo(p, 38)
    ensures |p.skipped * PhaseOneSet()| == SkippedUpTo(p, 38)
  {
    hide CompletedUpTo, SkippedUpTo;
    CountsAre(p, 38);
    assert PhaseOneSet() == FirstSteps(38);
  }

  /** A boot mechanism is armed, or the runtime is incomplete. */
  predicate Armed(inv: MigrationInventory) {
    inv.phaseTwoRunOnceArmed || inv.phaseThreeRunArmed || inv.safeBootArmed || inv.incompleteRuntime
  }

  /** The stored files tell of a later phase or of a reboot transaction, decodable or not. */
  ghost predicate TransactionRecorded(state: Option<MigrationState>, progress: Option<Progress>) {
    || (progress.Some? && !LaterPhasesUntouched(progress.value))
    || (state.Some? && (state.value.reboot.safeModeReady || state.value.reboot.transaction != None || state.value.malformed))
  }

  /** The reason given first: the armed mechanisms in their order, and an incomplete runtime for the rest. */
  function ReasonFor(inv: MigrationInventory): LegacyHandoff {
    if inv.phaseTwoRunOnceArmed then PhaseTwoArmed
    else if inv.phaseThreeRunArmed then PhaseThreeHandoffArmed
    else if inv.safeBootArmed then SafeBootArmed
    else IncompleteRuntime
  }

  /** Which decision is made, for files that are there or not: refused with its reason, not needed,
      to be confirmed as idle, or to be confirmed with the exact counts of Phase 1. */
  lemma AssessIff(state: Option<MigrationState>, progress: Option<Progress>, inv: MigrationInventory, c: nat, s: nat)
    ensures var d := AssessInventory(state, progress, inv);
            var refused := Armed(inv) || TransactionRecorded(state, progress);
            var touched := progress.Some? && exists n | 1 <= n <= 38 :: Resolved(progress.value, One, n);
            && (d.Refuse? <==> refused)
            && (d.Refuse? ==> d.reason == ReasonFor(inv))
            && (d == NotNeeded <==> !Armed(inv) && state == None && progress == None)
            && (d == ConfirmIdle <==> !refused && !touched && (state.Some? || progress.Some?))
            && (d == ConfirmPartialPhaseOne(c, s) <==>
                  !refused && touched && c == CompletedUpTo(progress.value, 38) && s == SkippedUpTo(progress.value, 38))
  {
    hide HasPhase, LaterPhasesUntouched, CompletedUpTo, SkippedUpTo, PhaseOneSet, Resolved;
    if progress.Some? {
      LaterIff(progress.value);
      PhaseOneCounts(progress.value);
      NoneUpTo(progress.value, 38);
    }
  }

  /** What a native inspection leads to: every mechanism that is armed or cannot be inspected refuses,
      and an armed one is named. */
  lemma NativeAssessIff(state: Option<MigrationState>, progress: Option<Progress>, n: NativeState, incomplete: bool)
    ensures var d := AssessInventory(state, progress, InventoryFromNative(n, incomplete));
            && (d.Refuse? <==>
                  || n.phaseTwoRunOnce != Absent || n.phaseThreeRun != Absent || n.safeboot != SafebootAbsent || incomplete
                  || TransactionRecorded(state, progress))
            && (d.Refuse? ==>
                  d.reason == if n.phaseTwoRunOnce == Verified then PhaseTwoArmed
                              else if n.phaseThreeRun == Verified then PhaseThreeHandoffArmed
                              else if n.safeboot.Configured? then SafeBootArmed else IncompleteRuntime)
  {
    hide AssessInventory, TransactionRecorded;
    AssessIff(state, progress, InventoryFromNative(n, incomplete), 0, 0);
  }

  datatype MigrationError = NeedsYes | RefusedFor(reason: LegacyHandoff)

  /** Whether `optimize` may go on after the check, with or without its confirmation flag. */
  function RequireMigration(d: MigrationDecision, yes: bool): Option<MigrationError> {
    match d
    case NotNeeded => None
    case ConfirmIdle => if yes then None else Some(NeedsYes)
    case ConfirmPartialPhaseOne(_, _) => if yes then None else Some(NeedsYes)
    case Refuse(reason) => Some(RefusedFor(reason))
  }

  /** With both files read, as they always are, Phase 1 starts exactly if nothing is armed or recorded and
      the user confirmed: without the confirmation it never starts. */
  lemma OptimizeNeedsYes(state: MigrationState, p: Progress, inv: MigrationInventory, yes: bool)
    ensures RequireMigration(AssessInventory(Some(state), Some(p), inv), yes) == None <==>
            yes && !Armed(inv) && !TransactionRecorded(Some(state), Some(p))
  {
    hide AssessInventory, TransactionRecorded;
    AssessIff(Some(state), Some(p), inv, 0, 0);
  }
}
