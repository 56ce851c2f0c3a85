/** What each command writes, write by write, when nothing interrupts it. */
module LifecycleCommands {
  import opened Wrappers
  import opened Catalog
  import opened ProgressRecord
  import opened Orchestration
  import opened Lifecycle
  import G = OrchestrationProofs

  /** The progress with one more completed step, and no other step touched. */
  ghost predicate AddsCompleted(p: Progress, q: Progress, id: StepId, timestamp: string) {
    && q.completed == p.completed + {id} && q.skipped == p.skipped - {id} && q.advisories == p.advisories - {id}
    && q.timestamps == p.timestamps[id := timestamp]
  }

  /** The write in flight leads from `s` to `t`, whatever inspections say, and stands before `pc`. */
  ghost predicate Writes(s: Sys, t: Sys, pc: Pc) {
    t.pc == pc && forall timestamp, f :: Next(s, Advance(timestamp, f)) == Some(t)
  }

  /** The write in flight records the step and nothing else. */
  ghost predicate Records(s: Sys, id: StepId, pc: Pc) {
    forall timestamp, f ::
      && Next(s, Advance(timestamp, f)).Some?
      && var t := Next(s, Advance(timestamp, f)).value;
      AddsCompleted(s.progress, t.progress, id, timestamp) && t == s.(progress := t.progress, pc := pc)
  }

  function InStage(s: Sys, stage: RebootStage): RebootState {
    RebootState(s.state.safeModeReady, Some(RebootTransaction(true, stage)))
  }

  // Single writes

  lemma RunOnceIsWritten(s: Sys)
    requires s.pc == ArmRunOnce && s.state.transaction.None?
    ensures Writes(s, s.(runOnce := true, pc := ArmSafeBoot), ArmSafeBoot)
  {
  }

  lemma SafeBootIsSet(s: Sys)
    requires s.pc == ArmSafeBoot
    ensures Writes(s, s.(safeBoot := true, pc := ArmState), ArmState)
  {
  }

  lemma SafeBootIsCleared(s: Sys)
    requires s.pc == ClearSafeBootSetting && s.runOnce && StageIs(s, PhaseOneSafeModeArmed)
    ensures Writes(s, s.(safeBoot := false, pc := ClearState), ClearState)
  {
  }

  lemma RunIsWritten(s: Sys)
    requires s.pc == HandoffRun && s.removalComplete && s.progress.IsCompleted(DRIVER_CLEANUP) && StageIs(s, PhaseTwoSafeMode)
    ensures Writes(s, s.(run := true, pc := HandoffState), HandoffState)
  {
  }

  lemma HistoryIsWritten(s: Sys)
    requires s.pc == FinalHistory
    ensures Writes(s, s.(historyReceipt := true, pc := FinalState), FinalState)
  {
  }

  lemma FirstStateIsWritten(s: Sys)
    requires s.pc == ArmState && s.state.transaction.None?
    ensures Writes(s, s.(state := RebootState(true, Some(RebootTransaction(true, PhaseOneSafeModeArmed))), pc := ArmProgress), ArmProgress)
  {
  }

  lemma StageIsWritten(s: Sys, stage: RebootStage, pc: Pc)
    requires || (s.pc == ClearState && stage == PhaseTwoSafeMode && StageIs(s, PhaseOneSafeModeArmed) && pc == ClearProgress)
             || (s.pc == HandoffState && stage == PhaseThreeArmed && StageIs(s, PhaseTwoSafeMode) && pc == HandoffProgress)
    ensures Writes(s, s.(state := InStage(s, stage), pc := pc), pc)
  {
  }

  lemma ReceiptIsWritten(s: Sys)
    requires s.pc == FinalState && StageIs(s, PhaseThreeArmed)
    ensures Writes(s, s.(stateReceipt := true, state := InStage(s, PhaseThreeComplete), pc := FinalProgress), FinalProgress)
  {
  }

  lemma StepIsRecorded(s: Sys, id: StepId, pc: Pc)
    requires || (s.pc == ArmProgress && id == StepId(One, 38) && pc == Idle)
             || (s.pc == ClearProgress && id == StepId(Two, 1) && pc == Idle)
             || (s.pc == HandoffProgress && id == StepId(Two, 3) && pc == Idle)
             || (s.pc == FinalProgress && id == StepId(Three, 13) && pc == FinalAuthorize)
    ensures Records(s, id, pc)
  {
  }

  // Whole commands

  lemma ArmStarts(s: Sys, f: PhaseFacts)
    requires s.pc == Idle && Authorize(ArmSafeMode, s.state, s.progress, f) == Ok(DoArmSafeMode) && Truthful(s, f)
    ensures Next(s, StartArm(f)) == Some(s.(pc := ArmRunOnce)) && s.state.transaction.None?
  {
    hide RequireResolvedPhaseOne, Truthful;
  }

  /** Arming Safe Mode: RunOnce, the Safe Boot flag, the reboot state, and P1:38. */
  lemma ArmWrites(s: Sys, f: PhaseFacts)
    requires s.pc == Idle && Authorize(ArmSafeMode, s.state, s.progress, f) == Ok(DoArmSafeMode) && Truthful(s, f)
    ensures var s0 := s.(pc := ArmRunOnce);
            var s1 := s0.(runOnce := true, pc := ArmSafeBoot);
            var s2 := s1.(safeBoot := true, pc := ArmState);
            var s3 := s2.(state := RebootState(true, Some(RebootTransaction(true, PhaseOneSafeModeArmed))), pc := ArmProgress);
            && Next(s, StartArm(f)) == Some(s0)
            && Writes(s0, s1, ArmSafeBoot) && Writes(s1, s2, ArmState) && Writes(s2, s3, ArmProgress)
            && Records(s3, StepId(One, 38), Idle)
  {
    hide Next, Authorize, Truthful, Writes, Records;
    ArmStarts(s, f);
    var s1 := s.(runOnce := true, pc := ArmSafeBoot);
    var s2 := s1.(safeBoot := true, pc := ArmState);
    RunOnceIsWritten(s.(pc := ArmRunOnce));
    SafeBootIsSet(s1);
    FirstStateIsWritten(s2);
    StepIsRecorded(s2.(state := RebootState(true, Some(RebootTransaction(true, PhaseOneSafeModeArmed))), pc := ArmProgress),
                   StepId(One, 38), Idle);
  }

  lemma ClearStarts(s: Sys, f: PhaseFacts)
    requires s.pc == Idle && Authorize(PhaseTwo, s.state, s.progress, f) == Ok(RunPhaseTwoStepOne) && Truthful(s, f)
    ensures Next(s, StartPhaseTwo(f)) == Some(s.(pc := ClearSafeBootSetting))
    ensures s.runOnce && StageIs(s, PhaseOneSafeModeArmed)
  {
    hide HasPhaseTwoLaterStep;
  }

  /** Phase 2 first clears the Safe Boot flag, then moves the stage, then records P2:1. */
  lemma ClearWrites(s: Sys, f: PhaseFacts)
    requires s.pc == Idle && Authorize(PhaseTwo, s.state, s.progress, f) == Ok(RunPhaseTwoStepOne) && Truthful(s, f)
    ensures var s0 := s.(pc := ClearSafeBootSetting);
            var s1 := s0.(safeBoot := false, pc := ClearState);
            var s2 := s1.(state := InStage(s, PhaseTwoSafeMode), pc := ClearProgress);
            && Next(s, StartPhaseTwo(f)) == Some(s0)
            && Writes(s0, s1, ClearState) && Writes(s1, s2, ClearProgress)
            && Records(s2, StepId(Two, 1), Idle)
  {
    hide Next, Authorize, Truthful, Writes, Records;
    ClearStarts(s, f);
    var s1 := s.(safeBoot := false, pc := ClearState);
    SafeBootIsCleared(s.(pc := ClearSafeBootSetting));
    StageIsWritten(s1, PhaseTwoSafeMode, ClearProgress);
    StepIsRecorded(s1.(state := InStage(s, PhaseTwoSafeMode), pc := ClearProgress), StepId(Two, 1), Idle);
  }

  lemma HandoffStarts(s: Sys)
    requires Inv(s) && s.pc == PhaseTwoRun && s.progress.IsCompleted(StepId(Two, 2))
    ensures Next(s, FinishPhaseTwo) == Some(s.(pc := HandoffRun)) && StageIs(s, PhaseTwoSafeMode)
  {
    hide Ordered;
  }

  /** After the driver removal Phase 2 arms the Run value, moves the stage, and records P2:3. */
  lemma HandoffWrites(s: Sys)
    requires Inv(s) && s.pc == PhaseTwoRun && s.progress.IsCompleted(StepId(Two, 2)) && s.removalComplete
    ensures var s0 := s.(pc := HandoffRun);
            var s1 := s0.(run := true, pc := HandoffState);
            var s2 := s1.(state := InStage(s, PhaseThreeArmed), pc := HandoffProgress);
            && Next(s, FinishPhaseTwo) == Some(s0)
            && Writes(s0, s1, HandoffState) && Writes(s1, s2, HandoffProgress)
            && Records(s2, StepId(Two, 3), Idle)
  {
    hide Next, Inv, Writes, Records;
    HandoffStarts(s);
    var s1 := s.(run := true, pc := HandoffState);
    RunIsWritten(s.(pc := HandoffRun));
    StageIsWritten(s1, PhaseThreeArmed, HandoffProgress);
    StepIsRecorded(s1.(state := InStage(s, PhaseThreeArmed), pc := HandoffProgress), StepId(Two, 3), Idle);
  }

  lemma FinalStarts(s: Sys, f: PhaseFacts)
    requires s.pc == Idle && !s.progress.Recorded(StepId(Three, 13)) && !s.stateReceipt
    requires Next(s, StartFinalBenchmark(f)).Some?
    ensures Next(s, StartFinalBenchmark(f)) == Some(s.(pc := FinalHistory)) && StageIs(s, PhaseThreeArmed)
  {
    hide Authorize, EarlierPhaseThreeResolved, Truthful;
  }

  /** The final benchmark writes the history, the state with its stage, and P3:13, and goes on to be authorized. */
  lemma FinalWrites(s: Sys, f: PhaseFacts)
    requires s.pc == Idle && !s.progress.Recorded(StepId(Three, 13)) && !s.stateReceipt
    requires Next(s, StartFinalBenchmark(f)).Some?
    ensures var s0 := s.(pc := FinalHistory);
            var s1 := s0.(historyReceipt := true, pc := FinalState);
            var s2 := s1.(stateReceipt := true, state := InStage(s, PhaseThreeComplete), pc := FinalProgress);
            && Next(s, StartFinalBenchmark(f)) == Some(s0)
            && Writes(s0, s1, FinalState) && Writes(s1, s2, FinalProgress)
            && Records(s2, StepId(Three, 13), FinalAuthorize)
  {
    hide Next, Writes, Records;
    FinalStarts(s, f);
    var s1 := s.(historyReceipt := true, pc := FinalState);
    HistoryIsWritten(s.(pc := FinalHistory));
    ReceiptIsWritten(s1);
    StepIsRecorded(s1.(stateReceipt := true, state := InStage(s, PhaseThreeComplete), pc := FinalProgress),
                   StepId(Three, 13), FinalAuthorize);
  }

  /** Once authorized, the Run value goes, and nothing else. */
  lemma HandoffIsCleared(s: Sys)
    requires Inv(s) && s.pc == ClearRun && s.run
    ensures Writes(s, s.(run := false, pc := Idle), Idle)
  {
    hide Ordered, PhaseOneDone, PhaseTwoDone;
  }

  /** A reboot or a crash touches no file; a reboot may lose RunOnce, as the entry is consumed at logon. */
  lemma InterruptionsKeepFiles(s: Sys, into: BootEnvironment, keeps: bool)
    ensures Next(s, Crash) == Some(s.(pc := Idle))
    ensures Next(s, Reboot(into, keeps)) == Some(s.(boot := into, runOnce := s.runOnce && keeps, pc := Idle))
  {
  }

  // When each action can happen

  predicate Shows(e: Evidence, truth: bool) { (e == Verified ==> truth) && (e == Absent ==> !truth) }

  /** What an inspection shows is so, as far as it shows anything. */
  predicate Sees(s: Sys, f: PhaseFacts) {
    && f.boot == s.boot && (f.runtimeVerified ==> s.runtimeSelected) && f.safeModeReady == s.state.safeModeReady
    && Shows(f.handoff.phaseTwoRunOnce, s.runOnce) && Shows(f.handoff.phaseThreeRun, s.run) && Shows(f.handoff.safeBoot, s.safeBoot)
  }

  ghost predicate Allowed(s: Sys, request: PhaseRequest, f: PhaseFacts) {
    Sees(s, f) && G.MayGoOn(request, s.state, s.progress, f)
  }

  ghost predicate BeforeFinalSettled(p: Progress) { forall n | 2 <= n <= 12 :: G.Resolved(p, Three, n) }

  /** All three benchmark files hold the final result. */
  ghost predicate FilesCoherent(s: Sys) {
    && s.stateReceipt && s.historyReceipt && G.AtStage(s.state, PhaseThreeComplete)
    && s.progress.IsCompleted(StepId(Three, 1)) && s.progress.IsCompleted(StepId(Three, 13))
    && !s.progress.IsSkipped(StepId(Three, 13)) && BeforeFinalSettled(s.progress)
  }

  /** None of the three benchmark files holds a final result. */
  predicate FilesFresh(s: Sys) {
    && !s.stateReceipt && !s.historyReceipt && !G.Resolved(s.progress, Three, 13)
    && (s.state.transaction != None ==> s.state.transaction.value.stage != PhaseThreeComplete)
  }

  /** Where the action leads a command that starts, or a phase that ends. */
  ghost predicate StartsAt(s: Sys, a: Action, pc: Pc) {
    match a
    case StartOptimize(f, incomplete) =>
      && s.pc == Idle && pc == PhaseOneRun && Allowed(s, Optimize, f)
      && !incomplete && !s.state.safeModeReady && s.state.transaction == None
    case StartArm(f) => s.pc == Idle && pc == ArmRunOnce && Allowed(s, ArmSafeMode, f)
    case StartPhaseTwo(f) =>
      && s.pc == Idle && Allowed(s, PhaseTwo, f)
      && pc == if s.progress.IsCompleted(StepId(Two, 1)) then PhaseTwoRun else ClearSafeBootSetting
    case StartPhaseThree(f) =>
      && s.pc == Idle
      && if FilesCoherent(s) then pc == ClearRun && Allowed(s, ClearPhaseThreeHandoff, f.(finalBenchmark := Verified))
         else FilesFresh(s) && pc == PhaseThreeRun && Allowed(s, PhaseThree, f.(finalBenchmark := Absent))
    case StartFinalBenchmark(f) =>
      && s.pc == Idle && Allowed(s, FinalBenchmark, f)
      && if s.progress.IsCompleted(StepId(Three, 13)) then pc == FinalAuthorize && FilesCoherent(s)
         else
           && pc == FinalHistory && !s.progress.IsSkipped(StepId(Three, 13)) && s.progress.IsCompleted(StepId(Three, 1))
           && BeforeFinalSettled(s.progress)
           && G.AtStage(s.state, if s.stateReceipt then PhaseThreeComplete else PhaseThreeArmed)
    case FinishPhaseTwo => s.pc == PhaseTwoRun && pc == if s.progress.IsCompleted(StepId(Two, 2)) then HandoffRun else Idle
    case FinishPhaseThree(f) =>
      && s.pc == PhaseThreeRun && pc == ClearRun && FilesCoherent(s)
      && Allowed(s, ClearPhaseThreeHandoff, f.(finalBenchmark := Verified))
    case _ => false
  }

  lemma SeesIff(s: Sys, f: PhaseFacts)
    ensures Truthful(s, f) <==> Sees(s, f)
  {
  }

  lemma GrantsIff(s: Sys, request: PhaseRequest, f: PhaseFacts, t: Transition)
    ensures Grants(s, request, f, t) <==> Allowed(s, request, f) && G.IsFor(t, request, s.progress)
  {
    hide Authorize, G.MayGoOn, Truthful, Sees;
    SeesIff(s, f);
    G.AuthorizeIff(request, s.state, s.progress, f);
  }

  lemma SettledIff(p: Progress)
    ensures EarlierPhaseThreeResolved(p) <==> BeforeFinalSettled(p)
  {
    if BeforeFinalSettled(p) {
      forall n | 2 <= n <= 12 ensures p.IsCompleted(StepId(Three, n)) || p.IsSkipped(StepId(Three, n)) {
        assert G.Resolved(p, Three, n);
      }
    }
  }

  lemma StatusIff(s: Sys)
    ensures Status(s) == Coherent <==> FilesCoherent(s)
    ensures Status(s) == NoReceipt <==> FilesFresh(s)
  {
    hide EarlierPhaseThreeResolved, BeforeFinalSettled;
    SettledIff(s.progress);
  }

  lemma OptimizeIff(s: Sys, f: PhaseFacts, incomplete: bool)
    ensures (!AssessInventory(Some(MigrationState(s.state, false)), Some(s.progress), InventoryOf(f, incomplete)).Refuse?
             && Grants(s, Optimize, f, RunPhaseOne)) <==>
            Allowed(s, Optimize, f) && !incomplete && !s.state.safeModeReady && s.state.transaction == None
  {
    hide AssessInventory, Grants, G.LaterPhasesUntouched, Sees;
    GrantsIff(s, Optimize, f, RunPhaseOne);
    G.AssessIff(Some(MigrationState(s.state, false)), Some(s.progress), InventoryOf(f, incomplete), 0, 0);
  }

  lemma PhaseTwoIff(s: Sys, f: PhaseFacts, pc: Pc)
    ensures StartedPhaseTwo(s, f) == Some(pc) <==>
            Allowed(s, PhaseTwo, f) && pc == if s.progress.IsCompleted(StepId(Two, 1)) then PhaseTwoRun else ClearSafeBootSetting
  {
    hide Grants, Allowed;
    GrantsIff(s, PhaseTwo, f, RunPhaseTwoStepOne);
    GrantsIff(s, PhaseTwo, f, RunRemainingPhaseTwo);
  }

  lemma PhaseThreeIff(s: Sys, f: PhaseFacts, pc: Pc)
    ensures StartedPhaseThree(s, f) == Some(pc) <==>
            if FilesCoherent(s) then pc == ClearRun && Allowed(s, ClearPhaseThreeHandoff, f.(finalBenchmark := Verified))
            else FilesFresh(s) && pc == PhaseThreeRun && Allowed(s, PhaseThree, f.(finalBenchmark := Absent))
  {
    hide Grants, Allowed, Status, FilesCoherent, FilesFresh;
    StatusIff(s);
    GrantsIff(s, ClearPhaseThreeHandoff, WithFinal(f, Verified), DoClearPhaseThreeHandoff);
    GrantsIff(s, PhaseThree, WithFinal(f, Absent), RunPhaseThree);
  }

  lemma FinalIff(s: Sys, f: PhaseFacts, pc: Pc)
    ensures StartedFinalBenchmark(s, f) == Some(pc) <==>
            && Allowed(s, FinalBenchmark, f)
            && if s.progress.IsCompleted(StepId(Three, 13)) then pc == FinalAuthorize && FilesCoherent(s)
               else
                 && pc == FinalHistory && !s.progress.IsSkipped(StepId(Three, 13)) && s.progress.IsCompleted(StepId(Three, 1))
                 && BeforeFinalSettled(s.progress)
                 && G.AtStage(s.state, if s.stateReceipt then PhaseThreeComplete else PhaseThreeArmed)
  {
    hide Grants, Allowed, Status, FilesCoherent, EarlierPhaseThreeResolved, BeforeFinalSettled;
    StatusIff(s);
    SettledIff(s.progress);
    GrantsIff(s, FinalBenchmark, f, PersistFinal);
  }

  lemma FinishIff(s: Sys, f: PhaseFacts, pc: Pc)
    ensures Started(s, FinishPhaseThree(f)) == Some(pc) <==> StartsAt(s, FinishPhaseThree(f), pc)
  {
    hide Grants, Allowed, Status, FilesCoherent;
    StatusIff(s);
    GrantsIff(s, ClearPhaseThreeHandoff, WithFinal(f, Verified), DoClearPhaseThreeHandoff);
  }

  lemma StartedIff(s: Sys, a: Action, pc: Pc)
    requires StartsCommand(a)
    ensures Started(s, a) == Some(pc) <==> StartsAt(s, a, pc)
  {
    hide AssessInventory, Grants, Allowed, StartedPhaseTwo, StartedPhaseThree, StartedFinalBenchmark, FilesCoherent, FilesFresh,
      BeforeFinalSettled, Status;
    match a {
      case StartOptimize(f, incomplete) => OptimizeIff(s, f, incomplete);
      case StartArm(f) => GrantsIff(s, ArmSafeMode, f, DoArmSafeMode);
      case StartPhaseTwo(f) => PhaseTwoIff(s, f, pc);
      case StartPhaseThree(f) => PhaseThreeIff(s, f, pc);
      case StartFinalBenchmark(f) => FinalIff(s, f, pc);
      case FinishPhaseTwo =>
      case FinishPhaseThree(f) => FinishIff(s, f, pc);
    }
  }

  /** Each command starts, and each phase ends, exactly on these conditions, and where. */
  lemma StartsIff(s: Sys, a: Action, pc: Pc)
    requires StartsCommand(a)
    ensures Next(s, a) == Some(s.(pc := pc)) <==> StartsAt(s, a, pc)
    ensures Next(s, a).Some? ==> Next(s, a) == Some(s.(pc := Next(s, a).value.pc))
  {
    hide Started, StartsAt, StartsCommand;
    StartedIff(s, a, pc);
  }

  /** The runtime is published at the end of Phase 1 exactly if every step before the handoff is resolved. */
  lemma PublishIff(s: Sys)
    ensures Next(s, PublishRuntime) ==
            if s.pc == PhaseOneRun && G.PhaseOneResolved(s.progress) then Some(s.(runtimeSelected := true, pc := Idle)) else None
  {
    hide RequireResolvedPhaseOne, G.PhaseOneResolved;
    G.EngineSteps(s.progress);
  }

  /** The progress is reset exactly in a normal boot with nothing armed and no transaction, while nothing runs. */
  lemma ResetIff(s: Sys, f: PhaseFacts)
    ensures Next(s, ResetProgress(f)) ==
            if && s.pc == Idle && Sees(s, f) && f.boot == NormalBoot
               && f.handoff.safeBoot == Absent && f.handoff.phaseTwoRunOnce == Absent && f.handoff.phaseThreeRun == Absent
               && !s.state.safeModeReady && s.state.transaction == None
            then Some(s.(progress := Progress(0, 0, 0, {}, {}, map[], map[]))) else None
  {
    hide Sees, Truthful;
    SeesIff(s, f);
  }

  /** Which steps the running phase may record: a step of the running phase that the engine runs, once;
      while nothing runs, the network transaction and the baseline capture. */
  lemma RecordIff(s: Sys, id: StepId, mark: Mark)
    ensures Next(s, RecordStep(id, mark)).Some? <==>
              && !s.progress.Recorded(id)
              && match s.pc
                 case PhaseOneRun => id.phase == One && 1 <= id.number <= 37
                 case PhaseTwoRun => id == StepId(Two, 2)
                 case PhaseThreeRun => id.phase == Three && 1 <= id.number <= 12
                 case Idle => id == StepId(One, 16) || id == StepId(One, 17)
                 case _ => false
    ensures Next(s, RecordStep(id, mark)).Some? ==>
              Next(s, RecordStep(id, mark)) == Some(s.(progress := Marked(s.progress, id, mark)))
  {
  }

  /** The driver removal is started only in the running Phase 2, before P2:2 is recorded. */
  lemma RemovalIff(s: Sys, completes: bool)
    ensures Next(s, StartRemoval(completes)) ==
            if s.pc == PhaseTwoRun && !s.progress.Recorded(StepId(Two, 2)) then Some(s.(removalComplete := s.removalComplete || completes))
            else None
  {
  }
}
