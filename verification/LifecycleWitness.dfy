/** The safety results are not empty: which tears and stages some run reaches, and
    what such runs need. */
module LifecycleWitness {
  import opened Wrappers
  import opened Catalog
  import opened ProgressRecord
  import opened Orchestration
  import opened Lifecycle
  import opened LifecycleProofs
  import opened LifecycleResume
  import opened LiveSteps
  import opened LifecycleProgram

  ghost predicate Reached(g: Program, s: Sys) {
    exists states, actions :: IsProgramRun(g, states, actions) && states[|actions|] == s
  }

  lemma Go(g: Program, s: Sys, a: Action, t: Sys)
    requires Reached(g, s) && Next(s, a) == Some(t) && Supported(a, g)
    ensures Reached(g, t)
  {
    hide Next, Init, Supported;
    var states, actions :| IsProgramRun(g, states, actions) && states[|actions|] == s;
    var longer, more := states + [t], actions + [a];
    forall i | 0 <= i < |more|
      ensures Next(longer[i], more[i]) == Some(longer[i + 1]) && Supported(more[i], g)
    {
      if i < |actions| {
        assert Next(states[i], actions[i]) == Some(states[i + 1]);
      }
    }
    assert IsProgramRun(g, longer, more) && longer[|more|] == t;
  }

  const FRESH := Sys(NormalBoot, false, false, false, false, false,
                     RebootState(false, None), DefaultProgress(), false, false, Idle)

  predicate Completes(id: StepId) { CanComplete(id) || IsDriverStep(id) }

  /** A step is completed if it can be, and refused otherwise. */
  function MarkFor(id: StepId): Mark { if Completes(id) then AsCompleted("") else AsSkipped }

  /** The first `n` steps of a phase recorded on top of `p`. */
  function Through(p: Progress, phase: Phase, n: nat): Progress {
    if n == 0 then p else Marked(Through(p, phase, n - 1), StepId(phase, n), MarkFor(StepId(phase, n)))
  }

  lemma {:induction false} ThroughIs(p: Progress, phase: Phase, n: nat, id: StepId)
    ensures var q, passed := Through(p, phase, n), id.phase == phase && 1 <= id.number <= n;
            && (q.IsCompleted(id) <==> if passed then Completes(id) else p.IsCompleted(id))
            && (q.IsSkipped(id) <==> if passed then !Completes(id) else p.IsSkipped(id))
            && (q.HasAdvisory(id) <==> !passed && p.HasAdvisory(id))
  {
    hide Completes;
    if n > 0 {
      ThroughIs(p, phase, n - 1, id);
    }
  }

  // Single actions

  lemma Records(s: Sys, phase: Phase, n: nat)
    requires (phase == One && s.pc.PhaseOneRun? && 1 <= n <= 37) || (phase == Three && s.pc.PhaseThreeRun? && 1 <= n <= 12)
    requires !s.progress.Recorded(StepId(phase, n))
    ensures var id := StepId(phase, n);
            Next(s, RecordStep(id, MarkFor(id))) == Some(s.(progress := Marked(s.progress, id, MarkFor(id))))
  {
    hide MarkFor, Marked;
  }

  lemma MarksAreSupported(g: Program, id: StepId)
    requires g.custom && (IsDriverStep(id) ==> g.drivers)
    ensures Supported(RecordStep(id, MarkFor(id)), g)
  {
  }

  lemma FreshOptimizes()
    ensures Next(FRESH, StartOptimize(Facts(FRESH), false)) == Some(FRESH.(pc := PhaseOneRun))
  {
    var p := DefaultProgress();
    assert !HasPhase(p, Two) && !HasPhase(p, Three);
    assert p.completed * PhaseOneSet() == {} && p.skipped * PhaseOneSet() == {};
  }

  lemma Publishes(s: Sys)
    requires s.pc.PhaseOneRun? && RequireResolvedPhaseOne(s.progress).None?
    ensures Next(s, PublishRuntime) == Some(s.(runtimeSelected := true, pc := Idle))
  {
  }

  lemma Arms(s: Sys)
    requires s.pc.Idle? && s.boot.NormalBoot? && s.runtimeSelected && s.state.transaction.None?
    requires RequireResolvedPhaseOne(s.progress).None?
    ensures Next(s, StartArm(Facts(s))) == Some(s.(pc := ArmRunOnce))
  {
    hide RequireResolvedPhaseOne, Status;
  }

  lemma WritesRunOnce(s: Sys, f: PhaseFacts)
    requires s.pc.ArmRunOnce? && s.state.transaction.None?
    ensures Next(s, Advance("", f)) == Some(s.(runOnce := true, pc := ArmSafeBoot))
  {
  }

  lemma WritesSafeBoot(s: Sys, f: PhaseFacts)
    requires s.pc.ArmSafeBoot?
    ensures Next(s, Advance("", f)) == Some(s.(safeBoot := true, pc := ArmState))
  {
  }

  lemma WritesArmedState(s: Sys, f: PhaseFacts)
    requires s.pc.ArmState? && s.state.transaction.None?
    ensures Next(s, Advance("", f)) == Some(s.(state := InStage(PhaseOneSafeModeArmed), pc := ArmProgress))
  {
  }

  lemma WritesProgress(s: Sys, f: PhaseFacts)
    requires AtProgressWrite(s) && !s.pc.FinalProgress?
    ensures Next(s, Advance("", f)) == Some(s.(progress := s.progress.Complete(BundleStep(s.pc), ""), pc := Idle))
  {
  }

  lemma Reboots(s: Sys, into: BootEnvironment, keeps: bool)
    requires s.pc.Idle?
    ensures Next(s, Reboot(into, keeps)) == Some(s.(boot := into, runOnce := s.runOnce && keeps))
  {
  }

  lemma Idles(s: Sys)
    ensures Next(s, Crash) == Some(s.(pc := Idle))
  {
  }

  function InStage(stage: RebootStage): RebootState { RebootState(true, Some(RebootTransaction(true, stage))) }

  ghost predicate InSafeMode(s: Sys) {
    && s.pc.Idle? && s.boot.SafeModeBoot? && s.runtimeSelected && s.runOnce
    && s.progress.IsCompleted(SAFE_MODE_HANDOFF) && !s.progress.IsSkipped(SAFE_BOOT_CLEAR)
  }

  lemma StartsClearing(s: Sys)
    requires InSafeMode(s) && s.state == InStage(PhaseOneSafeModeArmed) && s.safeBoot
    requires forall n | 1 <= n <= 3 :: !s.progress.Recorded(StepId(Two, n))
    ensures Next(s, StartPhaseTwo(Facts(s))) == Some(s.(pc := ClearSafeBootSetting))
  {
    hide Status;
    assert !s.progress.Recorded(SAFE_BOOT_CLEAR);
  }

  lemma ClearsSafeBoot(s: Sys, f: PhaseFacts)
    requires s.pc.ClearSafeBootSetting? && s.state == InStage(PhaseOneSafeModeArmed) && s.runOnce
    ensures Next(s, Advance("", f)) == Some(s.(safeBoot := false, pc := ClearState))
  {
  }

  lemma WritesClearedState(s: Sys, f: PhaseFacts)
    requires s.pc.ClearState? && s.state == InStage(PhaseOneSafeModeArmed)
    ensures Next(s, Advance("", f)) == Some(s.(state := InStage(PhaseTwoSafeMode), pc := ClearProgress))
  {
  }

  lemma StartsPhaseTwo(s: Sys)
    requires InSafeMode(s) && s.state == InStage(PhaseTwoSafeMode) && !s.safeBoot
    requires s.progress.IsCompleted(SAFE_BOOT_CLEAR)
    ensures Next(s, StartPhaseTwo(Facts(s))) == Some(s.(pc := PhaseTwoRun))
  {
    hide Status;
  }

  lemma Removes(s: Sys)
    requires s.pc.PhaseTwoRun? && !s.progress.Recorded(DRIVER_CLEANUP)
    ensures Next(s, StartRemoval(true)) == Some(s.(removalComplete := true))
    ensures Next(s, RecordStep(DRIVER_CLEANUP, AsCompleted("")))
         == Some(s.(progress := s.progress.Complete(DRIVER_CLEANUP, "")))
  {
  }

  lemma FinishesPhaseTwo(s: Sys)
    requires s.pc.PhaseTwoRun? && s.progress.IsCompleted(DRIVER_CLEANUP)
    ensures Next(s, FinishPhaseTwo) == Some(s.(pc := HandoffRun))
  {
  }

  lemma WritesRun(s: Sys, f: PhaseFacts)
    requires s.pc.HandoffRun? && s.removalComplete && s.progress.IsCompleted(DRIVER_CLEANUP)
    requires s.state == InStage(PhaseTwoSafeMode)
    ensures Next(s, Advance("", f)) == Some(s.(run := true, pc := HandoffState))
  {
  }

  lemma WritesHandoffState(s: Sys, f: PhaseFacts)
    requires s.pc.HandoffState? && s.state == InStage(PhaseTwoSafeMode)
    ensures Next(s, Advance("", f)) == Some(s.(state := InStage(PhaseThreeArmed), pc := HandoffProgress))
  {
  }

  ghost predicate AfterHandoff(s: Sys) {
    && s.pc.Idle? && s.boot.NormalBoot? && s.runtimeSelected && s.run && s.state == InStage(PhaseThreeArmed)
    && RequireCompletedPhaseTwo(s.progress).None?
    && !s.stateReceipt && !s.historyReceipt && !s.progress.Recorded(FINAL_BENCHMARK)
  }

  lemma StartsPhaseThree(s: Sys)
    requires AfterHandoff(s)
    ensures Next(s, StartPhaseThree(Facts(s))) == Some(s.(pc := PhaseThreeRun))
  {
    hide RequireCompletedPhaseTwo;
  }

  lemma StartsFinal(s: Sys)
    requires AfterHandoff(s) && s.progress.IsCompleted(DRIVER_INSTALL) && EarlierPhaseThreeResolved(s.progress)
    ensures Next(s, StartFinalBenchmark(Facts(s))) == Some(s.(pc := FinalHistory))
  {
    hide RequireCompletedPhaseTwo, EarlierPhaseThreeResolved;
  }

  lemma WritesHistory(s: Sys, f: PhaseFacts)
    requires s.pc.FinalHistory?
    ensures Next(s, Advance("", f)) == Some(s.(historyReceipt := true, pc := FinalState))
  {
  }

  lemma WritesFinalState(s: Sys, f: PhaseFacts)
    requires s.pc.FinalState? && s.state == InStage(PhaseThreeArmed)
    ensures Next(s, Advance("", f))
         == Some(s.(stateReceipt := true, state := InStage(PhaseThreeComplete), pc := FinalProgress))
  {
  }

  lemma WritesFinalProgress(s: Sys, f: PhaseFacts)
    requires s.pc.FinalProgress?
    ensures Next(s, Advance("", f)) == Some(s.(progress := s.progress.Complete(FINAL_BENCHMARK, ""), pc := FinalAuthorize))
  {
  }

  ghost predicate Finished(s: Sys) {
    && s.stateReceipt && s.historyReceipt && s.state == InStage(PhaseThreeComplete)
    && s.progress.IsCompleted(DRIVER_INSTALL) && s.progress.IsCompleted(FINAL_BENCHMARK)
    && !s.progress.IsSkipped(FINAL_BENCHMARK) && EarlierPhaseThreeResolved(s.progress)
  }

  lemma AuthorizesClear(s: Sys)
    requires s.pc.FinalAuthorize? && s.run && Finished(s)
    ensures Next(s, Advance("", Facts(s))) == Some(s.(pc := ClearRun))
  {
    hide EarlierPhaseThreeResolved;
  }

  lemma ClearsRun(s: Sys, f: PhaseFacts)
    requires s.pc.ClearRun? && s.run && Finished(s)
    ensures Next(s, Advance("", f)) == Some(s.(run := false, pc := Idle))
  {
    hide EarlierPhaseThreeResolved;
  }

  // Stretches of a run

  lemma {:induction false} RunRecords(g: Program, s: Sys, phase: Phase, n: nat)
    requires Reached(g, s)
    requires (phase == One && s.pc.PhaseOneRun? && n <= 37) || (phase == Three && s.pc.PhaseThreeRun? && n <= 12)
    requires forall k | 1 <= k <= n :: !s.progress.Recorded(StepId(phase, k))
    requires g.custom && (phase == Three ==> g.drivers)
    ensures Reached(g, s.(progress := Through(s.progress, phase, n)))
  {
    hide Reached, Next, Supported, MarkFor;
    if n == 0 {
      assert s.(progress := s.progress) == s;
    } else {
      RunRecords(g, s, phase, n - 1);
      var before := s.(progress := Through(s.progress, phase, n - 1));
      ThroughIs(s.progress, phase, n - 1, StepId(phase, n));
      var id := StepId(phase, n);
      Records(before, phase, n);
      MarksAreSupported(g, id);
      Go(g, before, RecordStep(id, MarkFor(id)), s.(progress := Through(s.progress, phase, n)));
    }
  }

  lemma FreshIsReached(g: Program)
    ensures Reached(g, FRESH)
  {
    var actions: seq<Action> := [];
    assert IsProgramRun(g, [FRESH], actions);
  }

  lemma PhaseOneIsResolved(p: Progress)
    requires forall k | 1 <= k <= 37 :: p.Resolved(StepId(One, k))
    ensures RequireResolvedPhaseOne(p).None?
  {
  }

  function PhaseOneProgress(): Progress { Through(DefaultProgress(), One, 37) }

  lemma PhaseOneProgressIs(id: StepId)
    ensures PhaseOneProgress().IsCompleted(id) <==> id.phase == One && 1 <= id.number <= 37 && Completes(id)
    ensures PhaseOneProgress().Recorded(id) <==> id.phase == One && 1 <= id.number <= 37
    ensures PhaseOneProgress().Resolved(id) <==> id.phase == One && 1 <= id.number <= 37
  {
    hide Through, Completes;
    ThroughIs(DefaultProgress(), One, 37, id);
  }

  /** Safe Mode armed, but for the write of P1:38. */
  function NearlyArmed(): Sys {
    FRESH.(progress := PhaseOneProgress(), runtimeSelected := true, runOnce := true, safeBoot := true,
           state := InStage(PhaseOneSafeModeArmed), pc := ArmProgress)
  }

  lemma NearlyArmedIsReached(g: Program)
    requires g.custom
    ensures Reached(g, NearlyArmed())
  {
    hide Reached, Next, PhaseOneProgress, Facts, RequireResolvedPhaseOne;
    FreshIsReached(g);
    FreshOptimizes();
    var s0 := FRESH.(pc := PhaseOneRun);
    Go(g, FRESH, StartOptimize(Facts(FRESH), false), s0);
    PhaseOneRunEnds(g, s0);
    var s1 := s0.(progress := PhaseOneProgress());
    Publishes(s1);
    var s2 := s1.(runtimeSelected := true, pc := Idle);
    Go(g, s1, PublishRuntime, s2);
    var f := Facts(s2);
    Arms(s2);
    var s3 := s2.(pc := ArmRunOnce);
    Go(g, s2, StartArm(f), s3);
    WritesRunOnce(s3, f);
    var s4 := s3.(runOnce := true, pc := ArmSafeBoot);
    Go(g, s3, Advance("", f), s4);
    WritesSafeBoot(s4, f);
    var s5 := s4.(safeBoot := true, pc := ArmState);
    Go(g, s4, Advance("", f), s5);
    WritesArmedState(s5, f);
    Go(g, s5, Advance("", f), NearlyArmed());
  }

  lemma PhaseOneRunEnds(g: Program, s: Sys)
    requires Reached(g, s) && s == FRESH.(pc := PhaseOneRun) && g.custom
    ensures Reached(g, s.(progress := PhaseOneProgress())) && RequireResolvedPhaseOne(PhaseOneProgress()).None?
  {
    hide Reached, RequireResolvedPhaseOne;
    RunRecords(g, s, One, 37);
    forall k | 1 <= k <= 37 ensures PhaseOneProgress().Resolved(StepId(One, k)) {
      PhaseOneProgressIs(StepId(One, k));
    }
    PhaseOneIsResolved(PhaseOneProgress());
  }

  /** Once torn, always torn: no further action of any kind, reboots and outside
      changes included, ever moves the stage again. */
  lemma {:induction false} TornForever(states: seq<Sys>, actions: seq<Action>, from: nat, i: nat)
    requires IsRun(states, actions) && from <= i < |states| && Torn(states[from]) && states[from].pc == Idle
    ensures Torn(states[i]) && states[i].pc == Idle && states[i].state == states[from].state
    ensures i < |actions| ==> !StartsCommand(actions[i])
  {
    hide Torn, Next, Inv;
    RunsKeepInv(states, actions, i);
    if i > from {
      TornForever(states, actions, from, i - 1);
      RunsKeepInv(states, actions, i - 1);
      assert Next(states[i - 1], actions[i - 1]) == Some(states[i]);
      TornHandoffStaysClosed(states[i - 1], actions[i - 1]);
    }
    if i < |actions| {
      assert Next(states[i], actions[i]) == Some(states[i + 1]);
      TornHandoffStaysClosed(states[i], actions[i]);
    }
  }

  lemma ReachedHasInv(g: Program, s: Sys)
    requires Reached(g, s)
    ensures Inv(s)
  {
    hide Inv, Next, Init;
    var states, actions :| IsProgramRun(g, states, actions) && states[|actions|] == s;
    RunsKeepInv(states, actions, |actions|);
  }

  /** Safe Mode left again, with the Phase 3 handoff armed. */
  function HandedOff(): Sys {
    NearlyArmed().(
      boot := NormalBoot, safeBoot := false, runOnce := false, run := true, removalComplete := true,
      state := InStage(PhaseThreeArmed), progress := PhaseTwoProgress(), pc := Idle)
  }

  function PhaseTwoProgress(): Progress { Through(PhaseOneProgress().Complete(SAFE_MODE_HANDOFF, ""), Two, 3) }

  lemma PhaseTwoUnfolds(p: Progress)
    ensures Through(p, Two, 3)
         == p.Complete(SAFE_BOOT_CLEAR, "").Complete(DRIVER_CLEANUP, "").Complete(PHASE_THREE_HANDOFF, "")
  {
    assert Through(p, Two, 2) == Through(p, Two, 1).Complete(DRIVER_CLEANUP, "");
    assert Through(p, Two, 1) == Through(p, Two, 0).Complete(SAFE_BOOT_CLEAR, "");
  }

  lemma ClearingIsReached(g: Program, s: Sys)
    requires Reached(g, s) && InSafeMode(s) && s.state == InStage(PhaseOneSafeModeArmed) && s.safeBoot
    requires forall n | 1 <= n <= 3 :: !s.progress.Recorded(StepId(Two, n))
    ensures Reached(g, s.(safeBoot := false, state := InStage(PhaseTwoSafeMode),
                       progress := s.progress.Complete(SAFE_BOOT_CLEAR, "")))
    ensures Reached(g, s.(safeBoot := false, pc := ClearState))
    ensures Reached(g, s.(safeBoot := false, state := InStage(PhaseTwoSafeMode), pc := ClearProgress))
  {
    hide Reached, Next, Facts;
    var f := Facts(s);
    StartsClearing(s);
    var s1 := s.(pc := ClearSafeBootSetting);
    Go(g, s, StartPhaseTwo(f), s1);
    ClearsSafeBoot(s1, f);
    var s2 := s1.(safeBoot := false, pc := ClearState);
    Go(g, s1, Advance("", f), s2);
    WritesClearedState(s2, f);
    var s3 := s2.(state := InStage(PhaseTwoSafeMode), pc := ClearProgress);
    Go(g, s2, Advance("", f), s3);
    WritesProgress(s3, f);
    Go(g, s3, Advance("", f), s3.(progress := s.progress.Complete(SAFE_BOOT_CLEAR, ""), pc := Idle));
  }

  lemma RemovalIsReached(g: Program, s: Sys)
    requires Reached(g, s) && InSafeMode(s) && s.state == InStage(PhaseTwoSafeMode) && !s.safeBoot
    requires s.progress.IsCompleted(SAFE_BOOT_CLEAR) && !s.progress.Recorded(DRIVER_CLEANUP) && g.drivers
    ensures Reached(g, s.(removalComplete := true, pc := HandoffRun, progress := s.progress.Complete(DRIVER_CLEANUP, "")))
  {
    hide Reached, Next, Facts;
    StartsPhaseTwo(s);
    var s1 := s.(pc := PhaseTwoRun);
    Go(g, s, StartPhaseTwo(Facts(s)), s1);
    Removes(s1);
    var s2 := s1.(removalComplete := true);
    Go(g, s1, StartRemoval(true), s2);
    Removes(s2);
    var s3 := s2.(progress := s2.progress.Complete(DRIVER_CLEANUP, ""));
    Go(g, s2, RecordStep(DRIVER_CLEANUP, AsCompleted("")), s3);
    FinishesPhaseTwo(s3);
    Go(g, s3, FinishPhaseTwo, s3.(pc := HandoffRun));
  }

  lemma HandoffIsReached(g: Program, s: Sys)
    requires Reached(g, s) && s.pc.HandoffRun? && s.removalComplete && s.progress.IsCompleted(DRIVER_CLEANUP)
    requires s.state == InStage(PhaseTwoSafeMode)
    ensures Reached(g, s.(run := true, state := InStage(PhaseThreeArmed), pc := Idle,
                       progress := s.progress.Complete(PHASE_THREE_HANDOFF, "")))
    ensures Reached(g, s.(run := true, state := InStage(PhaseThreeArmed), pc := HandoffProgress))
  {
    hide Reached, Next, Facts;
    var f := Facts(s);
    WritesRun(s, f);
    var s1 := s.(run := true, pc := HandoffState);
    Go(g, s, Advance("", f), s1);
    WritesHandoffState(s1, f);
    var s2 := s1.(state := InStage(PhaseThreeArmed), pc := HandoffProgress);
    Go(g, s1, Advance("", f), s2);
    WritesProgress(s2, f);
    Go(g, s2, Advance("", f), s2.(progress := s.progress.Complete(PHASE_THREE_HANDOFF, ""), pc := Idle));
  }

  /** Safe Mode armed, and booted into. */
  function InSafeBoot(): Sys {
    NearlyArmed().(progress := PhaseOneProgress().Complete(SAFE_MODE_HANDOFF, ""), pc := Idle, boot := SafeModeBoot)
  }

  lemma InSafeBootIsReached(g: Program)
    requires g.custom
    ensures Reached(g, InSafeBoot()) && InSafeMode(InSafeBoot())
    ensures forall n | 1 <= n <= 3 :: !InSafeBoot().progress.Recorded(StepId(Two, n))
  {
    hide Reached, Next, PhaseOneProgress, Facts;
    NearlyArmedIsReached(g);
    WritesProgress(NearlyArmed(), Facts(FRESH));
    var s0 := NearlyArmed().(progress := PhaseOneProgress().Complete(SAFE_MODE_HANDOFF, ""), pc := Idle);
    Go(g, NearlyArmed(), Advance("", Facts(FRESH)), s0);
    Reboots(s0, SafeModeBoot, true);
    Go(g, s0, Reboot(SafeModeBoot, true), InSafeBoot());
    forall n | 1 <= n <= 3 ensures !InSafeBoot().progress.Recorded(StepId(Two, n)) {
      PhaseOneProgressIs(StepId(Two, n));
    }
    assert !InSafeBoot().progress.Recorded(StepId(Two, 1));
  }

  /** P2:2 completed, with the Phase 3 handoff about to be armed. */
  function Removed(): Sys {
    InSafeBoot().(safeBoot := false, state := InStage(PhaseTwoSafeMode), removalComplete := true, pc := HandoffRun,
                  progress := InSafeBoot().progress.Complete(SAFE_BOOT_CLEAR, "").Complete(DRIVER_CLEANUP, ""))
  }

  lemma RemovedIsReached(g: Program)
    requires g.custom && g.drivers
    ensures Reached(g, Removed())
  {
    hide Reached, Next, PhaseOneProgress;
    InSafeBootIsReached(g);
    var s := InSafeBoot();
    assert !s.progress.Recorded(StepId(Two, 2));
    ClearingIsReached(g, s);
    RemovalIsReached(g, s.(safeBoot := false, state := InStage(PhaseTwoSafeMode),
                        progress := s.progress.Complete(SAFE_BOOT_CLEAR, "")));
  }

  lemma HandedOffIsReached(g: Program)
    requires g.custom && g.drivers
    ensures Reached(g, HandedOff())
  {
    hide Reached, Next, PhaseOneProgress, Facts, Through;
    RemovedIsReached(g);
    HandoffIsReached(g, Removed());
    PhaseTwoUnfolds(PhaseOneProgress().Complete(SAFE_MODE_HANDOFF, ""));
    var s := Removed().(run := true, state := InStage(PhaseThreeArmed), pc := Idle, progress := PhaseTwoProgress());
    Reboots(s, NormalBoot, false);
    Go(g, s, Reboot(NormalBoot, false), HandedOff());
  }

  lemma CrashIsReached(g: Program, s: Sys)
    requires Reached(g, s)
    ensures Reached(g, Crashed(s)) && Inv(s)
  {
    hide Reached, Next, Inv;
    Idles(s);
    Go(g, s, Crash, Crashed(s));
    ReachedHasInv(g, s);
  }

  /** Some run of the program leaves the handoff of this stage torn. */
  ghost predicate TearsAt(g: Program, rank: nat) {
    exists s :: Reached(g, s) && Torn(s) && s.pc == Idle && Rank(s) == rank
  }

  lemma TornAfterCrash(g: Program, s: Sys)
    requires Reached(g, s) && (s.pc.ArmProgress? || s.pc.ClearProgress? || s.pc.HandoffProgress?)
    ensures TearsAt(g, Rank(s))
  {
    hide Reached, Inv, Torn;
    CrashIsReached(g, s);
    CrashTearsIff(s);
    assert Rank(Crashed(s)) == Rank(s);
    assert Reached(g, Crashed(s)) && Torn(Crashed(s)) && Crashed(s).pc == Idle;
  }

  lemma EarlyTears(g: Program)
    requires g.custom
    ensures TearsAt(g, 1) && TearsAt(g, 2)
  {
    hide Reached, PhaseOneProgress, TearsAt;
    NearlyArmedIsReached(g);
    TornAfterCrash(g, NearlyArmed());
    InSafeBootIsReached(g);
    ClearingIsReached(g, InSafeBoot());
    TornAfterCrash(g, InSafeBoot().(safeBoot := false, state := InStage(PhaseTwoSafeMode), pc := ClearProgress));
  }

  lemma LateTear(g: Program)
    requires g.custom && g.drivers
    ensures TearsAt(g, 3)
  {
    hide Reached, PhaseOneProgress, TearsAt;
    RemovedIsReached(g);
    HandoffIsReached(g, Removed());
    TornAfterCrash(g, Removed().(run := true, state := InStage(PhaseThreeArmed), pc := HandoffProgress));
  }

  /** What every reached state owes to the program. */
  lemma ReachedNeeds(g: Program, s: Sys)
    requires Reached(g, s)
    ensures Rank(s) >= 1 ==> g.custom
    ensures Rank(s) >= 3 ==> g.custom && g.drivers
  {
    hide Inv, Next, Init, Supported, PhaseOneDone;
    var states, actions :| IsProgramRun(g, states, actions) && states[|actions|] == s;
    if !g.custom { ArmingNeedsCustom(g, states, actions, |actions|); }
    if !g.drivers { PhaseThreeNeedsDrivers(g, states, actions, |actions|); }
  }

  /** From a fresh machine the handoffs of P1:38 and P2:1 can be torn exactly if the custom profile
      is used, and that of P2:3 exactly if, besides, the driver steps could go on. */
  lemma TornHandoffsAreReachableIff(g: Program)
    ensures TearsAt(g, 1) <==> g.custom
    ensures TearsAt(g, 2) <==> g.custom
    ensures TearsAt(g, 3) <==> g.custom && g.drivers
  {
    hide Reached, Torn, Rank;
    forall s | Reached(g, s) ensures Rank(s) >= 1 ==> g.custom && (Rank(s) >= 3 ==> g.drivers) {
      ReachedNeeds(g, s);
    }
    if g.custom {
      EarlyTears(g);
      if g.drivers { LateTear(g); }
    }
  }

  ghost predicate ReachesRank(g: Program, rank: nat) { exists s :: Reached(g, s) && Rank(s) >= rank }

  /** Safe Mode is armed in some run exactly if the custom profile is used, and Phase 3 in some run
      exactly if, besides, the driver steps could go on: no run of the program gets there. */
  lemma StagesAreReachableIff(g: Program)
    ensures ReachesRank(g, 1) <==> g.custom
    ensures ReachesRank(g, 2) <==> g.custom
    ensures ReachesRank(g, 3) <==> g.custom && g.drivers
    ensures ReachesRank(g, 4) <==> g.custom && g.drivers
  {
    hide Reached, Torn, Rank;
    forall s | Reached(g, s) ensures Rank(s) >= 1 ==> g.custom && (Rank(s) >= 3 ==> g.drivers) {
      ReachedNeeds(g, s);
    }
    TornHandoffsAreReachableIff(g);
    if g.custom && g.drivers {
      WholeScheduleIsReachable(g);
      assert Rank(Complete()) == 4 by { CompleteIsLast(); }
    }
  }

  lemma CompleteIsLast()
    ensures Rank(Complete()) == 4
  {
    hide PhaseTwoProgress, PhaseOneProgress, Through;
  }

  /** A run of the program that removes the Safe Boot flag and crashes before P2:1 is recorded: not
      torn, but no reboots lead on until somebody sets the flag again. */
  lemma LostSafeBootIsReachable(g: Program) returns (s: Sys)
    requires g.custom
    ensures Reached(g, s) && s.pc == Idle && Rank(s) == 1 && !Torn(s)
    ensures forall path | OnlyReboots(path) :: !Resumes(s, path)
    ensures exists path :: NoCommands(path) && Resumes(s, path)
  {
    hide Reached, Next, Inv, Torn, PhaseOneProgress, Facts, Resumes, NeedsMet;
    InSafeBootIsReached(g);
    ClearingIsReached(g, InSafeBoot());
    var clearing := InSafeBoot().(safeBoot := false, pc := ClearState);
    CrashIsReached(g, clearing);
    CrashTearsIff(clearing);
    s := Crashed(clearing);
    CrashResumesByReboots(clearing);
    ResumesIff(s);
  }

  lemma PhaseTwoProgressIs(id: StepId)
    ensures var early := (id.phase == One && 1 <= id.number <= 38) || (id.phase == Two && 1 <= id.number <= 3);
            && (PhaseTwoProgress().Recorded(id) <==> early) && (PhaseTwoProgress().Resolved(id) <==> early)
            && (PhaseTwoProgress().IsCompleted(id) <==> early && Completes(id))
  {
    hide Through, PhaseOneProgress, CanComplete;
    PhaseOneProgressIs(id);
    ThroughIs(PhaseOneProgress().Complete(SAFE_MODE_HANDOFF, ""), Two, 3, id);
    HandoffsComplete();
  }

  lemma HandoffsComplete()
    ensures CanComplete(SAFE_MODE_HANDOFF) && CanComplete(SAFE_BOOT_CLEAR) && CanComplete(PHASE_THREE_HANDOFF)
  {
  }

  /** The whole schedule, with the last handoff cleared. */
  function Complete(): Sys {
    HandedOff().(run := false, stateReceipt := true, historyReceipt := true, state := InStage(PhaseThreeComplete),
                 progress := Through(PhaseTwoProgress(), Three, 12).Complete(FINAL_BENCHMARK, ""))
  }

  lemma BundleIsReached(g: Program, s: Sys)
    requires Reached(g, s) && AfterHandoff(s) && s.progress.IsCompleted(DRIVER_INSTALL)
    requires EarlierPhaseThreeResolved(s.progress)
    ensures Reached(g, s.(run := false, stateReceipt := true, historyReceipt := true, state := InStage(PhaseThreeComplete),
                       progress := s.progress.Complete(FINAL_BENCHMARK, "")))
  {
    hide Reached, Next, Facts, EarlierPhaseThreeResolved, RequireCompletedPhaseTwo;
    var f := Facts(s);
    StartsFinal(s);
    var s1 := s.(pc := FinalHistory);
    Go(g, s, StartFinalBenchmark(f), s1);
    WritesHistory(s1, f);
    var s2 := s1.(historyReceipt := true, pc := FinalState);
    Go(g, s1, Advance("", f), s2);
    WritesFinalState(s2, f);
    var s3 := s2.(stateReceipt := true, state := InStage(PhaseThreeComplete), pc := FinalProgress);
    Go(g, s2, Advance("", f), s3);
    WritesFinalProgress(s3, f);
    var s4 := s3.(progress := s.progress.Complete(FINAL_BENCHMARK, ""), pc := FinalAuthorize);
    Go(g, s3, Advance("", f), s4);
    StaysResolved(s.progress);
    AuthorizesClear(s4);
    var s5 := s4.(pc := ClearRun);
    Go(g, s4, Advance("", Facts(s4)), s5);
    ClearsRun(s5, f);
    Go(g, s5, Advance("", f), s5.(run := false, pc := Idle));
  }

  lemma StaysResolved(p: Progress)
    requires EarlierPhaseThreeResolved(p)
    ensures EarlierPhaseThreeResolved(p.Complete(FINAL_BENCHMARK, ""))
  {
    var q := p.Complete(FINAL_BENCHMARK, "");
    forall n | 2 <= n <= 12 ensures q.IsCompleted(StepId(Three, n)) || q.IsSkipped(StepId(Three, n)) {
      assert p.IsCompleted(StepId(Three, n)) || p.IsSkipped(StepId(Three, n));
    }
  }

  /** The guards leave a way through, if the driver steps could go on: some run then resolves all
      54 steps, completing each that can be, and ends with every handoff cleared. */
  lemma WholeScheduleIsReachable(g: Program)
    requires g.custom && g.drivers
    ensures Reached(g, Complete())
    ensures Complete().boot == NormalBoot && !Complete().safeBoot && !Complete().runOnce && !Complete().run
    ensures forall id: StepId | InCatalog(id) ::
              && Complete().progress.Resolved(id)
              && (Complete().progress.IsCompleted(id) <==> Completes(id) || id == FINAL_BENCHMARK)
  {
    hide Reached, Next, Facts, Through, PhaseTwoProgress, EarlierPhaseThreeResolved, RequireCompletedPhaseTwo, Completes;
    HandedOffIsReached(g);
    var s := HandedOff();
    var p := PhaseTwoProgress();
    HandedOffIsReady();
    StartsPhaseThree(s);
    var s1 := s.(pc := PhaseThreeRun);
    Go(g, s, StartPhaseThree(Facts(s)), s1);
    forall k | 1 <= k <= 12 ensures !p.Recorded(StepId(Three, k)) {
      PhaseTwoProgressIs(StepId(Three, k));
    }
    RunRecords(g, s1, Three, 12);
    var s2 := s1.(progress := Through(p, Three, 12));
    Idles(s2);
    var s3 := s2.(pc := Idle);
    Go(g, s2, Crash, s3);
    ThirdPhaseIsReady();
    BundleIsReached(g, s3);
    forall id: StepId | InCatalog(id)
      ensures Complete().progress.Resolved(id)
      ensures Complete().progress.IsCompleted(id) <==> Completes(id) || id == FINAL_BENCHMARK
    {
      PhaseTwoProgressIs(id);
      ThroughIs(p, Three, 12, id);
    }
  }

  lemma PhaseTwoIsComplete(p: Progress)
    requires forall k | 1 <= k <= 3 :: p.IsCompleted(StepId(Two, k))
    ensures RequireCompletedPhaseTwo(p).None?
  {
  }

  lemma HandedOffIsReady()
    ensures AfterHandoff(HandedOff())
  {
    hide PhaseTwoProgress, RequireCompletedPhaseTwo;
    forall k | 1 <= k <= 3 ensures PhaseTwoProgress().IsCompleted(StepId(Two, k)) {
      PhaseTwoProgressIs(StepId(Two, k));
      PhaseTwoCompletes(k);
    }
    PhaseTwoIsComplete(PhaseTwoProgress());
    PhaseTwoProgressIs(FINAL_BENCHMARK);
  }

  lemma PhaseTwoCompletes(k: nat)
    requires 1 <= k <= 3
    ensures Completes(StepId(Two, k))
  {
  }

  lemma ThirdPhaseIsReady()
    ensures var p := Through(PhaseTwoProgress(), Three, 12);
            && RequireCompletedPhaseTwo(p).None? && !p.Recorded(FINAL_BENCHMARK)
            && p.IsCompleted(DRIVER_INSTALL) && EarlierPhaseThreeResolved(p)
  {
    hide PhaseTwoProgress, RequireCompletedPhaseTwo, Through, CanComplete;
    var p := Through(PhaseTwoProgress(), Three, 12);
    forall id: StepId
      ensures id.phase == Two && 1 <= id.number <= 3 ==> p.IsCompleted(id)
      ensures id.phase == Three && 1 <= id.number <= 12 ==> p.Resolved(id) && (IsDriverStep(id) ==> p.IsCompleted(id))
      ensures id == FINAL_BENCHMARK ==> !p.Recorded(id)
    {
      ThroughIs(PhaseTwoProgress(), Three, 12, id);
      PhaseTwoProgressIs(id);
      if id.phase == Two && 1 <= id.number <= 3 { PhaseTwoCompletes(id.number); }
    }
    forall k | 1 <= k <= 3 ensures p.IsCompleted(StepId(Two, k)) {
      assert StepId(Two, k).phase == Two;
    }
    PhaseTwoIsComplete(p);
  }
}
