/** Safety of the reboot lifecycle over every run. */
module LifecycleProofs {
  import opened Wrappers
  import opened Catalog
  import opened ProgressRecord
  import opened Orchestration
  import opened Lifecycle

  lemma MarkKeepsOthers(p: Progress, id: StepId, mark: Mark)
    requires !p.Recorded(id)
    ensures var q := Marked(p, id, mark);
            && q.Recorded(id)
            && (p.Disjoint() ==> q.Disjoint())
            && (PhaseOneDone(p) ==> PhaseOneDone(q))
            && (PhaseTwoDone(p) ==> PhaseTwoDone(q))
            && (EarlierPhaseThreeResolved(p) ==> EarlierPhaseThreeResolved(q))
            && forall other | other != id ::
                 && (q.IsCompleted(other) <==> p.IsCompleted(other))
                 && (q.IsSkipped(other) <==> p.IsSkipped(other))
                 && (q.HasAdvisory(other) <==> p.HasAdvisory(other))
  {
  }

  lemma RecordKeepsInv(s: Sys, id: StepId, mark: Mark)
    requires Inv(s) && Recordable(s, id)
    ensures Inv(s.(progress := Marked(s.progress, id, mark)))
  {
    hide PhaseOneDone, EarlierPhaseThreeResolved;
    MarkKeepsOthers(s.progress, id, mark);
  }

  lemma CompleteKeepsOthers(p: Progress, id: StepId, timestamp: string)
    ensures var q := p.Complete(id, timestamp);
            && q.IsCompleted(id) && !q.IsSkipped(id) && !q.HasAdvisory(id)
            && (p.Disjoint() ==> q.Disjoint())
            && (PhaseOneDone(p) ==> PhaseOneDone(q))
            && (PhaseTwoDone(p) ==> PhaseTwoDone(q))
            && (EarlierPhaseThreeResolved(p) ==> EarlierPhaseThreeResolved(q))
            && forall other | other != id ::
                 && (q.IsCompleted(other) <==> p.IsCompleted(other))
                 && (q.IsSkipped(other) <==> p.IsSkipped(other))
                 && (q.HasAdvisory(other) <==> p.HasAdvisory(other))
  {
  }

  predicate SameFiles(s: Sys, t: Sys) {
    && t.progress == s.progress && t.state == s.state && t.removalComplete == s.removalComplete
    && t.stateReceipt == s.stateReceipt && t.historyReceipt == s.historyReceipt
  }

  lemma SameFilesKeepOrder(s: Sys, t: Sys)
    requires Ordered(s) && SameFiles(s, t)
    ensures Ordered(t) && Rank(t) == Rank(s) && Status(t) == Status(s)
  {
  }

  /** The transaction is kept, newly armed, or moved one stage forward. */
  ghost predicate Moves(s: Sys, t: Sys) {
    var before, after := s.state.transaction, t.state.transaction;
    || after == before
    || (before.None? && after == Some(RebootTransaction(true, PhaseOneSafeModeArmed)))
    || (before.Some? && after.Some? && before.value.stage.AllowsTransitionTo(after.value.stage)
        && Rank(t) == Rank(s) + 1)
  }

  // One small lemma for each durable write

  lemma ArmProgressKeepsInv(s: Sys, timestamp: string)
    requires Inv(s) && s.pc.ArmProgress?
    ensures Inv(WriteProgress(s, timestamp))
  {
    CompleteKeepsOthers(s.progress, BundleStep(s.pc), timestamp);
  }

  lemma ClearProgressKeepsInv(s: Sys, timestamp: string)
    requires Inv(s) && s.pc.ClearProgress?
    ensures Inv(WriteProgress(s, timestamp))
  {
    CompleteKeepsOthers(s.progress, BundleStep(s.pc), timestamp);
  }

  lemma HandoffProgressKeepsInv(s: Sys, timestamp: string)
    requires Inv(s) && s.pc.HandoffProgress?
    ensures Inv(WriteProgress(s, timestamp))
  {
    CompleteKeepsOthers(s.progress, BundleStep(s.pc), timestamp);
    var p := s.progress.Complete(PHASE_THREE_HANDOFF, timestamp);
    assert forall k | 1 <= k <= PhaseSize(Two) :: StepId(Two, k) in {SAFE_BOOT_CLEAR, DRIVER_CLEANUP, PHASE_THREE_HANDOFF};
    assert PhaseTwoDone(p);
  }

  lemma FinalProgressKeepsInv(s: Sys, timestamp: string)
    requires Inv(s) && s.pc.FinalProgress?
    ensures Inv(WriteProgress(s, timestamp))
  {
    hide PhaseOneDone, PhaseTwoDone, EarlierPhaseThreeResolved;
    CompleteKeepsOthers(s.progress, BundleStep(s.pc), timestamp);
  }

  lemma ArmStateKeepsInv(s: Sys)
    requires Inv(s) && s.pc.ArmState? && WriteState(s).Some?
    ensures Inv(WriteState(s).value) && Moves(s, WriteState(s).value)
  {
  }

  lemma ClearStateKeepsInv(s: Sys)
    requires Inv(s) && s.pc.ClearState? && WriteState(s).Some?
    ensures Inv(WriteState(s).value) && Moves(s, WriteState(s).value)
  {
  }

  lemma HandoffStateKeepsInv(s: Sys)
    requires Inv(s) && s.pc.HandoffState? && WriteState(s).Some?
    ensures Inv(WriteState(s).value) && Moves(s, WriteState(s).value)
  {
  }

  lemma FinalStateKeepsInv(s: Sys)
    requires Inv(s) && s.pc.FinalState? && WriteState(s).Some?
    ensures Inv(WriteState(s).value) && Moves(s, WriteState(s).value)
  {
    hide PhaseOneDone, PhaseTwoDone, EarlierPhaseThreeResolved, Progress.Disjoint, Status;
  }

  lemma ArmRunOnceKeepsInv(s: Sys, f: PhaseFacts)
    requires Inv(s) && s.pc.ArmRunOnce? && WriteSetting(s, f).Some?
    ensures Inv(WriteSetting(s, f).value)
  {
    hide Authorize;
    SameFilesKeepOrder(s, WriteSetting(s, f).value);
  }

  lemma ArmSafeBootKeepsInv(s: Sys, f: PhaseFacts)
    requires Inv(s) && s.pc.ArmSafeBoot? && WriteSetting(s, f).Some?
    ensures Inv(WriteSetting(s, f).value)
  {
    hide Authorize;
    SameFilesKeepOrder(s, WriteSetting(s, f).value);
  }

  lemma ClearSafeBootSettingKeepsInv(s: Sys, f: PhaseFacts)
    requires Inv(s) && s.pc.ClearSafeBootSetting? && WriteSetting(s, f).Some?
    ensures Inv(WriteSetting(s, f).value)
  {
    hide Authorize;
    SameFilesKeepOrder(s, WriteSetting(s, f).value);
  }

  lemma HandoffRunKeepsInv(s: Sys, f: PhaseFacts)
    requires Inv(s) && s.pc.HandoffRun? && WriteSetting(s, f).Some?
    ensures Inv(WriteSetting(s, f).value)
  {
    hide Authorize;
    SameFilesKeepOrder(s, WriteSetting(s, f).value);
  }

  lemma FinalHistoryKeepsInv(s: Sys, f: PhaseFacts)
    requires Inv(s) && s.pc.FinalHistory? && WriteSetting(s, f).Some?
    ensures Inv(WriteSetting(s, f).value)
  {
    hide Authorize;
  }

  lemma FinalAuthorizeKeepsInv(s: Sys, f: PhaseFacts)
    requires Inv(s) && s.pc.FinalAuthorize? && WriteSetting(s, f).Some?
    ensures Inv(WriteSetting(s, f).value)
  {
    hide Authorize;
    SameFilesKeepOrder(s, WriteSetting(s, f).value);
  }

  lemma ClearRunKeepsInv(s: Sys, f: PhaseFacts)
    requires Inv(s) && s.pc.ClearRun? && WriteSetting(s, f).Some?
    ensures Inv(WriteSetting(s, f).value)
  {
    hide Authorize;
    SameFilesKeepOrder(s, WriteSetting(s, f).value);
  }

  lemma ProgressWriteKeepsInv(s: Sys, timestamp: string)
    requires Inv(s) && AtProgressWrite(s)
    ensures Inv(WriteProgress(s, timestamp))
  {
    hide Inv, WriteProgress;
    if s.pc.ArmProgress? { ArmProgressKeepsInv(s, timestamp); }
    else if s.pc.ClearProgress? { ClearProgressKeepsInv(s, timestamp); }
    else if s.pc.HandoffProgress? { HandoffProgressKeepsInv(s, timestamp); }
    else { FinalProgressKeepsInv(s, timestamp); }
  }

  lemma StateWriteKeepsInv(s: Sys)
    requires Inv(s) && AtStateWrite(s) && WriteState(s).Some?
    ensures Inv(WriteState(s).value) && Moves(s, WriteState(s).value)
  {
    hide Inv, WriteState, Moves;
    if s.pc.ArmState? { ArmStateKeepsInv(s); }
    else if s.pc.ClearState? { ClearStateKeepsInv(s); }
    else if s.pc.HandoffState? { HandoffStateKeepsInv(s); }
    else { FinalStateKeepsInv(s); }
  }

  lemma OnlySettingWrites(s: Sys, f: PhaseFacts)
    requires WriteSetting(s, f).Some?
    ensures s.pc.ArmRunOnce? || s.pc.ArmSafeBoot? || s.pc.ClearSafeBootSetting? || s.pc.HandoffRun?
            || s.pc.FinalHistory? || s.pc.FinalAuthorize? || s.pc.ClearRun?
  {
    hide Authorize, Status;
  }

  lemma {:induction false} SettingWriteKeepsInv(s: Sys, f: PhaseFacts)
    requires Inv(s) && WriteSetting(s, f).Some?
    ensures Inv(WriteSetting(s, f).value)
  {
    hide Inv, WriteSetting;
    OnlySettingWrites(s, f);
    if s.pc.ArmRunOnce? { ArmRunOnceKeepsInv(s, f); }
    else if s.pc.ArmSafeBoot? { ArmSafeBootKeepsInv(s, f); }
    else if s.pc.ClearSafeBootSetting? { ClearSafeBootSettingKeepsInv(s, f); }
    else if s.pc.HandoffRun? { HandoffRunKeepsInv(s, f); }
    else if s.pc.FinalHistory? { FinalHistoryKeepsInv(s, f); }
    else if s.pc.FinalAuthorize? { FinalAuthorizeKeepsInv(s, f); }
    else { ClearRunKeepsInv(s, f); }
  }

  lemma {:induction false} AdvanceKeepsInv(s: Sys, timestamp: string, f: PhaseFacts)
    requires Inv(s) && Advanced(s, timestamp, f).Some?
    ensures Inv(Advanced(s, timestamp, f).value)
  {
    hide Inv, WriteProgress, WriteState, WriteSetting;
    if AtProgressWrite(s) {
      ProgressWriteKeepsInv(s, timestamp);
    } else if AtStateWrite(s) {
      StateWriteKeepsInv(s);
    } else {
      SettingWriteKeepsInv(s, f);
    }
  }

  lemma StartOptimizeAtPc(s: Sys, a: Action)
    requires Inv(s) && s.pc == Idle && a.StartOptimize? && StartedFromIdle(s, a).Some?
    ensures AtPc(s.(pc := PhaseOneRun))
  {
    hide Ordered, Authorize;
  }

  lemma StartArmAtPc(s: Sys, a: Action)
    requires Inv(s) && s.pc == Idle && a.StartArm? && StartedFromIdle(s, a).Some?
    ensures AtPc(s.(pc := ArmRunOnce))
  {
    hide Ordered;
  }

  /** What a Phase 2 grant on truthful evidence establishes. */
  lemma PhaseTwoGrant(s: Sys, f: PhaseFacts, t: Transition)
    requires Grants(s, PhaseTwo, f, t)
    ensures s.progress.IsCompleted(SAFE_MODE_HANDOFF) && s.boot == SafeModeBoot && s.runOnce
    ensures if s.progress.IsCompleted(SAFE_BOOT_CLEAR) then
              t == RunRemainingPhaseTwo && !s.safeBoot && StageIs(s, PhaseTwoSafeMode)
            else
              t == RunPhaseTwoStepOne && s.safeBoot && StageIs(s, PhaseOneSafeModeArmed)
  {
  }

  lemma StartPhaseTwoAtPc(s: Sys, f: PhaseFacts)
    requires StartedPhaseTwo(s, f).Some?
    ensures AtPc(s.(pc := StartedPhaseTwo(s, f).value))
  {
    hide Grants;
    if Grants(s, PhaseTwo, f, RunPhaseTwoStepOne) {
      PhaseTwoGrant(s, f, RunPhaseTwoStepOne);
    } else {
      PhaseTwoGrant(s, f, RunRemainingPhaseTwo);
    }
  }

  /** What the Phase 3 grants on truthful evidence establish. */
  lemma PhaseThreeGrant(s: Sys, f: PhaseFacts)
    requires Grants(s, PhaseThree, f, RunPhaseThree)
    ensures s.boot == NormalBoot && PhaseTwoDone(s.progress) && StageIs(s, PhaseThreeArmed)
  {
  }

  lemma FinalBenchmarkGrant(s: Sys, f: PhaseFacts)
    requires Grants(s, FinalBenchmark, f, PersistFinal)
    ensures PhaseTwoDone(s.progress) && (StageIs(s, PhaseThreeArmed) || StageIs(s, PhaseThreeComplete))
  {
  }

  lemma StartPhaseThreeAtPc(s: Sys, f: PhaseFacts)
    requires StartedPhaseThree(s, f).Some?
    ensures AtPc(s.(pc := StartedPhaseThree(s, f).value))
  {
    hide Grants;
    if Status(s) != Coherent { PhaseThreeGrant(s, WithFinal(f, Absent)); }
  }

  lemma StartFinalBenchmarkAtPc(s: Sys, f: PhaseFacts)
    requires Inv(s) && s.pc == Idle && StartedFinalBenchmark(s, f).Some?
    ensures AtPc(s.(pc := StartedFinalBenchmark(s, f).value))
  {
    hide Grants;
    FinalBenchmarkGrant(s, f);
  }

  lemma StartKeepsInv(s: Sys, a: Action)
    requires Inv(s) && StartsCommand(a) && Started(s, a).Some?
    ensures Inv(s.(pc := Started(s, a).value))
  {
    hide Ordered, Grants, AssessInventory, StartedPhaseTwo, StartedPhaseThree, StartedFinalBenchmark;
    SameFilesKeepOrder(s, s.(pc := Started(s, a).value));
    match a
    case StartOptimize(_, _) => StartOptimizeAtPc(s, a);
    case StartArm(_) => StartArmAtPc(s, a);
    case StartPhaseTwo(f) => StartPhaseTwoAtPc(s, f);
    case StartPhaseThree(f) => StartPhaseThreeAtPc(s, f);
    case StartFinalBenchmark(f) => StartFinalBenchmarkAtPc(s, f);
    case _ =>
  }

  lemma RemovalKeepsInv(s: Sys, completes: bool)
    requires Inv(s) && s.pc == PhaseTwoRun
    ensures Inv(s.(removalComplete := s.removalComplete || completes))
  {
    hide PhaseOneDone, PhaseTwoDone, EarlierPhaseThreeResolved, Progress.Disjoint;
  }

  lemma ResetKeepsInv(s: Sys, f: PhaseFacts)
    requires Inv(s) && MayReset(s, f)
    ensures Inv(s.(progress := DefaultProgress()))
  {
  }

  lemma {:induction false} OtherKeepsInv(s: Sys, a: Action)
    requires Inv(s) && Next(s, a).Some?
    requires a.PublishRuntime? || a.StartRemoval? || a.ResetProgress? || a.Crash? || a.Reboot? || a.Outside?
    ensures Inv(Next(s, a).value)
  {
    hide Authorize, Advanced, AssessInventory, Ordered, MayReset, RequireResolvedPhaseOne;
    if a.StartRemoval? {
      RemovalKeepsInv(s, a.completes);
    } else if a.ResetProgress? {
      ResetKeepsInv(s, a.facts);
    } else {
      SameFilesKeepOrder(s, Next(s, a).value);
    }
  }

  lemma {:induction false} NextKeepsInv(s: Sys, a: Action)
    requires Inv(s) && Next(s, a).Some?
    ensures Inv(Next(s, a).value)
  {
    hide Inv, Started, Advanced, Recordable;
    if StartsCommand(a) {
      StartKeepsInv(s, a);
    } else {
      match a
      case RecordStep(id, mark) => RecordKeepsInv(s, id, mark);
      case Advance(timestamp, f) => AdvanceKeepsInv(s, timestamp, f);
      case _ => OtherKeepsInv(s, a);
    }
  }

  /** A run: states linked by enabled actions. */
  ghost predicate IsRun(states: seq<Sys>, actions: seq<Action>) {
    && |states| == |actions| + 1
    && Init(states[0])
    && forall i | 0 <= i < |actions| :: Next(states[i], actions[i]) == Some(states[i + 1])
  }

  lemma {:induction false} RunsKeepInv(states: seq<Sys>, actions: seq<Action>, i: nat)
    requires IsRun(states, actions) && i < |states|
    ensures Inv(states[i])
  {
    hide Inv, Next;
    if i == 0 {
      InitKeepsInv(states[0]);
    } else {
      RunsKeepInv(states, actions, i - 1);
      assert Next(states[i - 1], actions[i - 1]) == Some(states[i]);
      NextKeepsInv(states[i - 1], actions[i - 1]);
    }
  }

  lemma InitKeepsInv(s: Sys)
    requires Init(s)
    ensures Inv(s)
  {
  }

  /** Driver removal starts only in Safe Mode, after P2:1 is durably complete, with
      Safe Boot off, in an authorized transaction whose Phase 1 is resolved. */
  lemma RemovalOnlyInSafeMode(states: seq<Sys>, actions: seq<Action>, i: nat)
    requires IsRun(states, actions) && i < |actions| && actions[i].StartRemoval?
    ensures var s := states[i];
            && s.boot == SafeModeBoot && !s.safeBoot
            && s.progress.IsCompleted(SAFE_BOOT_CLEAR)
            && StageIs(s, PhaseTwoSafeMode)
            && s.progress.IsCompleted(SAFE_MODE_HANDOFF) && PhaseOneDone(s.progress)
  {
    RunsKeepInv(states, actions, i);
    assert Next(states[i], actions[i]) == Some(states[i + 1]);
  }

  /** Nothing of Phase 3 is ever recorded unless all of Phase 2 is complete, and
      then removal evidence is complete and Phase 1 is resolved. */
  lemma PhaseThreeNeedsPhaseTwo(states: seq<Sys>, actions: seq<Action>, i: nat, n: nat)
    requires IsRun(states, actions) && i < |states|
    requires 1 <= n <= PhaseSize(Three) && states[i].progress.Recorded(StepId(Three, n))
    ensures var s := states[i];
            PhaseTwoDone(s.progress) && PhaseOneDone(s.progress) && s.removalComplete && 3 <= Rank(s) <= 4
  {
    RunsKeepInv(states, actions, i);
    assert PhaseTwoDone(states[i].progress);
    assert states[i].progress.IsCompleted(StepId(Two, 3));
  }

  lemma OnlyClearRunDisarms(s: Sys, a: Action)
    requires Next(s, a).Some? && !a.Outside? && s.run && !Next(s, a).value.run
    ensures s.pc.ClearRun?
  {
    hide Started, WriteSetting, Recordable, MayReset, RequireResolvedPhaseOne;
    if a.Advance? && !AtProgressWrite(s) && !AtStateWrite(s) {
      SettingWriteDisarms(s, a.facts);
    }
  }

  lemma SettingWriteDisarms(s: Sys, f: PhaseFacts)
    requires WriteSetting(s, f).Some? && s.run && !WriteSetting(s, f).value.run
    ensures s.pc.ClearRun?
  {
    hide Authorize, Status;
  }

  lemma {:induction false} StateIsWrittenByHandoffs(s: Sys, a: Action)
    requires Next(s, a).Some? && Next(s, a).value.state.transaction != s.state.transaction
    ensures a.Advance? && AtStateWrite(s)
  {
    hide Started, WriteState, WriteSetting, Recordable, MayReset, RequireResolvedPhaseOne;
    if a.Advance? && !AtProgressWrite(s) && !AtStateWrite(s) {
      SettingWriteKeepsState(s, a.facts);
    }
  }

  lemma SettingWriteKeepsState(s: Sys, f: PhaseFacts)
    requires WriteSetting(s, f).Some?
    ensures WriteSetting(s, f).value.state == s.state && WriteSetting(s, f).value.progress == s.progress
  {
    hide Authorize, Status, Grants, WithFinal, StageIs;
    match s.pc {
      case ArmRunOnce =>
      case ArmSafeBoot =>
      case ClearSafeBootSetting =>
      case HandoffRun =>
      case FinalHistory =>
      case FinalAuthorize =>
      case ClearRun =>
      case _ =>
    }
  }

  /** The workflow removes the Phase 3 handoff only when P3:1 and P3:13 are
      complete and the three benchmark files are coherent. */
  lemma HandoffClearedOnlyWhenComplete(states: seq<Sys>, actions: seq<Action>, i: nat)
    requires IsRun(states, actions) && i < |actions| && !actions[i].Outside?
    requires states[i].run && !states[i + 1].run
    ensures var s := states[i];
            && s.progress.IsCompleted(DRIVER_INSTALL) && s.progress.IsCompleted(FINAL_BENCHMARK)
            && EarlierPhaseThreeResolved(s.progress) && PhaseTwoDone(s.progress)
            && Status(s) == Coherent
  {
    hide Inv, Next;
    RunsKeepInv(states, actions, i);
    assert Next(states[i], actions[i]) == Some(states[i + 1]);
    OnlyClearRunDisarms(states[i], actions[i]);
    CoherentAtClearRun(states[i]);
  }

  lemma CoherentAtClearRun(s: Sys)
    requires Inv(s) && s.pc.ClearRun?
    ensures s.progress.IsCompleted(DRIVER_INSTALL) && s.progress.IsCompleted(FINAL_BENCHMARK)
    ensures EarlierPhaseThreeResolved(s.progress) && PhaseTwoDone(s.progress) && Status(s) == Coherent
  {
  }

  /** A recorded transaction is never dropped or replaced, and its stage moves
      only along allowed transitions. */
  lemma {:induction false} StageOnlyMovesForward(states: seq<Sys>, actions: seq<Action>, i: nat)
    requires IsRun(states, actions) && i < |actions|
    ensures Moves(states[i], states[i + 1])
  {
    hide Inv, Moves, WriteState;
    RunsKeepInv(states, actions, i);
    assert Next(states[i], actions[i]) == Some(states[i + 1]);
    if states[i + 1].state.transaction == states[i].state.transaction {
      UnmovedMoves(states[i], states[i + 1]);
    } else {
      StateIsWrittenByHandoffs(states[i], actions[i]);
      StateWriteKeepsInv(states[i]);
    }
  }

  lemma UnmovedMoves(s: Sys, t: Sys)
    requires t.state.transaction == s.state.transaction
    ensures Moves(s, t)
  {
  }
}
