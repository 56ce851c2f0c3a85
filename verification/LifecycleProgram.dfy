/** Which runs of the lifecycle the live backend can produce. */
module LifecycleProgram {
  import opened Wrappers
  import opened Catalog
  import opened ProgressRecord
  import opened Orchestration
  import EngineModel
  import LiveRuns
  import LiveTransaction
  import opened LiveSteps
  import opened Lifecycle
  import opened LifecycleProofs

  /** `custom`: the user runs the custom profile and may refuse consent. `drivers`: the live
      inspection lets the two driver steps go on, which it does not do. */
  datatype Program = Program(custom: bool, drivers: bool)

  predicate IsDriverStep(id: StepId) { id == DRIVER_CLEANUP || id == DRIVER_INSTALL }

  /** A step is recorded only as its live inspection, the policy and the consent allow. */
  predicate Supported(a: Action, g: Program) {
    match a
    case RecordStep(id, AsCompleted(_)) => CanComplete(id) || (g.drivers && IsDriverStep(id))
    case RecordStep(id, AsSkipped) => g.custom || !IsTierOne(id) || CanPass(id)
    case RecordStep(id, AsAdvisory(_)) => CanAdvise(id)
    case StartRemoval(_) => g.drivers
    case _ => true
  }

  lemma LiveMarksAreSupported(p: Progress, q: Progress, step: Step, profile: Profile)
    requires LiveRuns.LiveMark(p, q, step, profile) && q != p
    requires IsTierOne(step.id) ==> step.tier == 1
    ensures exists mark ::
              q == Marked(p, step.id, mark) && Supported(RecordStep(step.id, mark), Program(profile == Custom, false))
  {
    hide CanComplete, CanAdvise, CanPass, IsTierOne;
    var id, g := step.id, Program(profile == Custom, false);
    if at :| CanComplete(id) && q == p.Complete(id, at) {
      assert q == Marked(p, id, AsCompleted(at)) && Supported(RecordStep(id, AsCompleted(at)), g);
    } else if reason :| CanAdvise(id) && q == p.AcknowledgeAdvisory(id, reason) {
      assert q == Marked(p, id, AsAdvisory(reason)) && Supported(RecordStep(id, AsAdvisory(reason)), g);
    } else {
      assert q == Marked(p, id, AsSkipped) && Supported(RecordStep(id, AsSkipped), g);
    }
  }

  /** What a visit of the live engine records, on any machine and under any fault, is a record that
      the program supports without the driver steps. */
  lemma VisitsAreSupported(b: LiveTransaction.Backend, st: EngineModel.St, step: Step, profile: Profile)
    requires LiveRuns.Lives(b) && |st.world.trace| >= b.start
    requires IsTierOne(step.id) ==> step.tier == 1
    ensures var q := EngineModel.RunStep(b.oracle, st, step, profile).st.progress;
            q == st.progress || exists mark ::
              && q == Marked(st.progress, step.id, mark)
              && Supported(RecordStep(step.id, mark), Program(profile == Custom, false))
  {
    hide LiveRuns.Lives, LiveRuns.LiveMark, EngineModel.RunStep, Marked, Supported;
    var q := EngineModel.RunStep(b.oracle, st, step, profile).st.progress;
    LiveRuns.VisitMarks(b, st, step, profile);
    if q != st.progress {
      LiveMarksAreSupported(st.progress, q, step, profile);
    }
  }

  ghost predicate IsProgramRun(g: Program, states: seq<Sys>, actions: seq<Action>) {
    IsRun(states, actions) && forall i | 0 <= i < |actions| :: Supported(actions[i], g)
  }

  /** The progress changes only by a record, a reset, or the last write of a bundle. */
  lemma ProgressIsWritten(s: Sys, a: Action)
    requires Next(s, a).Some?
    ensures var p, q := s.progress, Next(s, a).value.progress;
            || q == p
            || (a.RecordStep? && Recordable(s, a.id) && q == Marked(p, a.id, a.mark))
            || (a.ResetProgress? && q == DefaultProgress())
            || (a.Advance? && AtProgressWrite(s) && q == p.Complete(BundleStep(s.pc), a.timestamp))
  {
    hide Started, WriteState, WriteSetting, Recordable, MayReset, RequireResolvedPhaseOne;
    if a.Advance? && AtStateWrite(s) {
      StateWriteKeepsProgress(s);
    } else if a.Advance? && !AtProgressWrite(s) {
      SettingWriteKeepsState(s, a.facts);
    }
  }

  lemma StateWriteKeepsProgress(s: Sys)
    requires AtStateWrite(s) && WriteState(s).Some?
    ensures WriteState(s).value.progress == s.progress
  {
    hide Moved, StageIs;
    MovedKeepsProgress(s, PhaseTwoSafeMode, ClearProgress);
    MovedKeepsProgress(s, PhaseThreeArmed, HandoffProgress);
    MovedKeepsProgress(s.(stateReceipt := true), PhaseThreeComplete, FinalProgress);
  }

  lemma MovedKeepsProgress(s: Sys, next: RebootStage, pc: Pc)
    ensures Moved(s, next, pc).Some? ==> Moved(s, next, pc).value.progress == s.progress
  {
  }

  lemma UnresolvedStays(s: Sys, a: Action, g: Program)
    requires Next(s, a).Some? && Supported(a, g) && !g.custom
    requires !s.progress.Resolved(StepId(One, 3))
    ensures !Next(s, a).value.progress.Resolved(StepId(One, 3))
  {
    hide Next, Recordable;
    ProgressIsWritten(s, a);
  }

  /** In every run from a fresh machine on which the custom profile is never used, P1:3 stays
      unresolved, so Phase 1 never counts as done and Safe Mode is never armed. */
  lemma {:induction false} ArmingNeedsCustom(g: Program, states: seq<Sys>, actions: seq<Action>, i: nat)
    requires IsProgramRun(g, states, actions) && i < |states| && !g.custom
    ensures !states[i].progress.Resolved(StepId(One, 3))
    ensures !PhaseOneDone(states[i].progress) && Rank(states[i]) == 0
  {
    hide Next, Supported, Inv, PhaseOneDone;
    RunsKeepInv(states, actions, i);
    if i > 0 {
      ArmingNeedsCustom(g, states, actions, i - 1);
      assert Next(states[i - 1], actions[i - 1]) == Some(states[i]);
      UnresolvedStays(states[i - 1], actions[i - 1], g);
    }
    UnresolvedIsUnarmed(states[i]);
  }

  lemma UnresolvedIsUnarmed(s: Sys)
    requires Inv(s) && !s.progress.Resolved(StepId(One, 3))
    ensures !PhaseOneDone(s.progress) && Rank(s) == 0
  {
    assert !PhaseOneStepResolved(s.progress, StepId(One, 3)) && Role(StepId(One, 3)).Engine?;
  }

  lemma UncompletedStays(s: Sys, a: Action, g: Program)
    requires Next(s, a).Some? && Supported(a, g) && !g.drivers
    requires !s.progress.IsCompleted(DRIVER_CLEANUP)
    ensures !Next(s, a).value.progress.IsCompleted(DRIVER_CLEANUP)
  {
    hide Next, Recordable;
    ProgressIsWritten(s, a);
  }

  /** In every run from a fresh machine P2:2 stays uncompleted, since its live inspection fails:
      the stage never gets past Phase 2, nothing of Phase 3 is recorded, and no final
      benchmark is stored. */
  lemma {:induction false} PhaseThreeNeedsDrivers(g: Program, states: seq<Sys>, actions: seq<Action>, i: nat)
    requires IsProgramRun(g, states, actions) && i < |states| && !g.drivers
    ensures var s := states[i];
            && !s.progress.IsCompleted(DRIVER_CLEANUP)
            && Rank(s) <= 2 && !s.stateReceipt && !s.historyReceipt
            && forall n | 1 <= n <= PhaseSize(Three) :: !s.progress.Recorded(StepId(Three, n))
  {
    hide Next, Supported, Inv;
    RunsKeepInv(states, actions, i);
    if i > 0 {
      PhaseThreeNeedsDrivers(g, states, actions, i - 1);
      assert Next(states[i - 1], actions[i - 1]) == Some(states[i]);
      UncompletedStays(states[i - 1], actions[i - 1], g);
    }
    UncompletedIsEarly(states[i]);
  }

  lemma UncompletedIsEarly(s: Sys)
    requires Inv(s) && !s.progress.IsCompleted(DRIVER_CLEANUP)
    ensures Rank(s) <= 2 && !s.stateReceipt && !s.historyReceipt
    ensures forall n | 1 <= n <= PhaseSize(Three) :: !s.progress.Recorded(StepId(Three, n))
  {
    PhaseTwoHasRemoval(s.progress);
  }

  lemma PhaseTwoHasRemoval(p: Progress)
    ensures PhaseTwoDone(p) ==> p.IsCompleted(DRIVER_CLEANUP)
  {
    assert PhaseTwoDone(p) ==> p.IsCompleted(StepId(Two, 2));
  }
}
