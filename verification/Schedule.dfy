/** The fifty-four steps as they are scheduled, and what runs of them come to. */
module Schedule {
  import opened Wrappers
  import opened Catalog
  import opened ProgressRecord
  import opened EngineModel
  import opened LiveSteps
  import opened LiveTransaction
  import opened Orchestration
  import Audit
  import LiveRuns
  import opened LiveTable
  import Recipes

  predicate InFirstTier(id: StepId) {
    At(id, One, {1, 2, 3, 4, 5, 6, 12, 16, 17, 18, 19, 24}) || At(id, Two, {1, 2, 3}) || At(id, Three, {1, 5, 12, 13})
  }

  predicate InSecondTier(id: StepId) {
    || At(id, One, {7, 8, 9, 13, 14, 21, 23, 25, 26, 27, 28, 29, 30, 31, 32, 33, 34, 35})
    || At(id, Three, {2, 6, 7, 8, 11})
  }

  function TierOf(id: StepId): nat { if InFirstTier(id) then 1 else if InSecondTier(id) then 2 else 3 }

  function RiskOf(id: StepId): Risk {
    if At(id, One, {38}) || At(id, Two, {2}) then Critical
    else if At(id, One, {8, 30, 34}) || At(id, Two, {1, 3}) || At(id, Three, {1}) then Moderate
    else Safe
  }

  /** Only these may change anything. */
  predicate MayChange(id: StepId) {
    At(id, One, {1, 8, 12, 16, 30, 34, 38}) || At(id, Two, {1, 2, 3}) || At(id, Three, {1, 4})
  }

  function Scheduled(id: StepId): Step { Step(id, TierOf(id), RiskOf(id), !MayChange(id)) }

  ghost predicate AreScheduled(steps: seq<Step>) {
    forall s | s in steps :: InCatalog(s.id) && s == Scheduled(s.id)
  }

  /** The tier of the schedule is the one that the profile results go by. */
  lemma TiersAre(id: StepId)
    requires InCatalog(id)
    ensures IsTierOne(id) <==> TierOf(id) == 1
  {
    assert id.phase == Two ==> id.number in {1, 2, 3};
  }

  /** Which scheduled steps each profile runs unasked, and which it asks for; it skips the others. */
  lemma ProfilesDecide(id: StepId)
    requires InCatalog(id)
    ensures var s := Scheduled(id);
            var first, second := InFirstTier(id), InSecondTier(id);
            && (Decide(SafeProfile, s.tier, s.risk) == Auto <==> first || (second && !At(id, One, {8, 30, 34})))
            && Decide(SafeProfile, s.tier, s.risk) != Prompt
            && (Decide(Recommended, s.tier, s.risk) == Auto <==> first)
            && (Decide(Recommended, s.tier, s.risk) == Prompt <==> second)
            && (Decide(Competitive, s.tier, s.risk) == Auto <==> first)
            && (Decide(Competitive, s.tier, s.risk) == Prompt <==> !first && !At(id, One, {38}))
            && (Decide(Yolo, s.tier, s.risk) == Auto <==> !At(id, One, {38}))
            && Decide(Yolo, s.tier, s.risk) != Prompt
            && Decide(Custom, s.tier, s.risk) == Prompt
  {
    assert id.phase == Two ==> id.number in {1, 2, 3};
    RiskyAre(id);
  }

  lemma RiskyAre(id: StepId)
    ensures RiskOf(id) == Critical ==> At(id, One, {38}) || InFirstTier(id)
    ensures RiskOf(id) == Moderate ==> At(id, One, {8, 30, 34}) || InFirstTier(id)
    ensures At(id, One, {38}) ==> RiskOf(id) == Critical && !InFirstTier(id) && !InSecondTier(id)
    ensures At(id, One, {8, 30, 34}) ==> RiskOf(id) == Moderate && !InFirstTier(id) && InSecondTier(id)
    ensures InFirstTier(id) ==> !InSecondTier(id)
  {
    hide InFirstTier, InSecondTier;
    TiersAreApart(id);
    RisksAre(id);
  }

  lemma RisksAre(id: StepId)
    ensures RiskOf(id) == Critical ==> At(id, One, {38}) || InFirstTier(id)
    ensures RiskOf(id) == Moderate ==> At(id, One, {8, 30, 34}) || InFirstTier(id)
    ensures At(id, One, {38}) ==> RiskOf(id) == Critical
    ensures At(id, One, {8, 30, 34}) ==> RiskOf(id) == Moderate
  {
  }

  lemma TiersAreApart(id: StepId)
    ensures InFirstTier(id) ==> !InSecondTier(id)
    ensures At(id, One, {38}) ==> !InFirstTier(id) && !InSecondTier(id)
    ensures At(id, One, {8, 30, 34}) ==> InSecondTier(id)
  {
  }

  /** A step that a live inspection found in need of a change, and that may change anything. */
  lemma NeededAndMayChange(id: StepId, v: View)
    requires Finding(id, v) == Some(NeedsApply) && MayChange(id)
    ensures At(id, One, {8, 12, 30, 34}) || At(id, Two, {1})
  {
    hide Finding;
    FindingIff(id, v);
    assert v.sees && FoundNeeded(id, v);
  }

  /** Whatever profile, machine and faults: a live run of scheduled steps applies nothing but P1:8, P1:12,
      P1:30 and P1:34, and P2:1 if the engine is given it; under the safe profile nothing but P1:12 and P2:1. */
  lemma {:induction false} OnlyTheseMutate(b: Backend, st: St, steps: seq<Step>, profile: Profile, i: nat)
    requires LiveRuns.Lives(b) && |st.world.trace| >= b.start && AreScheduled(steps)
    requires var t := Run(b.oracle, st, steps, profile).st.world.trace; |st.world.trace| <= i < |t| && t[i].Apply?
    ensures var id := Run(b.oracle, st, steps, profile).st.world.trace[i].id;
            && (At(id, One, {8, 12, 30, 34}) || At(id, Two, {1}))
            && (profile == SafeProfile ==> At(id, One, {12}) || At(id, Two, {1}))
  {
    hide Run, LiveRuns.Lives, MayChange, Recipes.GoesOn, At, InFirstTier, InSecondTier;
    var t := Run(b.oracle, st, steps, profile).st.world.trace;
    var step, n := Recipes.AppliesAreNeeded(b.oracle, st, steps, profile, i);
    FoundThere(b, t[..n + 1], step.id);
    NeededAndMayChange(step.id, b.machine(t[..n + 1]).view);
    var asked := Recipes.InspectionsAreAgreed(b.oracle, st, steps, profile, n);
    assert asked == step;
    SafeSkips(b.oracle, step.id, t[..n]);
  }

  lemma FoundThere(b: Backend, t: seq<Call>, id: StepId)
    requires LiveRuns.Lives(b) && |t| > b.start && t[|t| - 1] == Inspect(id)
    requires b.oracle.ok(t) && b.oracle.inspection(t) == NeedsApply
    ensures !b.oracle.dryRun && Finding(id, b.machine(t).view) == Some(NeedsApply)
  {
    assert LiveRuns.AnswersAt(b, t);
  }

  /** The safe profile does not go on with steps of moderate risk. */
  lemma SafeSkips(o: Oracle, id: StepId, t: seq<Call>)
    requires At(id, One, {8, 12, 30, 34}) || At(id, Two, {1})
    ensures Recipes.GoesOn(o, SafeProfile, Scheduled(id), t) ==> At(id, One, {12}) || At(id, Two, {1})
  {
  }

  /** Under any profile but the custom one no live run of the schedule resolves Phase 1. */
  lemma ScheduleNeedsCustom(b: Backend, st: St, steps: seq<Step>, profile: Profile, id: StepId)
    requires LiveRuns.Lives(b) && |st.world.trace| >= b.start && profile != Custom && AreScheduled(steps)
    requires At(id, One, {3, 4, 6, 16}) && !st.progress.Resolved(id)
    ensures var q := Run(b.oracle, st, steps, profile).st.progress;
            !q.Resolved(id) && RequireResolvedPhaseOne(q).Some?
  {
    hide Run, LiveRuns.Lives, RequireResolvedPhaseOne, IsTierOne;
    forall s | s in steps && IsTierOne(s.id) ensures s.tier == 1 {
      TiersAre(s.id);
    }
    LiveRuns.PhaseOneNeedsCustom(b, st, steps, profile, id);
  }

  /** The steps that are not the engine's, that store a receipt, and that need a manual recovery. */
  lemma RolesAre(id: StepId)
    ensures Role(id) == Engine <==> !At(id, One, {38}) && !At(id, Two, {1, 3}) && !At(id, Three, {13})
    ensures LiveRuns.StoresReceipt(id) <==> At(id, One, {18, 20, 21, 22})
    ensures LiveRecovery(id) == if At(id, Two, {2}) || At(id, Three, {1}) then Audit.ManualRecoveryAudit else Audit.LosslessBackup
  {
  }
}
