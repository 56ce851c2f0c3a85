/** Whole-run properties: prefix and resume, rerun, accounting. */
module EngineRuns {
  import opened Wrappers
  import opened Catalog
  import opened ProgressRecord
  import opened EngineModel

  /** In-memory progress is what was last durably persisted. */
  ghost predicate Synced(st: St) { st.progress == st.world.saved }

  lemma FinishSyncs(o: Oracle, st: St, done: Outcome, id: StepId)
    requires Synced(st) && Holds(st, done.st) && FailsAt(done, id)
    ensures var r := Finish(o, done, id);
            SyncedStep(st.progress, r, id)
  {
  }

  lemma LiveInspectionSyncs(o: Oracle, st: St, step: Step, inspection: Inspection)
    requires Synced(st)
    ensures var r := RunLiveStep(o, st, step, inspection);
            SyncedStep(st.progress, r, step.id)
  {
    hide RunOperation, Finish;
    if inspection == Satisfied || inspection == NeedsApply {
      FinishSyncs(o, st, RunOperation(o, st, step, inspection), step.id);
    }
  }

  /** The step is now recorded and so is everything that was. */
  ghost predicate AddsRecord(before: Progress, after: Progress, id: StepId) {
    after.Recorded(id) && forall other | before.Recorded(other) :: after.Recorded(other)
  }

  ghost predicate SyncedStep(before: Progress, r: Outcome, id: StepId) {
    && Synced(r.st)
    && (if r.error.Some? then r.st.progress == before && r.error.value.id == id
        else AddsRecord(before, r.st.progress, id))
  }

  lemma SettledSyncs(o: Oracle, settled: (St, bool), step: Step)
    requires !o.dryRun && Synced(settled.0)
    ensures SyncedStep(settled.0.progress, RunSettled(o, settled, step), step.id)
  {
    hide RunLiveStep;
    var asked := settled.0.Note(InspectEvent(step.id)).Invoke(o, Inspect(step.id));
    LiveInspectionSyncs(o, asked, step, o.inspection(asked.world.trace));
  }

  lemma {:induction false} LiveStepSyncs(o: Oracle, st: St, step: Step, profile: Profile)
    requires !o.dryRun && Synced(st)
    ensures SyncedStep(st.progress, RunStep(o, st, step, profile), step.id)
  {
    hide RunSettled;
    var settled := Settle(o, st.Invoke(o, PollCancelled), step, profile);
    SettledSyncs(o, settled, step);
  }

  /** Running xs and then ys is running xs + ys. */
  lemma {:induction false} RunAppend(o: Oracle, st: St, xs: seq<Step>, ys: seq<Step>, profile: Profile)
    ensures var first := Run(o, st, xs, profile);
            Run(o, st, xs + ys, profile) ==
            if first.error.Some? then first else Run(o, first.st, ys, profile)
    decreases |xs|
  {
    if xs == [] {
      assert xs + ys == ys;
    } else {
      assert (xs + ys)[1..] == xs[1..] + ys;
      var head := RunStep(o, st, xs[0], profile);
      if head.error.None? {
        RunAppend(o, head.st, xs[1..], ys, profile);
      }
    }
  }

  /** A live run that stops at step i leaves, in memory and on disk, exactly the
      progress of the successful run of the steps before i. */
  lemma {:induction false} ErrorStopsAtPrefix(o: Oracle, st: St, steps: seq<Step>, profile: Profile) returns (i: nat)
    requires !o.dryRun && Synced(st)
    requires Run(o, st, steps, profile).error.Some?
    ensures i < |steps|
    ensures var r := Run(o, st, steps, profile);
            var before := Run(o, st, steps[..i], profile);
            && r.error.value.id == steps[i].id
            && before.error.None?
            && r == RunStep(o, before.st, steps[i], profile)
            && r.st.progress == r.st.world.saved == before.st.progress == before.st.world.saved
    decreases |steps|
  {
    var head := RunStep(o, st, steps[0], profile);
    LiveStepSyncs(o, st, steps[0], profile);
    if head.error.Some? {
      i := 0;
    } else {
      var j := ErrorStopsAtPrefix(o, head.st, steps[1..], profile);
      i := j + 1;
      assert steps[..i][0] == steps[0];
      assert steps[..i][1..] == steps[1..][..j];
    }
  }

  lemma {:induction false} LiveRunRecords(o: Oracle, st: St, steps: seq<Step>, profile: Profile)
    requires !o.dryRun && Synced(st)
    requires Run(o, st, steps, profile).error.None?
    ensures var r := Run(o, st, steps, profile);
            && Synced(r.st)
            && (forall id | st.progress.Recorded(id) :: r.st.progress.Recorded(id))
            && (forall s | s in steps :: r.st.progress.Recorded(s.id))
    decreases |steps|
  {
    if steps != [] {
      LiveStepSyncs(o, st, steps[0], profile);
      LiveRunRecords(o, RunStep(o, st, steps[0], profile).st, steps[1..], profile);
      assert forall s | s in steps :: s == steps[0] || s in steps[1..];
    }
  }

  lemma {:induction false} RecordedStepsAreSilent(o: Oracle, st: St, steps: seq<Step>, profile: Profile)
    requires forall s | s in steps :: st.progress.Recorded(s.id)
    ensures Run(o, st, steps, profile) == Outcome(st, None)
    decreases |steps|
  {
    if steps != [] {
      assert steps[0] in steps;
      RecordedStepsAreSilent(o, st, steps[1..], profile);
    }
  }

  /** Running a finished list again, under any profile and any backend answers,
      asks nobody anything and changes nothing. */
  lemma RerunIsSilent(o: Oracle, st: St, steps: seq<Step>, profile: Profile, o': Oracle, profile': Profile)
    requires !o.dryRun && Synced(st)
    requires Run(o, st, steps, profile).error.None?
    ensures var done := Run(o, st, steps, profile).st;
            Run(o', done.(report := EmptyReport()), steps, profile') == Outcome(done.(report := EmptyReport()), None)
  {
    LiveRunRecords(o, st, steps, profile);
    RecordedStepsAreSilent(o', Run(o, st, steps, profile).st.(report := EmptyReport()), steps, profile');
  }

  // Accounting

  /** Each record set has grown by exactly its counter since `base`. */
  ghost predicate Accounted(base: Progress, st: St) {
    && st.progress.Disjoint()
    && base.completed <= st.progress.completed
    && base.skipped <= st.progress.skipped
    && base.advisories.Keys <= st.progress.advisories.Keys
    && |st.progress.completed| == |base.completed| + st.report.completed
    && |st.progress.skipped| == |base.skipped| + st.report.skipped
    && |st.progress.advisories.Keys| == |base.advisories.Keys| + st.report.advisories
    && st.report.failed == 0
  }

  /** The counters of a report and the recorded sets, before and after one live step. */
  lemma {:induction false} LiveStepAccounts(o: Oracle, st: St, step: Step, profile: Profile, base: Progress)
    requires !o.dryRun && Accounted(base, st)
    requires RunStep(o, st, step, profile).error.None?
    ensures Accounted(base, RunStep(o, st, step, profile).st)
  {
    if !st.progress.Recorded(step.id) {
      RecordedOnce(o, st, step, profile);
      GainAccounts(base, st, RunStep(o, st, step, profile).st, step.id);
    }
  }

  lemma GainAccounts(base: Progress, st: St, after: St, id: StepId)
    requires Accounted(base, st) && !st.progress.Recorded(id)
    requires GainsOne(st.progress, st.report, after, id)
    ensures Accounted(base, after)
  {
  }

  /** Exactly one of the three records gains the step, with its counter. */
  ghost predicate GainsOne(p: Progress, before: Report, after: St, id: StepId) {
    var q, r := after.progress, after.report;
    && r.failed == before.failed
    && (|| (q.completed == p.completed + {id} && q.skipped == p.skipped && q.advisories == p.advisories
            && (r.completed, r.skipped, r.advisories) == (before.completed + 1, before.skipped, before.advisories))
        || (q.skipped == p.skipped + {id} && q.completed == p.completed && q.advisories == p.advisories
            && (r.completed, r.skipped, r.advisories) == (before.completed, before.skipped + 1, before.advisories))
        || (q.advisories.Keys == p.advisories.Keys + {id} && q.completed == p.completed && q.skipped == p.skipped
            && (r.completed, r.skipped, r.advisories) == (before.completed, before.skipped, before.advisories + 1)))
  }

  lemma FinishedOnce(o: Oracle, st: St, done: Outcome, id: StepId)
    requires !st.progress.Recorded(id) && Holds(st, done.st)
    requires Finish(o, done, id).error.None?
    ensures GainsOne(st.progress, st.report, Finish(o, done, id).st, id)
  {
    var p := st.progress;
    assert p.skipped - {id} == p.skipped && p.advisories - {id} == p.advisories;
  }

  lemma {:induction false} InspectedOnce(o: Oracle, st: St, step: Step, inspection: Inspection)
    requires !st.progress.Recorded(step.id)
    requires RunLiveStep(o, st, step, inspection).error.None?
    ensures GainsOne(st.progress, st.report, RunLiveStep(o, st, step, inspection).st, step.id)
  {
    hide RunOperation, Finish;
    if inspection == Satisfied || inspection == NeedsApply {
      FinishedOnce(o, st, RunOperation(o, st, step, inspection), step.id);
    } else {
      var p := st.progress;
      assert p.completed - {step.id} == p.completed && p.skipped - {step.id} == p.skipped;
      assert p.advisories - {step.id} == p.advisories;
    }
  }

  lemma {:induction false} SettledOnce(o: Oracle, settled: (St, bool), step: Step)
    requires !o.dryRun && !settled.0.progress.Recorded(step.id)
    requires RunSettled(o, settled, step).error.None?
    ensures GainsOne(settled.0.progress, settled.0.report, RunSettled(o, settled, step).st, step.id)
  {
    hide RunLiveStep;
    var st := settled.0;
    if settled.1 {
      var p := st.progress;
      assert p.completed - {step.id} == p.completed && p.advisories - {step.id} == p.advisories;
    } else {
      var asked := st.Note(InspectEvent(step.id)).Invoke(o, Inspect(step.id));
      InspectedOnce(o, asked, step, o.inspection(asked.world.trace));
    }
  }

  lemma {:induction false} RecordedOnce(o: Oracle, st: St, step: Step, profile: Profile)
    requires !o.dryRun && !st.progress.Recorded(step.id)
    requires RunStep(o, st, step, profile).error.None?
    ensures GainsOne(st.progress, st.report, RunStep(o, st, step, profile).st, step.id)
  {
    hide RunSettled;
    var settled := Settle(o, st.Invoke(o, PollCancelled), step, profile);
    SettledOnce(o, settled, step);
  }

  /** In a successful live run the three record sets stay disjoint and each grows
      by exactly what the report counts. */
  lemma {:induction false} LiveRunAccounts(o: Oracle, st: St, steps: seq<Step>, profile: Profile, base: Progress)
    requires !o.dryRun && Accounted(base, st)
    requires Run(o, st, steps, profile).error.None?
    ensures Accounted(base, Run(o, st, steps, profile).st)
    decreases |steps|
  {
    if steps != [] {
      LiveStepAccounts(o, st, steps[0], profile, base);
      LiveRunAccounts(o, RunStep(o, st, steps[0], profile).st, steps[1..], profile, base);
    }
  }

  function Total(r: Report): nat { r.completed + r.skipped + r.advisories + r.failed }

  function Unrecorded(p: Progress, steps: seq<Step>): nat {
    if steps == [] then 0
    else (if p.Recorded(steps[0].id) then 0 else 1) + Unrecorded(p, steps[1..])
  }

  ghost predicate OnlyPreviews(calls: seq<Call>) {
    forall c | c in calls :: c.Inspect? || c.Plan?
  }

  /** A successful dry run counts every listed step not yet recorded once, calls
      only inspect and plan, and changes neither progress nor storage. */
  lemma {:induction false} DryRunAccounts(o: Oracle, st: St, steps: seq<Step>, profile: Profile)
    requires o.dryRun && Run(o, st, steps, profile).error.None?
    ensures var r := Run(o, st, steps, profile).st;
            && Total(r.report) == Total(st.report) + Unrecorded(st.progress, steps)
            && DryRunKeeps(st, r)
    decreases |steps|
  {
    if steps != [] {
      var head := RunStep(o, st, steps[0], profile);
      DryStep(o, st, steps[0], profile);
      DryRunAccounts(o, head.st, steps[1..], profile);
    }
  }

  ghost predicate DryRunKeeps(st: St, r: St) {
    && r.progress == st.progress
    && (r.world.saved, r.world.backups, r.world.resources) == (st.world.saved, st.world.backups, st.world.resources)
    && st.world.trace <= r.world.trace
    && OnlyPreviews(r.world.trace[|st.world.trace|..])
  }

  lemma DryStep(o: Oracle, st: St, step: Step, profile: Profile)
    requires o.dryRun && RunStep(o, st, step, profile).error.None?
    ensures var r := RunStep(o, st, step, profile).st;
            && Total(r.report) == Total(st.report) + (if st.progress.Recorded(step.id) then 0 else 1)
            && DryRunKeeps(st, r)
  {
    hide RunInspected, DryRunKeeps;
    DryKeepsRefl(st);
    if !st.progress.Recorded(step.id) && !Settle(o, st, step, profile).1 {
      DryInspected(o, st, step);
    }
  }

  lemma DryKeepsRefl(st: St)
    ensures forall r: Report :: DryRunKeeps(st, st.(report := r))
  {
  }

  lemma DryInspected(o: Oracle, st: St, step: Step)
    requires o.dryRun && RunInspected(o, st, step).error.None?
    ensures var r := RunInspected(o, st, step).st;
            Total(r.report) == Total(st.report) + 1 && DryRunKeeps(st, r)
  {
    hide RunLiveStep;
  }
}
