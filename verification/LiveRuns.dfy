/** Engine runs over the live backend, under every fault of the machine. */
module LiveRuns {
  import opened Wrappers
  import opened Catalog
  import opened ProgressRecord
  import opened Audit
  import opened Backup
  import opened EngineModel
  import opened WriteAhead
  import opened LiveSteps
  import opened LiveTransaction
  import opened Orchestration

  /** The last call is answered as the live backend answers it. */
  ghost predicate AnswersAt(b: Backend, t: seq<Call>)
    requires |t| > b.start
  {
    var n := |t| - 1;
    && b.oracle.ok(t) == Answers(LiveAt(b, t[..n]), t[n], b.machine(t), Requirement(b, t[n]))
    && (t[n].Inspect? && b.oracle.ok(t) ==> Some(b.oracle.inspection(t)) == Finding(t[n].id, b.machine(t).view))
  }

  /** These preparation steps store a receipt of what they observed. */
  predicate StoresReceipt(id: StepId) { ActionOf(id) in {CleanPreparation, ProfilePreparation, InterruptPreparation} }

  /** The engine runs live on this backend, from where its transaction state is `initial`. */
  ghost predicate Lives(b: Backend) {
    && !b.oracle.dryRun
    && (forall id :: b.oracle.recovery(id) == LiveRecovery(id))
    && (forall id :: b.oracle.durableEvidence(id) == StoresReceipt(id))
    && (forall t: seq<Call> | |t| > b.start :: AnswersAt(b, t))
  }

  function Configured(b: Backend): Backend {
    b.(oracle := b.oracle.(dryRun := false, recovery := LiveRecovery, durableEvidence := StoresReceipt))
  }

  predicate LastIsFound(b: Backend, t: seq<Call>) {
    t != [] && t[|t| - 1].Inspect? && Finding(t[|t| - 1].id, b.machine(t).view).Some?
  }

  /** The backend whose answers are those of this machine, whatever it does at each call. */
  ghost function Answering(b: Backend): Backend {
    var live := Configured(b);
    live.(oracle := live.oracle.(
      ok := (t: seq<Call>) =>
        |t| > b.start
        && Answers(LiveAt(live, t[..|t| - 1]), t[|t| - 1], b.machine(t), Requirement(live, t[|t| - 1])),
      inspection := (t: seq<Call>) =>
        if LastIsFound(b, t) then Finding(t[|t| - 1].id, b.machine(t).view).value else b.oracle.inspection(t)))
  }

  lemma {:induction false} LiveAtIgnoresAnswers(
    b: Backend, ok: seq<Call> -> bool, inspection: seq<Call> -> Inspection, t: seq<Call>)
    ensures LiveAt(b.(oracle := b.oracle.(ok := ok, inspection := inspection)), t) == LiveAt(b, t)
  {
    hide Next;
    if |t| > b.start {
      LiveAtIgnoresAnswers(b, ok, inspection, t[..|t| - 1]);
    }
  }

  /** So every machine, with any pattern of faults, gives such a run. */
  lemma EveryMachineLives(b: Backend)
    ensures var a := Answering(b);
            Lives(a) && a.machine == b.machine && a.initial == b.initial && a.start == b.start
  {
    hide LiveAt, Answers, Finding;
    var a := Answering(b);
    forall t: seq<Call> | |t| > a.start ensures AnswersAt(a, t) {
      LiveAtIgnoresAnswers(Configured(b), a.oracle.ok, a.oracle.inspection, t[..|t| - 1]);
      if t[|t| - 1].Inspect? { InspectAnswers(LiveAt(a, t[..|t| - 1]), t[|t| - 1], b.machine(t), Requirement(a, t[|t| - 1])); }
    }
  }

  lemma InspectAnswers(s: Live, c: Call, m: Machine, r: RecoveryRequirement)
    requires c.Inspect?
    ensures Answers(s, c, m, r) <==> Finding(c.id, m.view).Some?
  {
  }

  /** No transaction is open; at most the page file keeps a binding. */
  ghost predicate Free(s: Live) { !s.lock && s.captured == {} && s.bound <= {PAGEFILE} }

  /** The trace that the run of these steps leaves. */
  ghost function TraceOf(b: Backend, st: St, steps: seq<Step>, profile: Profile): seq<Call> {
    Run(b.oracle, st, steps, profile).st.world.trace
  }

  lemma StoredFrees(b: Backend, t: seq<Call>)
    requires Lives(b) && |t| > b.start && t[|t| - 1].PersistProgress? && b.oracle.ok(t)
    ensures Free(LiveAt(b, t))
  {
    assert AnswersAt(b, t);
  }

  lemma VisitStartIsFree(b: Backend, t: seq<Call>)
    requires Lives(b) && Free(b.initial) && AtVisitStart(b.oracle, b.start, t)
    ensures Free(LiveAt(b, t))
  {
    hide Lives, Free;
    if |t| > b.start {
      StoredFrees(b, t);
    }
  }

  lemma PollsKeep(s: Live, c: Call, m: Machine, r: RecoveryRequirement)
    requires c.PollCancelled? || c.AskConsent?
    ensures Next(s, c, m, r) == s
  {
  }

  lemma PollKeeps(b: Backend, t: seq<Call>)
    requires |t| > b.start && (t[|t| - 1].PollCancelled? || t[|t| - 1].AskConsent?)
    ensures LiveAt(b, t) == LiveAt(b, t[..|t| - 1])
  {
    hide Next;
    var n := |t| - 1;
    PollsKeep(LiveAt(b, t[..n]), t[n], b.machine(t), Requirement(b, t[n]));
  }

  /** The engine polls, asks and inspects one step at a time: wherever a visit is about to poll or
      to inspect, on every machine and under every fault, no transaction is open. */
  lemma {:induction false} VisitsStartFree(b: Backend, st: St, steps: seq<Step>, profile: Profile, i: nat)
    requires Lives(b) && Free(b.initial) && b.start == |st.world.trace|
    requires var t := TraceOf(b, st, steps, profile);
             b.start <= i < |t| && (t[i].PollCancelled? || t[i].AskConsent? || t[i].Inspect?)
    ensures Free(LiveAt(b, TraceOf(b, st, steps, profile)[..i]))
  {
    hide Lives, Free, LiveAt, Run, MayApply;
    var t := TraceOf(b, st, steps, profile);
    assert !b.oracle.dryRun by { LivesLive(b); }
    var now := AllowedAt(b.oracle, st, steps, profile, i);
    if t[i].PollCancelled? {
      VisitStartIsFree(b, t[..i]);
    } else {
      VisitsStartFree(b, st, steps, profile, i - 1);
      assert t[..i][..i - 1] == t[..i - 1];
      PollKeeps(b, t[..i]);
    }
  }

  lemma LivesLive(b: Backend)
    requires Lives(b)
    ensures !b.oracle.dryRun && forall id :: b.oracle.recovery(id) == LiveRecovery(id)
    ensures forall id :: b.oracle.durableEvidence(id) == StoresReceipt(id)
  {
  }

  /** A run that ends without an error, however many steps it visited, leaves no transaction open. */
  lemma {:induction false} RunsEndFree(b: Backend, st: St, steps: seq<Step>, profile: Profile)
    requires Lives(b) && Free(b.initial) && AtVisitStart(b.oracle, b.start, st.world.trace)
    requires Run(b.oracle, st, steps, profile).error.None?
    ensures Free(LiveAt(b, TraceOf(b, st, steps, profile)))
    decreases |steps|
  {
    hide Lives, Free, LiveAt, RunStep;
    if steps == [] {
      VisitStartIsFree(b, st.world.trace);
    } else {
      LivesLive(b);
      var next := RunStep(b.oracle, st, steps[0], profile).st;
      VisitEnds(b.oracle, st, steps[0], profile);
      StepGrows(b.oracle, st, steps[0], profile);
      RunsEndFree(b, next, steps[1..], profile);
    }
  }

  lemma StepGrows(o: Oracle, st: St, step: Step, profile: Profile)
    ensures |st.world.trace| <= |RunStep(o, st, step, profile).st.world.trace|
  {
    hide RunStep;
    assert Run(o, st, [step], profile).st == RunStep(o, st, step, profile).st by { SingleRun(o, st, step, profile); }
    RunsAreSound(o, st, [step], profile);
  }

  lemma SingleRun(o: Oracle, st: St, step: Step, profile: Profile)
    ensures Run(o, st, [step], profile) == RunStep(o, st, step, profile)
  {
    hide RunStep;
    assert [step][1..] == [];
    var head := RunStep(o, st, step, profile);
    assert Run(o, head.st, [], profile) == Outcome(head.st, None);
  }

  // What holds at a mutation

  lemma Answered(b: Backend, t: seq<Call>)
    requires Lives(b) && |t| > b.start
    ensures AnswersAt(b, t)
  {
  }

  lemma InspectKeeps(s: Live, id: StepId, m: Machine, r: RecoveryRequirement)
    ensures var n := Next(s, Inspect(id), m, r);
            && n.lock == s.lock && n.captured == s.captured
            && (Answers(s, Inspect(id), m, r) ==>
                  n.bound == if BindsAtInspection(id) then s.bound + {id} else s.bound)
  {
  }

  lemma CaptureOpens(s: Live, id: StepId, m: Machine, r: RecoveryRequirement)
    requires Answers(s, CaptureBackups(id), m, r)
    ensures var n := Next(s, CaptureBackups(id), m, r);
            Captures(s, CaptureBackups(id), m) && n.lock && n.captured == s.captured + {id}
  {
  }

  lemma PersistKeeps(s: Live, c: Call, m: Machine, r: RecoveryRequirement)
    requires (c.PersistBackups? || c.PersistIrreversible?) && Answers(s, c, m, r)
    ensures var n := Next(s, c, m, r);
            s.lock && n.lock && n.captured == s.captured && !Clears(s, c, m) && !Abandons(s, c, m)
  {
  }

  /** The state after the last call is its transition, and its answer the backend's. */
  lemma LastCall(b: Backend, t: seq<Call>, n: nat)
    requires Lives(b) && b.start <= n && n + 1 <= |t|
    ensures var u := t[..n + 1];
            && LiveAt(b, u) == Next(LiveAt(b, t[..n]), t[n], b.machine(u), Requirement(b, t[n]))
            && b.oracle.ok(u) == Answers(LiveAt(b, t[..n]), t[n], b.machine(u), Requirement(b, t[n]))
  {
    hide Lives, Next, Answers;
    var u := t[..n + 1];
    assert u[..n] == t[..n];
    Answered(b, u);
  }

  /** After its inspection and its durable batch, the step alone is captured and its capture holds the lock. */
  lemma BackupOpens(b: Backend, t: seq<Call>, id: StepId)
    requires Lives(b) && JustBackedUp(b.oracle, b.start, t, id) && Free(LiveAt(b, t[..|t| - 3]))
    ensures LiveAt(b, t).lock && LiveAt(b, t).captured == {id}
    ensures CapturedBy(b, t, |t| - 2, id) && HeldSince(b, t, |t| - 2)
  {
    hide Lives, Next, Answers, LiveAt, Captures, Clears, Abandons;
    var n := |t|;
    assert t[..n - 2][n - 3] == t[n - 3] && t[..n] == t;
    LastCall(b, t, n - 3);
    LastCall(b, t, n - 2);
    LastCall(b, t, n - 1);
    var s0, s1, s2 := LiveAt(b, t[..n - 3]), LiveAt(b, t[..n - 2]), LiveAt(b, t[..n - 1]);
    InspectKeeps(s0, id, b.machine(t[..n - 2]), Requirement(b, t[n - 3]));
    CaptureOpens(s1, id, b.machine(t[..n - 1]), Requirement(b, t[n - 2]));
    PersistKeeps(s2, t[n - 1], b.machine(t), Requirement(b, t[n - 1]));
    assert s1.captured + {id} == {id};
    assert CapturesAt(b, t, n - 2, id);
    assert !ClearsAt(b, t, n - 1) && !AbandonsAt(b, t, n - 1, id);
    forall k | n - 2 < k <= n ensures LiveAt(b, t[..k]).lock {
      assert k == n - 1 || k == n;
    }
  }

  /** A step that is found to need applying is one that a live inspection can go on with. */
  lemma FoundCanComplete(b: Backend, t: seq<Call>, id: StepId, found: Inspection)
    requires Lives(b) && JustFound(b.oracle, b.start, t, id, found) && (found == Satisfied || found == NeedsApply)
    ensures CanComplete(id)
  {
    hide Lives;
    Answered(b, t);
    FindingsAre(id);
  }

  lemma CompletableAreNoDrivers(id: StepId)
    requires CanComplete(id)
    ensures !IsDriver(id) && !ActionOf(id).NetworkTransaction? && !ActionOf(id).ProfileApply?
  {
  }

  /** At every apply of every run, under every fault, the lock was taken in this very visit by
      the one standing capture, that of the step itself. So no mutation of a run is stale;
      and no run applies a step that live inspections never go on with. */
  lemma {:induction false} MutationsAreFresh(b: Backend, st: St, steps: seq<Step>, profile: Profile, i: nat)
    requires Lives(b) && Free(b.initial) && b.start == |st.world.trace|
    requires var t := TraceOf(b, st, steps, profile); b.start <= i < |t| && t[i].Apply?
    ensures var t := TraceOf(b, st, steps, profile);
            var id, s := t[i].id, LiveAt(b, t[..i]);
            && CanComplete(id) && !IsDriver(id)
            && i >= b.start + 3 && t[i - 3] == Inspect(id) && Free(LiveAt(b, t[..i - 3]))
            && s.lock && s.captured == {id}
            && CapturedBy(b, t[..i], i - 2, id) && HeldSince(b, t[..i], i - 2)
            && !Stale(b, t[..i], t[i])
  {
    hide Free, LiveAt, Run, CapturedBy, HeldSince, JustAudited, CanComplete, IsDriver;
    LivesLive(b);
    hide Lives;
    var t := TraceOf(b, st, steps, profile);
    var id := t[i].id;
    AppliesAreWrittenAhead(b.oracle, st, steps, profile, i);
    var u := t[..i];
    InspectedBefore(b.oracle, b.start, u, id);
    assert u[..i - 2][i - 3] == t[i - 3];
    FoundCanComplete(b, u[..i - 2], id, NeedsApply);
    CompletableAreNoDrivers(id);
    VisitsStartFree(b, st, steps, profile, i - 3);
    assert u[..i - 3] == t[..i - 3];
    BackupOpens(b, u, id);
  }

  lemma InspectedBefore(o: Oracle, start: nat, t: seq<Call>, id: StepId)
    requires MayApply(o, start, t, id) && o.recovery(id) == LiveRecovery(id)
    ensures |t| >= 2 && JustInspected(o, start, t[..|t| - 2], id)
    ensures !IsDriver(id) ==> JustBackedUp(o, start, t, id)
  {
  }

  /** Steps that the live backend cannot carry out: their inspection never lets the engine go on. */
  predicate IsUnavailable(id: StepId) { id in {StepId(One, 16), DRIVER_CLEANUP, DRIVER_INSTALL, StepId(Three, 4)} }

  lemma UnavailableCannotComplete(id: StepId)
    requires IsUnavailable(id)
    ensures !CanComplete(id)
  {
  }

  lemma {:induction false} CallsAreAvailable(b: Backend, st: St, steps: seq<Step>, profile: Profile, i: nat)
    requires Lives(b) && Free(b.initial) && b.start == |st.world.trace|
    requires b.start <= i < |TraceOf(b, st, steps, profile)|
    ensures var c := TraceOf(b, st, steps, profile)[i];
            !c.FailIrreversible? && (c.Apply? ==> !IsUnavailable(c.id))
  {
    hide Free, LiveAt, Run, Stale, CapturedBy, HeldSince, IsUnavailable, CanComplete;
    LivesLive(b);
    hide Lives;
    var t := TraceOf(b, st, steps, profile);
    if t[i].Apply? {
      MutationsAreFresh(b, st, steps, profile, i);
      if IsUnavailable(t[i].id) { UnavailableCannotComplete(t[i].id); }
    } else if t[i].FailIrreversible? {
      FailuresAreJust(b.oracle, st, steps, profile, i);
      DriversVerify(b, t[..i], t[i].irreversible.step);
      MutationsAreFresh(b, st, steps, profile, i - 1);
    }
  }

  /** No live run, on any machine and under any fault, applies or completes P1:16, P2:2, P3:1
      or P3:4, and none closes an audit as failed. */
  lemma UnavailableStepsNeverRun(b: Backend, st: St, steps: seq<Step>, profile: Profile)
    requires Lives(b) && Free(b.initial) && b.start == |st.world.trace|
    ensures var t := TraceOf(b, st, steps, profile);
            forall i | b.start <= i < |t| :: !t[i].FailIrreversible? && (t[i].Apply? ==> !IsUnavailable(t[i].id))
    ensures var q := Run(b.oracle, st, steps, profile).st.progress;
            forall id | IsUnavailable(id) :: q.IsCompleted(id) ==> st.progress.IsCompleted(id)
  {
    hide Lives, Free, Run, IsUnavailable, CanComplete;
    var t := TraceOf(b, st, steps, profile);
    forall i | b.start <= i < |t| ensures !t[i].FailIrreversible? && (t[i].Apply? ==> !IsUnavailable(t[i].id)) {
      CallsAreAvailable(b, st, steps, profile, i);
    }
    var q := Run(b.oracle, st, steps, profile).st.progress;
    forall id | IsUnavailable(id) ensures q.IsCompleted(id) ==> st.progress.IsCompleted(id) {
      UnavailableCannotComplete(id);
      RunMarks(b, st, steps, profile, id);
    }
  }

  /** The verification of a driver step never fails, so only its apply can. */
  lemma DriversVerify(b: Backend, t: seq<Call>, id: StepId)
    requires Lives(b) && IsIrreversible(b.oracle, id) && JustFailed(b.oracle, b.start, t, id)
    ensures IsDriver(id) && t[|t| - 1] == Apply(id)
  {
    LivesLive(b);
    hide Lives, Verifies;
    DriversAlwaysVerify(LiveAt(b, t[..|t| - 1]), id, b.machine(t));
    if t[|t| - 1] == Verify(id) { VerifyAnswered(b, t, id); }
  }

  lemma DriversAlwaysVerify(s: Live, id: StepId, m: Machine)
    ensures IsDriver(id) ==> Verifies(s, id, m)
  {
  }

  lemma VerifyAnswered(b: Backend, t: seq<Call>, id: StepId)
    requires Lives(b) && |t| > b.start && t[|t| - 1] == Verify(id)
    ensures b.oracle.ok(t) == Verifies(LiveAt(b, t[..|t| - 1]), id, b.machine(t))
  {
    hide Lives, Answers, Next, LiveAt, Verifies;
    Answered(b, t);
    AfterVerify(LiveAt(b, t[..|t| - 1]), id, b.machine(t), Requirement(b, t[|t| - 1]));
  }

  // Steps found satisfied

  /** The trace of a visit up to its inspection, if it gets that far. */
  ghost function InspectedTrace(o: Oracle, st: St, step: Step, profile: Profile): seq<Call> {
    Settle(o, st.Invoke(o, PollCancelled), step, profile).0.world.trace + [Inspect(step.id)]
  }

  ghost predicate FoundSatisfied(o: Oracle, st: St, step: Step, profile: Profile) {
    var u := InspectedTrace(o, st, step, profile);
    && !st.progress.Recorded(step.id)
    && !o.ok(st.world.trace + [PollCancelled])
    && !Settle(o, st.Invoke(o, PollCancelled), step, profile).1
    && o.ok(u) && o.inspection(u) == Satisfied && !o.durableEvidence(step.id)
  }

  lemma SatisfiedOutcome(o: Oracle, st: St, step: Step, profile: Profile)
    requires !o.dryRun && FoundSatisfied(o, st, step, profile)
    ensures var u := InspectedTrace(o, st, step, profile);
            RunStep(o, st, step, profile).error == Some(VerifyError(step.id)) <==> !o.ok(u + [Verify(step.id)])
  {
    hide RunLiveStep, Settle;
    var settled := Settle(o, st.Invoke(o, PollCancelled), step, profile);
    SatisfiedStep(o, settled.0.Note(InspectEvent(step.id)).Invoke(o, Inspect(step.id)), step);
  }

  lemma SatisfiedStep(o: Oracle, st: St, step: Step)
    requires !o.durableEvidence(step.id)
    ensures RunLiveStep(o, st, step, Satisfied).error == Some(VerifyError(step.id))
            <==> !o.ok(st.world.trace + [Verify(step.id)])
  {
    hide RunEvidence, RunRebuildable, RunIrreversible, RunLossless;
  }

  lemma SettleTrace(o: Oracle, st: St, step: Step, profile: Profile)
    ensures var t := st.world.trace + [PollCancelled];
            var u := Settle(o, st.Invoke(o, PollCancelled), step, profile).0.world.trace;
            u == t || u == t + [AskConsent(step.id)]
  {
  }

  lemma Appends(b: Backend, t: seq<Call>, c: Call)
    requires |t| >= b.start
    ensures LiveAt(b, t + [c]) == Next(LiveAt(b, t), c, b.machine(t + [c]), Requirement(b, c))
  {
    hide Next;
    assert (t + [c])[..|t|] == t;
  }

  /** A visit up to its inspection only adds the binding that this inspection makes. */
  lemma BoundAtInspection(b: Backend, st: St, step: Step, profile: Profile)
    requires Lives(b) && |st.world.trace| >= b.start
    requires b.oracle.ok(InspectedTrace(b.oracle, st, step, profile))
    ensures var u, before := InspectedTrace(b.oracle, st, step, profile), LiveAt(b, st.world.trace);
            && |u| > b.start && u[|u| - 1] == Inspect(step.id)
            && LiveAt(b, u).bound == if BindsAtInspection(step.id) then before.bound + {step.id} else before.bound
  {
    hide Lives, Next, Settle, LiveAt;
    SettleTrace(b.oracle, st, step, profile);
    var t := st.world.trace;
    var t1 := t + [PollCancelled];
    Appends(b, t, PollCancelled);
    PollsKeep(LiveAt(b, t), PollCancelled, b.machine(t1), Requirement(b, PollCancelled));
    var t2 := Settle(b.oracle, st.Invoke(b.oracle, PollCancelled), step, profile).0.world.trace;
    Appends(b, t1, AskConsent(step.id));
    PollsKeep(LiveAt(b, t1), AskConsent(step.id), b.machine(t1 + [AskConsent(step.id)]), Requirement(b, AskConsent(step.id)));
    Appends(b, t2, Inspect(step.id));
    var u := t2 + [Inspect(step.id)];
    Answered(b, u);
    assert u[..|u| - 1] == t2;
    InspectKeeps(LiveAt(b, t2), step.id, b.machine(u), Requirement(b, Inspect(step.id)));
  }

  /** A visit that finds its step satisfied fails to verify it exactly if the step wants a
      binding that only a capture makes and none stands (always so for P1:30 and P1:34, and
      for P1:8 unless this process has captured the page file), or if the verification
      looks at the machine and does not succeed. */
  lemma SatisfiedFailsIff(b: Backend, st: St, step: Step, profile: Profile)
    requires Lives(b) && Free(b.initial) && |st.world.trace| >= b.start
    requires AtVisitStart(b.oracle, b.start, st.world.trace)
    requires FoundSatisfied(b.oracle, st, step, profile)
    ensures var id := step.id;
            var m := b.machine(InspectedTrace(b.oracle, st, step, profile) + [Verify(id)]);
            RunStep(b.oracle, st, step, profile).error == Some(VerifyError(id)) <==>
              || id == StepId(One, 30) || id == StepId(One, 34)
              || (id == PAGEFILE && PAGEFILE !in LiveAt(b, st.world.trace).bound)
              || (!AlwaysVerifies(id) && !m.native)
  {
    hide LiveAt, RunStep, Settle, Finding;
    LivesLive(b);
    hide Lives;
    var id := step.id;
    VisitStartIsFree(b, st.world.trace);
    BoundAtInspection(b, st, step, profile);
    SatisfiedOutcome(b.oracle, st, step, profile);
    var u := InspectedTrace(b.oracle, st, step, profile);
    FoundCanComplete(b, u, id, Satisfied);
    var v := u + [Verify(id)];
    assert v[..|v| - 1] == u;
    Answered(b, v);
    SatisfiedVerifies(LiveAt(b, st.world.trace), LiveAt(b, u), id, b.machine(v), b.machine(u));
  }

  /** What a verification without a capture comes to. */
  lemma SatisfiedVerifies(before: Live, s: Live, id: StepId, m: Machine, seen: Machine)
    requires Free(before) && CanComplete(id)
    requires s.bound == if BindsAtInspection(id) then before.bound + {id} else before.bound
    ensures Verifies(s, id, m) <==>
              && id != StepId(One, 30) && id != StepId(One, 34)
              && !(id == PAGEFILE && PAGEFILE !in before.bound)
              && (AlwaysVerifies(id) || m.native)
  {
  }

  /** A machine where everything works, the user cancels nothing, and every inspection finds
      what is wanted without the configuration asking for a change. */
  function Working(o: Oracle): Backend {
    Backend(o, (t: seq<Call>) =>
      Machine(true, t == [] || !t[|t| - 1].PollCancelled?, true, true, true, View(true, true, true, true, false, "")),
      IDLE, 0)
  }

  /** Such visits exist for each of the three steps: there, a fresh process that finds the page
      file, the GPU preference or the CFG files as wanted ends with a verification error. */
  lemma SatisfiedVisitsFail(o: Oracle, st: St, id: StepId)
    requires id in {PAGEFILE, StepId(One, 30), StepId(One, 34)}
    requires st.world.trace == [] && !st.progress.Recorded(id)
    ensures var b := Answering(Working(o));
            Lives(b) && Free(b.initial)
            && RunStep(b.oracle, st, Step(id, 2, Moderate, false), Yolo).error == Some(VerifyError(id))
  {
    hide Lives, Answering, RunStep, FoundSatisfied, InspectedTrace, Finding, ActionOf;
    var b := Answering(Working(o));
    EveryMachineLives(Working(o));
    FindsSatisfied(o, st, Step(id, 2, Moderate, false));
    assert LiveAt(b, st.world.trace) == IDLE;
    SatisfiedFailsIff(b, st, Step(id, 2, Moderate, false), Yolo);
  }

  lemma FindsSatisfied(o: Oracle, st: St, step: Step)
    requires st.world.trace == [] && !st.progress.Recorded(step.id)
    requires step.id in {PAGEFILE, StepId(One, 30), StepId(One, 34)} && Decide(Yolo, step.tier, step.risk) == Auto
    ensures FoundSatisfied(Answering(Working(o)).oracle, st, step, Yolo)
  {
    hide Lives, LiveAt, Answering, AnswersAt, Answers, Finding, ActionOf, Decide;
    var b := Answering(Working(o));
    EveryMachineLives(Working(o));
    LivesLive(b);
    var t1 := st.world.trace + [PollCancelled];
    PollAnswered(b, st.world.trace);
    InspectAnswered(b, t1, step.id);
    SatisfiedSteps(step.id);
  }

  lemma SatisfiedSteps(id: StepId)
    requires id in {PAGEFILE, StepId(One, 30), StepId(One, 34)}
    ensures Finding(id, View(true, true, true, true, false, "")) == Some(Satisfied) && !StoresReceipt(id)
  {
  }

  lemma PollAnswered(b: Backend, t: seq<Call>)
    requires Lives(b) && |t| >= b.start
    ensures b.oracle.ok(t + [PollCancelled]) == b.machine(t + [PollCancelled]).native
  {
    hide Lives;
    Answered(b, t + [PollCancelled]);
  }

  lemma InspectAnswered(b: Backend, t: seq<Call>, id: StepId)
    requires Lives(b) && |t| >= b.start
    ensures var u := t + [Inspect(id)];
            (if b.oracle.ok(u) then Some(b.oracle.inspection(u)) else None) == Finding(id, b.machine(u).view)
  {
    hide Lives;
    Answered(b, t + [Inspect(id)]);
  }

  // What runs can record

  /** The policy, a refused consent or the inspection can pass the step over. */
  predicate CanSkip(step: Step, profile: Profile) {
    Decide(profile, step.tier, step.risk) != Auto || CanPass(step.id)
  }

  /** One visit leaves the progress as it was, or records its step as its inspection allows. */
  ghost predicate LiveMark(p: Progress, q: Progress, step: Step, profile: Profile) {
    || q == p
    || (CanComplete(step.id) && exists at :: q == p.Complete(step.id, at))
    || (CanSkip(step, profile) && q == p.Skip(step.id))
    || (CanAdvise(step.id) && exists reason :: q == p.AcknowledgeAdvisory(step.id, reason))
  }

  lemma InspectedMarks(b: Backend, st: St, step: Step, profile: Profile)
    requires Lives(b) && |st.world.trace| >= b.start
    ensures LiveMark(st.progress, RunInspected(b.oracle, st, step).st.progress, step, profile)
  {
    LivesLive(b);
    hide Lives, LiveAt, RunOperation, CanComplete, CanAdvise, CanPass, Finding;
    var u := st.world.trace + [Inspect(step.id)];
    Answered(b, u);
    FindingsAre(step.id);
    var asked := st.Note(InspectEvent(step.id)).Invoke(b.oracle, Inspect(step.id));
    if asked.Answer(b.oracle) {
      FoundMarks(b.oracle, asked, step, b.oracle.inspection(u), profile, b.machine(u).view);
    }
  }

  lemma FoundMarks(o: Oracle, st: St, step: Step, found: Inspection, profile: Profile, v: View)
    requires Finding(step.id, v) == Some(found)
    ensures LiveMark(st.progress, RunLiveStep(o, st, step, found).st.progress, step, profile)
  {
    hide RunOperation, CanComplete, CanAdvise, CanPass, Finding, Finish;
    FindingsAre(step.id);
    match found
    case Unsupported =>
    case Inapplicable =>
    case Advisory(_) =>
    case Satisfied => FinishMarks(o, st, RunOperation(o, st, step, Satisfied), step.id);
    case NeedsApply => FinishMarks(o, st, RunOperation(o, st, step, NeedsApply), step.id);
  }

  lemma FinishMarks(o: Oracle, st: St, done: Outcome, id: StepId)
    requires Holds(st, done.st)
    ensures var q := Finish(o, done, id).st.progress;
            q == st.progress || exists at :: q == st.progress.Complete(id, at)
  {
    if done.error.None? {
      var at := o.clock(done.st.world.trace);
      assert CompleteLiveStep(o, done.st, id).st.progress in {st.progress, st.progress.Complete(id, at)};
    }
  }

  lemma VisitMarks(b: Backend, st: St, step: Step, profile: Profile)
    requires Lives(b) && |st.world.trace| >= b.start
    ensures LiveMark(st.progress, RunStep(b.oracle, st, step, profile).st.progress, step, profile)
  {
    LivesLive(b);
    hide Lives, LiveMark, RunInspected, RecordSkip, Settle, Do, Decide;
    PollGrows(b.oracle, st);
    StillMarks(st.progress, step, profile);
    SettleKeeps(b.oracle, st.Invoke(b.oracle, PollCancelled), step, profile);
    var settled := Settle(b.oracle, st.Invoke(b.oracle, PollCancelled), step, profile);
    if settled.1 {
      SkipMarks(b.oracle, settled.0, step, profile);
    } else {
      InspectedMarks(b, settled.0, step, profile);
    }
  }

  lemma PollGrows(o: Oracle, st: St)
    ensures |st.Invoke(o, PollCancelled).world.trace| >= |st.world.trace|
  {
  }

  lemma SettleKeeps(o: Oracle, st: St, step: Step, profile: Profile)
    ensures var settled := Settle(o, st, step, profile);
            && settled.0.progress == st.progress
            && |settled.0.world.trace| >= |st.world.trace|
            && (settled.1 ==> Decide(profile, step.tier, step.risk) != Auto)
  {
  }

  lemma StillMarks(p: Progress, step: Step, profile: Profile)
    ensures LiveMark(p, p, step, profile)
  {
  }

  lemma SkipMarks(o: Oracle, st: St, step: Step, profile: Profile)
    requires Decide(profile, step.tier, step.risk) != Auto
    ensures LiveMark(st.progress, RecordSkip(o, st, step.id, true).st.progress, step, profile)
  {
  }

  /** Whatever happens in a live run, a step is newly completed, advised or skipped only as its
      live inspection, the policy and the consent allow. */
  lemma {:induction false} RunMarks(b: Backend, st: St, steps: seq<Step>, profile: Profile, id: StepId)
    requires Lives(b) && |st.world.trace| >= b.start
    ensures var p, q := st.progress, Run(b.oracle, st, steps, profile).st.progress;
            && (q.IsCompleted(id) ==> p.IsCompleted(id) || CanComplete(id))
            && (q.HasAdvisory(id) ==> p.HasAdvisory(id) || CanAdvise(id))
            && (q.IsSkipped(id) ==> p.IsSkipped(id) || exists s :: s in steps && s.id == id && CanSkip(s, profile))
    decreases |steps|
  {
    hide Lives, RunStep, CanComplete, CanAdvise, CanSkip;
    if steps != [] {
      VisitMarks(b, st, steps[0], profile);
      StepGrows(b.oracle, st, steps[0], profile);
      var head := RunStep(b.oracle, st, steps[0], profile);
      if head.error.None? {
        RunMarks(b, head.st, steps[1..], profile, id);
      }
    }
  }

  /** Phase 1 steps that every profile but the custom one runs, that never complete, and whose
      advice, if any, the Safe Mode guard does not accept. */
  predicate BlocksPhaseOne(id: StepId) { id in {StepId(One, 3), StepId(One, 4), StepId(One, 6), StepId(One, 16)} }

  lemma BlockersStay(s: Step, profile: Profile)
    requires BlocksPhaseOne(s.id)
    ensures !CanComplete(s.id) && IsTierOne(s.id)
    ensures s.tier == 1 && profile != Custom ==> !CanSkip(s, profile)
  {
  }

  lemma BlockerRefuses(p: Progress, id: StepId)
    requires BlocksPhaseOne(id) && !p.Resolved(id)
    ensures RequireResolvedPhaseOne(p).Some?
  {
    hide RequireResolvedPhaseOne;
    var n := id.number;
    assert Role(StepId(One, n)).Engine? && !PhaseOneStepResolved(p, StepId(One, n));
  }

  /** Under any profile but the custom one, no live run resolves Phase 1, on any machine: the Safe
      Mode guard keeps refusing, because P1:3, P1:4 and P1:6 end as advice and P1:16 fails. */
  lemma PhaseOneNeedsCustom(b: Backend, st: St, steps: seq<Step>, profile: Profile, id: StepId)
    requires Lives(b) && |st.world.trace| >= b.start && profile != Custom
    requires forall s | s in steps && IsTierOne(s.id) :: s.tier == 1
    requires BlocksPhaseOne(id) && !st.progress.Resolved(id)
    ensures var q := Run(b.oracle, st, steps, profile).st.progress;
            !q.Resolved(id) && RequireResolvedPhaseOne(q).Some?
  {
    hide Lives, Run, BlocksPhaseOne, CanComplete, CanSkip, IsTierOne, RequireResolvedPhaseOne;
    var q := Run(b.oracle, st, steps, profile).st.progress;
    RunMarks(b, st, steps, profile, id);
    BlockersStay(Step(id, 1, Safe, false), profile);
    forall s | s in steps && s.id == id ensures !CanSkip(s, profile) {
      BlockersStay(s, profile);
    }
    BlockerRefuses(q, id);
  }

  // The backup file

  lemma NextStores(s: Live, c: Call, m: Machine, r: RecoveryRequirement)
    ensures Next(s, c, m, r).stored ==
            if c.PersistBackups? && Answers(s, c, m, r) then PushedAll(s.stored, c.entries) else s.stored
  {
  }

  lemma DoStores(o: Oracle, w: World, c: Call)
    ensures Do(o, w, c).backups ==
            if c.PersistBackups? && o.ok(w.trace + [c]) then PushedAll(w.backups, c.entries) else w.backups
  {
  }

  /** The live backend's backup file is the durable backups of the model, after any calls. */
  lemma {:induction false} StoredIsBackups(b: Backend, w: World, calls: seq<Call>)
    requires Lives(b) && b.start == |w.trace| && b.initial.stored == w.backups
    ensures LiveAt(b, w.trace + calls).stored == Replay(b.oracle, w, calls).backups
  {
    hide Lives, Next, Answers, Do, PushedAll;
    if calls == [] {
      assert w.trace + calls == w.trace;
    } else {
      var n := |calls| - 1;
      StoredIsBackups(b, w, calls[..n]);
      var t := w.trace + calls;
      assert t[..|t| - 1] == w.trace + calls[..n];
      ReplayTrace(b.oracle, w, calls[..n]);
      assert w.trace + calls[..n] + [calls[n]] == t;
      Answered(b, t);
      NextStores(LiveAt(b, t[..|t| - 1]), calls[n], b.machine(t), Requirement(b, calls[n]));
      DoStores(b.oracle, Replay(b.oracle, w, calls[..n]), calls[n]);
    }
  }
}
