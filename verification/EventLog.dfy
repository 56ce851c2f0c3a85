/** The event log of a run: which events the calls of a visit and their answers tell. */
module EventLog {
  import opened Wrappers
  import opened Catalog
  import opened ProgressRecord
  import opened Audit
  import opened Backup
  import opened EngineModel

  /** The events that the last call of the trace adds for step `id`: captures are announced, everything
      else is reported once it succeeded, and a skip even if it could not be stored. */
  function ToldBy(o: Oracle, id: StepId, t: seq<Call>): seq<Event>
    requires t != []
  {
    var ok := o.ok(t);
    match t[|t| - 1]
    case PollCancelled => []
    case AskConsent(_) => []
    case Inspect(_) => [InspectEvent(id)]
    case Plan(_) => if ok then Planned(o, id, t) else []
    case CaptureBackups(_) => [CaptureBackupEvent(id)]
    case PersistBackups(_) => if ok then [PersistBackupEvent(id)] else []
    case CaptureAudit(_) => [CaptureAuditEvent(id)]
    case CaptureIrreversible(_) => [CaptureAuditEvent(id)]
    case PersistAudit(_) => if ok then [PersistAuditEvent(id)] else []
    case PersistIrreversible(_) => if ok then [PersistAuditEvent(id)] else []
    case CaptureEvidence(_) => [CaptureEvidenceEvent(id)]
    case PersistEvidence(_) => if ok then [PersistEvidenceEvent(id)] else []
    case VerifyEvidence(_, _) => if ok then [VerifyEvidenceEvent(id)] else []
    case Apply(_) => if ok then [ApplyEvent(id)] else []
    case Verify(_) => if ok then [VerifyEvent(id)] else []
    case FinalizeAudit(_) => if ok then [FinalizeAuditEvent(id)] else []
    case FinalizeIrreversible(_) => if ok then [FinalizeAuditEvent(id)] else []
    case FailIrreversible(_) => if ok then [FailAuditEvent(id)] else []
    case PersistProgress(p) =>
      if id in p.completed then if ok then [CompleteEvent(id)] else []
      else if id in p.advisories then if ok then [AdvisoryEvent(id, p.advisories[id])] else []
      else [SkipEvent(id)]
  }

  /** The plan line by line, and what the inspection before it leaves to be said. */
  function Planned(o: Oracle, id: StepId, t: seq<Call>): seq<Event>
    requires t != []
  {
    var lines := o.plan(t);
    seq(|lines|, i requires 0 <= i < |lines| => PlanEvent(lines[i]))
    + match o.inspection(t[..|t| - 1])
      case Inapplicable => [SkipEvent(id)]
      case Advisory(reason) => [AdvisoryEvent(id, reason)]
      case _ => []
  }

  /** The events told by the calls from position `n` on. */
  function Told(o: Oracle, id: StepId, n: nat, t: seq<Call>): seq<Event>
    decreases |t|
  {
    if |t| <= n then [] else Told(o, id, n, t[..|t| - 1]) + ToldBy(o, id, t)
  }

  ghost predicate Tells(o: Oracle, id: StepId, a: St, b: St) {
    && a.world.trace <= b.world.trace
    && b.report.events == a.report.events + Told(o, id, |a.world.trace|, b.world.trace)
  }

  lemma {:induction false} ToldSplits(o: Oracle, id: StepId, n: nat, m: nat, t: seq<Call>)
    requires n <= m <= |t|
    ensures Told(o, id, n, t) == Told(o, id, n, t[..m]) + Told(o, id, m, t)
    decreases |t|
  {
    hide ToldBy;
    if |t| == m {
      assert t[..m] == t;
    } else {
      var u := t[..|t| - 1];
      assert u[..m] == t[..m];
      ToldSplits(o, id, n, m, u);
      if |t| > n {
        assert Told(o, id, n, u) + ToldBy(o, id, t) == Told(o, id, n, t[..m]) + (Told(o, id, m, u) + ToldBy(o, id, t));
      }
    }
  }

  lemma TellsMore(o: Oracle, id: StepId, a: St, b: St, c: St)
    requires Tells(o, id, a, b) && Tells(o, id, b, c)
    ensures Tells(o, id, a, c)
  {
    hide ToldBy, Told;
    ToldSplits(o, id, |a.world.trace|, |b.world.trace|, c.world.trace);
    assert c.world.trace[..|b.world.trace|] == b.world.trace;
  }

  lemma TellsOne(o: Oracle, id: StepId, a: St, c: Call, b: St)
    requires b.world == Do(o, a.world, c)
    requires b.report.events == a.report.events + ToldBy(o, id, a.world.trace + [c])
    ensures Tells(o, id, a, b)
  {
    hide ToldBy;
    var t := a.world.trace + [c];
    assert b.world.trace == t && t[..|t| - 1] == a.world.trace;
    assert Told(o, id, |a.world.trace|, a.world.trace) == [];
    assert Told(o, id, |a.world.trace|, t) == [] + ToldBy(o, id, t);
  }

  lemma TellsNothing(o: Oracle, id: StepId, a: St)
    ensures Tells(o, id, a, a)
  {
  }

  /** A call whose event is noted before it, or after it if it succeeds. */
  function Called(o: Oracle, st: St, c: Call, id: StepId): St {
    var asked := st.Invoke(o, c);
    asked.(report := asked.report.(events := asked.report.events + ToldBy(o, id, asked.world.trace)))
  }

  lemma TellsCalled(o: Oracle, st: St, c: Call, id: StepId)
    ensures Tells(o, id, st, Called(o, st, c, id))
  {
    hide ToldBy;
    TellsOne(o, id, st, c, Called(o, st, c, id));
  }

  lemma CaptureTells(o: Oracle, st: St, id: StepId)
    ensures Tells(o, id, st, CaptureLossless(o, st, id).st)
  {
    hide Tells, Told, Snapshot, PushedAll;
    var asked := Called(o, st, CaptureBackups(id), id);
    TellsCalled(o, st, CaptureBackups(id), id);
    var entries := Snapshot(o.captured(asked.world.trace), asked.world.resources);
    TellsCalled(o, asked, PersistBackups(entries), id);
    TellsMore(o, id, st, asked, Called(o, asked, PersistBackups(entries), id));
    CaptureIsCalled(o, st, id);
  }

  lemma NothingMore(st: St)
    ensures st.(report := st.report.(events := st.report.events + [])) == st
  {
    assert st.report.events + [] == st.report.events;
  }

  lemma CaptureIsCalled(o: Oracle, st: St, id: StepId)
    ensures var asked := Called(o, st, CaptureBackups(id), id);
            var entries := Snapshot(o.captured(asked.world.trace), asked.world.resources);
            CaptureLossless(o, st, id).st ==
            if !o.ok(asked.world.trace) || entries == [] then asked else Called(o, asked, PersistBackups(entries), id)
  {
    hide Snapshot, PushedAll;
    var asked := Called(o, st, CaptureBackups(id), id);
    NothingMore(asked.Invoke(o, PersistBackups(Snapshot(o.captured(asked.world.trace), asked.world.resources))));
  }

  lemma ApplyTells(o: Oracle, st: St, id: StepId)
    ensures Tells(o, id, st, ApplyAndVerify(o, st, id).st)
  {
    hide Tells, Told;
    var applied := Called(o, st, Apply(id), id);
    TellsCalled(o, st, Apply(id), id);
    TellsCalled(o, applied, Verify(id), id);
    TellsMore(o, id, st, applied, Called(o, applied, Verify(id), id));
    ApplyIsCalled(o, st, id);
  }

  lemma ApplyIsCalled(o: Oracle, st: St, id: StepId)
    ensures var applied := Called(o, st, Apply(id), id);
            ApplyAndVerify(o, st, id).st == if !o.ok(applied.world.trace) then applied else Called(o, applied, Verify(id), id)
  {
    NothingMore(st.Invoke(o, Apply(id)));
    NothingMore(Called(o, st, Apply(id), id).Invoke(o, Verify(id)));
  }

  lemma LosslessTells(o: Oracle, st: St, id: StepId)
    ensures Tells(o, id, st, RunLossless(o, st, id).st)
  {
    hide Tells, CaptureLossless, ApplyAndVerify;
    CaptureTells(o, st, id);
    var kept := CaptureLossless(o, st, id);
    ApplyTells(o, kept.st, id);
    if kept.error.None? { TellsMore(o, id, st, kept.st, ApplyAndVerify(o, kept.st, id).st); }
  }

  lemma CallIsTold(o: Oracle, st: St, c: Call, id: StepId)
    requires c.CaptureEvidence? || c.PersistEvidence? || c.VerifyEvidence? || c.Verify? || c.CaptureAudit? || c.PersistAudit?
             || c.CaptureIrreversible? || c.PersistIrreversible?
    ensures var e := match c
              case CaptureEvidence(_) => CaptureEvidenceEvent(id)
              case PersistEvidence(_) => PersistEvidenceEvent(id)
              case VerifyEvidence(_, _) => VerifyEvidenceEvent(id)
              case CaptureAudit(_) => CaptureAuditEvent(id)
              case CaptureIrreversible(_) => CaptureAuditEvent(id)
              case PersistAudit(_) => PersistAuditEvent(id)
              case PersistIrreversible(_) => PersistAuditEvent(id)
              case _ => VerifyEvent(id);
            var early := c.CaptureEvidence? || c.CaptureAudit? || c.CaptureIrreversible?;
            && (early ==> Called(o, st, c, id) == st.Note(e).Invoke(o, c))
            && (!early ==> Called(o, st, c, id) == (if o.ok(st.world.trace + [c]) then st.Invoke(o, c).Note(e) else st.Invoke(o, c)))
  {
    NothingMore(st.Invoke(o, c));
  }

  lemma EvidenceTells(o: Oracle, st: St, id: StepId)
    ensures Tells(o, id, st, RunEvidence(o, st, id).st)
  {
    hide Tells, Told, ToldBy, Do, Called, Receipt.IsValidFor;
    var a := Called(o, st, CaptureEvidence(id), id);
    var receipt := o.receipt(a.world.trace);
    var b := Called(o, a, PersistEvidence(receipt), id);
    var c := Called(o, b, VerifyEvidence(id, receipt), id);
    var d := Called(o, c, Verify(id), id);
    CallIsTold(o, st, CaptureEvidence(id), id);
    CallIsTold(o, a, PersistEvidence(receipt), id);
    CallIsTold(o, b, VerifyEvidence(id, receipt), id);
    CallIsTold(o, c, Verify(id), id);
    TellsFour(o, id, st, CaptureEvidence(id), PersistEvidence(receipt), VerifyEvidence(id, receipt), Verify(id));
    TraceGrows(o, st, CaptureEvidence(id), id);
    TraceGrows(o, a, PersistEvidence(receipt), id);
    TraceGrows(o, b, VerifyEvidence(id, receipt), id);
    TraceGrows(o, c, Verify(id), id);
  }

  lemma TraceGrows(o: Oracle, st: St, c: Call, id: StepId)
    ensures Called(o, st, c, id).world.trace == st.world.trace + [c]
    ensures st.Invoke(o, c).world.trace == st.world.trace + [c]
    ensures forall e :: st.Note(e).Invoke(o, c).world.trace == st.world.trace + [c]
  {
  }

  lemma TellsFour(o: Oracle, id: StepId, st: St, c0: Call, c1: Call, c2: Call, c3: Call)
    ensures var a := Called(o, st, c0, id);
            var b := Called(o, a, c1, id);
            var c := Called(o, b, c2, id);
            && Tells(o, id, st, a) && Tells(o, id, st, b) && Tells(o, id, st, c) && Tells(o, id, st, Called(o, c, c3, id))
  {
    hide Tells, Told, ToldBy, Do, Called;
    var a := Called(o, st, c0, id);
    var b := Called(o, a, c1, id);
    var c := Called(o, b, c2, id);
    TellsCalled(o, st, c0, id);
    TellsCalled(o, a, c1, id);
    TellsMore(o, id, st, a, b);
    TellsCalled(o, b, c2, id);
    TellsMore(o, id, st, b, c);
    TellsCalled(o, c, c3, id);
    TellsMore(o, id, st, c, Called(o, c, c3, id));
  }

  lemma ClosingTells(o: Oracle, st: St, id: StepId, c: Call, r: St)
    requires c.FinalizeAudit? || c.FinalizeIrreversible? || c.FailIrreversible?
    requires r == if o.ok(st.world.trace + [c]) then
                    st.Invoke(o, c).Note(if c.FailIrreversible? then FailAuditEvent(id) else FinalizeAuditEvent(id))
                  else st.Invoke(o, c)
    ensures Tells(o, id, st, r)
  {
    hide Told;
    TellsOne(o, id, st, c, r);
  }

  lemma RebuildableTells(o: Oracle, st: St, id: StepId)
    ensures Tells(o, id, st, RunRebuildable(o, st, id).st)
  {
    hide Tells, Told, ToldBy, Do, Called, ApplyAndVerify, Rebuildable.IsValidPendingFor;
    var a := Called(o, st, CaptureAudit(id), id);
    var audit := o.audit(a.world.trace);
    var b := Called(o, a, PersistAudit(audit), id);
    CallIsTold(o, st, CaptureAudit(id), id);
    CallIsTold(o, a, PersistAudit(audit), id);
    TraceGrows(o, st, CaptureAudit(id), id);
    TraceGrows(o, a, PersistAudit(audit), id);
    TellsCalled(o, st, CaptureAudit(id), id);
    TellsCalled(o, a, PersistAudit(audit), id);
    TellsMore(o, id, st, a, b);
    var applied := ApplyAndVerify(o, b, id);
    ApplyTells(o, b, id);
    TellsMore(o, id, st, b, applied.st);
    CloseRebuildableTells(o, applied, audit, id);
    TellsMore(o, id, st, applied.st, CloseRebuildable(o, applied, audit, id).st);
  }

  lemma CloseRebuildableTells(o: Oracle, applied: Outcome, audit: Rebuildable, id: StepId)
    ensures Tells(o, id, applied.st, CloseRebuildable(o, applied, audit, id).st)
  {
    hide Tells, Told;
    TellsNothing(o, id, applied.st);
    if applied.error.None? {
      ClosingTells(o, applied.st, id, FinalizeAudit(audit.Finalized(o.clock(applied.st.world.trace))),
                   CloseRebuildable(o, applied, audit, id).st);
    }
  }

  lemma PendingTells(o: Oracle, st: St, id: StepId, requirement: RecoveryRequirement)
    ensures Tells(o, id, st, RunPendingIrreversible(o, st, id, requirement).st)
  {
    hide Tells, Told, ToldBy, Do, Called, ApplyAndVerify, Irreversible.IsValidPendingFor;
    var a := Called(o, st, CaptureIrreversible(id), id);
    var audit := o.irreversible(a.world.trace);
    var b := Called(o, a, PersistIrreversible(audit), id);
    CallIsTold(o, st, CaptureIrreversible(id), id);
    CallIsTold(o, a, PersistIrreversible(audit), id);
    TraceGrows(o, st, CaptureIrreversible(id), id);
    TraceGrows(o, a, PersistIrreversible(audit), id);
    TellsCalled(o, st, CaptureIrreversible(id), id);
    TellsCalled(o, a, PersistIrreversible(audit), id);
    TellsMore(o, id, st, a, b);
    var applied := ApplyAndVerify(o, b, id);
    ApplyTells(o, b, id);
    TellsMore(o, id, st, b, applied.st);
    CloseIrreversibleTells(o, applied, audit, id);
    TellsMore(o, id, st, applied.st, CloseIrreversible(o, applied, audit, id).st);
  }

  lemma CloseIrreversibleTells(o: Oracle, applied: Outcome, audit: Irreversible, id: StepId)
    ensures Tells(o, id, applied.st, CloseIrreversible(o, applied, audit, id).st)
  {
    hide Tells, Told;
    var now := o.clock(applied.st.world.trace);
    ClosingTells(o, applied.st, id,
                 if applied.error.Some? then FailIrreversible(audit.Fail(now)) else FinalizeIrreversible(audit.Finalize(now)),
                 CloseIrreversible(o, applied, audit, id).st);
  }

  lemma OperationTells(o: Oracle, st: St, step: Step, found: Inspection)
    ensures Tells(o, step.id, st, RunOperation(o, st, step, found).st)
  {
    hide Tells, Told, ToldBy, Do, Called, RunEvidence, RunRebuildable, RunPendingIrreversible, CaptureLossless, ApplyAndVerify;
    var id := step.id;
    EvidenceTells(o, st, id);
    CallIsTold(o, st, Verify(id), id);
    TellsCalled(o, st, Verify(id), id);
    TraceGrows(o, st, Verify(id), id);
    RebuildableTells(o, st, id);
    LosslessTells(o, st, id);
    IrreversibleTells(o, st, id);
  }

  lemma IrreversibleTells(o: Oracle, st: St, id: StepId)
    ensures Tells(o, id, st, RunIrreversible(o, st, id).st)
  {
    hide Tells, RunPendingIrreversible, CaptureLossless;
    CaptureTells(o, st, id);
    TellsNothing(o, id, st);
    var requirement := o.recovery(id);
    var kept := if requirement == Mixed then CaptureLossless(o, st, id) else Outcome(st, None);
    PendingTells(o, kept.st, id, requirement);
    TellsMore(o, id, st, kept.st, RunPendingIrreversible(o, kept.st, id, requirement).st);
  }

  // Records

  lemma CompletionTells(o: Oracle, st: St, id: StepId)
    ensures Tells(o, id, st, CompleteLiveStep(o, st, id).st)
  {
    hide Told;
    var p := st.progress.Complete(id, o.clock(st.world.trace));
    NothingMore(st.Invoke(o, PersistProgress(p)));
    TellsOne(o, id, st, PersistProgress(p), CompleteLiveStep(o, st, id).st);
  }

  lemma SkipTells(o: Oracle, st: St, id: StepId)
    ensures Tells(o, id, st, RecordSkip(o, st, id, true).st)
  {
    hide Told;
    TellsOne(o, id, st, PersistProgress(st.progress.Skip(id)), RecordSkip(o, st, id, true).st);
  }

  lemma AdvisoryTells(o: Oracle, st: St, id: StepId, reason: string)
    ensures Tells(o, id, st, RecordAdvisory(o, st, id, reason).st)
  {
    hide Told;
    var p := st.progress.AcknowledgeAdvisory(id, reason);
    NothingMore(st.Invoke(o, PersistProgress(p)));
    TellsOne(o, id, st, PersistProgress(p), RecordAdvisory(o, st, id, reason).st);
  }

  lemma FinishTells(o: Oracle, st: St, done: Outcome, id: StepId)
    requires Tells(o, id, st, done.st)
    ensures Tells(o, id, st, Finish(o, done, id).st)
  {
    hide Tells, CompleteLiveStep;
    CompletionTells(o, done.st, id);
    TellsMore(o, id, st, done.st, CompleteLiveStep(o, done.st, id).st);
  }

  lemma LiveTells(o: Oracle, st: St, step: Step, found: Inspection)
    ensures Tells(o, step.id, st, RunLiveStep(o, st, step, found).st)
  {
    hide Tells, Finish, RunOperation, RecordSkip, RecordAdvisory;
    match found
    case Unsupported => TellsNothing(o, step.id, st);
    case Inapplicable => SkipTells(o, st, step.id);
    case Advisory(reason) => AdvisoryTells(o, st, step.id, reason);
    case _ =>
      OperationTells(o, st, step, found);
      FinishTells(o, st, RunOperation(o, st, step, found), step.id);
  }

  lemma PlanTells(o: Oracle, st: St, id: StepId)
    requires st.world.trace != []
    ensures Tells(o, id, st, ReportDryRun(o, st, id, o.inspection(st.world.trace)).st)
  {
    hide Told;
    var r := ReportDryRun(o, st, id, o.inspection(st.world.trace)).st;
    var t := st.world.trace + [Plan(id)];
    assert t[..|t| - 1] == st.world.trace;
    assert PlanEvents(o.plan(t)) == seq(|o.plan(t)|, i requires 0 <= i < |o.plan(t)| => PlanEvent(o.plan(t)[i]));
    NothingMore(st.Invoke(o, Plan(id)));
    assert r.report.events == st.report.events + ToldBy(o, id, t);
    TellsOne(o, id, st, Plan(id), r);
  }

  lemma InspectedTells(o: Oracle, st: St, step: Step)
    ensures Tells(o, step.id, st, RunInspected(o, st, step).st)
  {
    hide Tells, Told, RunLiveStep, ReportDryRun;
    var id := step.id;
    var asked := st.Note(InspectEvent(id)).Invoke(o, Inspect(id));
    TellsOne(o, id, st, Inspect(id), asked);
    if asked.Answer(o) {
      if o.dryRun {
        PlanTells(o, asked, id);
      } else {
        LiveTells(o, asked, step, o.inspection(asked.world.trace));
      }
      TellsMore(o, id, st, asked, RunInspected(o, st, step).st);
    }
  }

  lemma SettleTells(o: Oracle, st: St, step: Step, profile: Profile)
    ensures Tells(o, step.id, st, Settle(o, st, step, profile).0)
  {
    hide Told, Decide;
    TellsNothing(o, step.id, st);
    NothingMore(st.Invoke(o, AskConsent(step.id)));
    TellsOne(o, step.id, st, AskConsent(step.id), st.Invoke(o, AskConsent(step.id)));
  }

  /** A dry run reports a step that the profile never runs as skipped, without any call. */
  ghost predicate DrySkips(o: Oracle, st: St, step: Step, profile: Profile) {
    && o.dryRun && step.id !in st.progress.completed && step.id !in st.progress.skipped && step.id !in st.progress.advisories
    && !RunsUnasked(profile, step.tier, step.risk) && !RunsIfAgreed(profile, step.tier, step.risk)
  }

  lemma SettledTells(o: Oracle, settled: (St, bool), step: Step)
    requires settled.1 ==> !o.dryRun
    ensures Tells(o, step.id, settled.0, RunSettled(o, settled, step).st)
  {
    hide Tells, RecordSkip, RunInspected;
    if settled.1 { SkipTells(o, settled.0, step.id); } else { InspectedTells(o, settled.0, step); }
  }

  /** A visit adds to the log exactly what its calls tell, one after the other, or the skip that a dry
      run decides without a call. */
  lemma VisitTells(o: Oracle, st: St, step: Step, profile: Profile)
    ensures var r := RunStep(o, st, step, profile).st;
            if DrySkips(o, st, step, profile) then
              r.world == st.world && r.report.events == st.report.events + [SkipEvent(step.id)]
            else Tells(o, step.id, st, r)
  {
    hide Tells, Told, Settle, RunSettled, Decide, RunsUnasked, RunsIfAgreed;
    DecideIff(profile, step.tier, step.risk);
    TellsNothing(o, step.id, st);
    if !st.progress.Recorded(step.id) {
      if o.dryRun {
        DrySettled(o, st, step, profile);
        if Decide(profile, step.tier, step.risk) != Skip { SettledTells(o, (st, false), step); }
      } else {
        var polled := st.Invoke(o, PollCancelled);
        NothingMore(polled);
        TellsOne(o, step.id, st, PollCancelled, polled);
        SettleTells(o, polled, step, profile);
        var settled := Settle(o, polled, step, profile);
        TellsMore(o, step.id, st, polled, settled.0);
        SettledTells(o, settled, step);
        TellsMore(o, step.id, st, settled.0, RunSettled(o, settled, step).st);
      }
    }
  }

  lemma DrySettled(o: Oracle, st: St, step: Step, profile: Profile)
    requires o.dryRun
    ensures var skips := Decide(profile, step.tier, step.risk) == Skip;
            && Settle(o, st, step, profile) == (st, skips)
            && (skips ==> RunSettled(o, (st, true), step).st.world == st.world
                          && RunSettled(o, (st, true), step).st.report.events == st.report.events + [SkipEvent(step.id)])
  {
    hide RunInspected;
  }

  /** A dry visit inspects and plans its step, unless the profile never runs it, and counts it by what
      the inspection found. */
  lemma DryVisitCounts(o: Oracle, st: St, step: Step, profile: Profile)
    requires o.dryRun && !st.progress.Recorded(step.id) && RunStep(o, st, step, profile).error.None?
    ensures var r, id := RunStep(o, st, step, profile).st, step.id;
            var before, after := st.report, r.report;
            if !RunsUnasked(profile, step.tier, step.risk) && !RunsIfAgreed(profile, step.tier, step.risk) then
              r.world == st.world && after == Report(after.events, before.completed, before.skipped + 1, before.advisories, before.failed)
            else
              var t := st.world.trace + [Inspect(id)];
              && r.world.trace == t + [Plan(id)] && o.ok(t) && o.ok(t + [Plan(id)])
              && after == match o.inspection(t)
                          case Satisfied => Report(after.events, before.completed + 1, before.skipped, before.advisories, before.failed)
                          case NeedsApply => Report(after.events, before.completed + 1, before.skipped, before.advisories, before.failed)
                          case Inapplicable => Report(after.events, before.completed, before.skipped + 1, before.advisories, before.failed)
                          case Advisory(_) => Report(after.events, before.completed, before.skipped, before.advisories + 1, before.failed)
                          case Unsupported => Report(after.events, before.completed, before.skipped, before.advisories, before.failed + 1)
  {
    hide Decide, RunsUnasked, RunsIfAgreed, RunLiveStep;
    DecideIff(profile, step.tier, step.risk);
  }
}
