/** The write-ahead discipline: every mutation is preceded, in the same step
    visit, by durable recovery evidence, and irreversible audits are closed. */
module WriteAhead {
  import opened Wrappers
  import opened Catalog
  import opened ProgressRecord
  import opened Audit
  import opened Backup
  import opened EngineModel

  /** The last call of a live run, made since position `start`, inspected this step and found this. */
  ghost predicate JustFound(o: Oracle, start: nat, t: seq<Call>, id: StepId, found: Inspection) {
    !o.dryRun && |t| > start && t[|t| - 1] == Inspect(id) && o.ok(t) && o.inspection(t) == found
  }

  /** The inspection that precedes a mutation found that the step needs it. */
  ghost predicate JustInspected(o: Oracle, start: nat, t: seq<Call>, id: StepId) {
    JustFound(o, start, t, id, NeedsApply)
  }

  /** The last two calls, right after the inspection of this step, captured and
      durably persisted a nonempty batch of it. */
  ghost predicate JustBackedUp(o: Oracle, start: nat, t: seq<Call>, id: StepId) {
    var n := |t|;
    && n >= 2
    && JustInspected(o, start, t[..n - 2], id)
    && t[n - 2] == CaptureBackups(id) && o.ok(t[..n - 1])
    && t[n - 1].PersistBackups? && t[n - 1].entries != [] && o.ok(t)
  }

  /** The last two calls captured and durably persisted a valid pending audit bound to this step. */
  ghost predicate JustAudited(o: Oracle, t: seq<Call>, id: StepId) {
    var n := |t|;
    && n >= 2
    && o.ok(t[..n - 1]) && o.ok(t)
    && if o.recovery(id) == RebuildableAudit then
         && t[n - 2] == CaptureAudit(id)
         && t[n - 1].PersistAudit? && t[n - 1].audit == o.audit(t[..n - 1])
         && t[n - 1].audit.IsValidPendingFor(id)
       else
         && t[n - 2] == CaptureIrreversible(id)
         && t[n - 1].PersistIrreversible? && t[n - 1].irreversible == o.irreversible(t[..n - 1])
         && t[n - 1].irreversible.IsValidPendingFor(o.recovery(id), id)
  }

  /** What must stand at the end of the trace when step `id` is about to mutate:
      its inspection and then its recovery evidence, nothing else in between. */
  ghost predicate MayApply(o: Oracle, start: nat, t: seq<Call>, id: StepId) {
    if o.recovery(id) == LosslessBackup then JustBackedUp(o, start, t, id)
    else
      && JustAudited(o, t, id)
      && if o.recovery(id) == Mixed then JustBackedUp(o, start, t[..|t| - 2], id)
         else JustInspected(o, start, t[..|t| - 2], id)
  }

  predicate IsIrreversible(o: Oracle, id: StepId) { o.recovery(id) == ManualRecoveryAudit || o.recovery(id) == Mixed }

  /** The last call was the apply or the verification of this step, and it failed. */
  ghost predicate JustFailed(o: Oracle, start: nat, t: seq<Call>, id: StepId) {
    |t| > start && !o.ok(t) && (t[|t| - 1] == Apply(id) || t[|t| - 1] == Verify(id))
  }

  /** The visit of a step starts where the run starts, or right after progress was stored. */
  ghost predicate AtVisitStart(o: Oracle, start: nat, t: seq<Call>) {
    |t| == start || (|t| > start && t[|t| - 1].PersistProgress? && o.ok(t))
  }

  /** In a live visit cancellation is polled first, and consent asked next if at all. */
  ghost predicate ReadyToInspect(start: nat, t: seq<Call>) {
    || (|t| > start && t[|t| - 1].PollCancelled?)
    || (|t| > start + 1 && t[|t| - 1].AskConsent? && t[|t| - 2].PollCancelled?)
  }

  ghost predicate InVisitOrder(o: Oracle, start: nat, t: seq<Call>, c: Call) {
    && (c.PollCancelled? ==> AtVisitStart(o, start, t))
    && (c.AskConsent? ==> |t| > start && t[|t| - 1].PollCancelled?)
    && (c.Inspect? ==> ReadyToInspect(start, t))
  }

  /** A call the engine is allowed to make next in a run that began at position
      `start`. Persisted batches hold the present values of what was just captured. */
  ghost predicate Allowed(o: Oracle, start: nat, w: World, c: Call) {
    && (c.Apply? ==> MayApply(o, start, w.trace, c.id))
    && (c.PersistBackups? ==> c.entries == Snapshot(o.captured(w.trace), w.resources))
    && (c.FailIrreversible? ==> IsIrreversible(o, c.irreversible.step) && JustFailed(o, start, w.trace, c.irreversible.step))
    && (!o.dryRun ==> InVisitOrder(o, start, w.trace, c))
  }

  ghost function Replay(o: Oracle, w: World, calls: seq<Call>): World {
    if calls == [] then w
    else Do(o, Replay(o, w, calls[..|calls| - 1]), calls[|calls| - 1])
  }

  ghost predicate Disciplined(o: Oracle, w: World, calls: seq<Call>) {
    calls == [] ||
    (var n := |calls| - 1;
     Disciplined(o, w, calls[..n]) && Allowed(o, |w.trace|, Replay(o, w, calls[..n]), calls[n]))
  }

  /** The apply at `i` and its verification are followed by the closing record of
      the very audit persisted before it, changed in its outcome alone. */
  ghost predicate Closed(o: Oracle, t: seq<Call>, i: nat)
    requires 1 <= i < |t| && t[i - 1].PersistIrreversible? && t[i].Apply?
  {
    var audit := t[i - 1].irreversible;
    && i + 1 < |t|
    && if !o.ok(t[..i + 1]) then t[i + 1] == FailIrreversible(audit.Fail(o.clock(t[..i + 1])))
       else
         && t[i + 1] == Verify(t[i].id)
         && i + 2 < |t|
         && t[i + 2] == if o.ok(t[..i + 2]) then FinalizeIrreversible(audit.Finalize(o.clock(t[..i + 2])))
                        else FailIrreversible(audit.Fail(o.clock(t[..i + 2])))
  }

  ghost predicate ClosedFrom(o: Oracle, n: nat, t: seq<Call>) {
    forall i | n < i < |t| && t[i].Apply? && t[i - 1].PersistIrreversible? :: Closed(o, t, i)
  }

  lemma ClosedPrefix(o: Oracle, t: seq<Call>, u: seq<Call>, i: nat)
    requires t <= u && 1 <= i < |t| && t[i - 1].PersistIrreversible? && t[i].Apply? && Closed(o, t, i)
    ensures Closed(o, u, i)
  {
    assert u[..i + 1] == t[..i + 1];
    if i + 2 <= |t| { assert u[..i + 2] == t[..i + 2]; }
  }

  lemma ClosedExtends(o: Oracle, n: nat, t: seq<Call>, c: Call)
    requires ClosedFrom(o, n, t)
    requires c.Apply? ==> t == [] || !t[|t| - 1].PersistIrreversible?
    ensures ClosedFrom(o, n, t + [c])
  {
    var u := t + [c];
    forall i | n < i < |u| && u[i].Apply? && u[i - 1].PersistIrreversible?
      ensures Closed(o, u, i)
    {
      ClosedPrefix(o, t, u, i);
    }
  }

  /** Appending an apply together with the whole of its closing. */
  lemma ClosedBlock(o: Oracle, n: nat, t: seq<Call>, u: seq<Call>)
    requires ClosedFrom(o, n, t) && t < u && t != [] && t[|t| - 1].PersistIrreversible?
    requires u[|t|].Apply? && Closed(o, u, |t|)
    requires forall j | |t| < j < |u| :: !u[j].Apply?
    ensures ClosedFrom(o, n, u)
  {
    forall i | n < i < |u| && u[i].Apply? && u[i - 1].PersistIrreversible?
      ensures Closed(o, u, i)
    {
      if i < |t| { ClosedPrefix(o, t, u, i); }
    }
  }

  /** `w'` is what `w` becomes under the allowed calls that its trace gained. */
  ghost predicate Reaches(o: Oracle, w: World, w': World) {
    && w.trace <= w'.trace
    && Disciplined(o, w, w'.trace[|w.trace|..])
    && w' == Replay(o, w, w'.trace[|w.trace|..])
  }

  lemma ReachStep(o: Oracle, w: World, w': World, c: Call)
    requires Reaches(o, w, w') && Allowed(o, |w.trace|, w', c)
    ensures Reaches(o, w, Do(o, w', c))
  {
    hide MayApply;
    var next := Do(o, w', c);
    assert next.trace == w'.trace + [c];
    var calls := next.trace[|w.trace|..];
    assert calls[..|calls| - 1] == w'.trace[|w.trace|..];
  }

  /** Reached by allowed calls, every irreversible apply so far being closed. */
  ghost predicate Sound(o: Oracle, w: World, w': World) {
    Reaches(o, w, w') && ClosedFrom(o, |w.trace|, w'.trace)
  }

  lemma SoundStep(o: Oracle, w: World, w': World, c: Call)
    requires Sound(o, w, w') && Allowed(o, |w.trace|, w', c)
    requires c.Apply? ==> w'.trace == [] || !w'.trace[|w'.trace| - 1].PersistIrreversible?
    ensures Sound(o, w, Do(o, w', c))
  {
    hide MayApply, ClosedFrom, Reaches;
    ReachStep(o, w, w', c);
    ClosedExtends(o, |w.trace|, w'.trace, c);
  }

  lemma CaptureSound(o: Oracle, w: World, st: St, id: StepId)
    requires Sound(o, w, st.world) && JustInspected(o, |w.trace|, st.world.trace, id)
    ensures var r := CaptureLossless(o, st, id);
            && Sound(o, w, r.st.world)
            && (r.error.None? ==> JustBackedUp(o, |w.trace|, r.st.world.trace, id))
  {
    hide Sound, JustInspected;
    var asked := st.Note(CaptureBackupEvent(id)).Invoke(o, CaptureBackups(id));
    SoundStep(o, w, st.world, CaptureBackups(id));
    var entries := Snapshot(o.captured(asked.world.trace), asked.world.resources);
    var kept := asked.Invoke(o, PersistBackups(entries));
    SoundStep(o, w, asked.world, PersistBackups(entries));
    assert kept.world.trace[..|kept.world.trace| - 1] == asked.world.trace;
    assert kept.world.trace[..|kept.world.trace| - 2] == st.world.trace;
  }

  lemma ApplySound(o: Oracle, w: World, st: St, id: StepId)
    requires Sound(o, w, st.world) && MayApply(o, |w.trace|, st.world.trace, id)
    requires !st.world.trace[|st.world.trace| - 1].PersistIrreversible?
    ensures Sound(o, w, ApplyAndVerify(o, st, id).st.world)
  {
    hide Sound;
    SoundStep(o, w, st.world, Apply(id));
    SoundStep(o, w, Do(o, st.world, Apply(id)), Verify(id));
  }

  lemma EvidenceSound(o: Oracle, w: World, st: St, id: StepId)
    requires Sound(o, w, st.world)
    ensures Sound(o, w, RunEvidence(o, st, id).st.world)
  {
    hide Sound;
    var a := Do(o, st.world, CaptureEvidence(id));
    SoundStep(o, w, st.world, CaptureEvidence(id));
    var receipt := o.receipt(a.trace);
    var b := Do(o, a, PersistEvidence(receipt));
    SoundStep(o, w, a, PersistEvidence(receipt));
    SoundStep(o, w, b, VerifyEvidence(id, receipt));
    SoundStep(o, w, Do(o, b, VerifyEvidence(id, receipt)), Verify(id));
  }

  lemma RebuildableMayApply(o: Oracle, start: nat, t: seq<Call>, id: StepId, audit: Rebuildable)
    requires o.recovery(id) == RebuildableAudit && JustInspected(o, start, t, id)
    requires var u := t + [CaptureAudit(id)]; o.ok(u) && o.audit(u) == audit
    requires audit.IsValidPendingFor(id) && o.ok(t + [CaptureAudit(id)] + [PersistAudit(audit)])
    ensures MayApply(o, start, t + [CaptureAudit(id)] + [PersistAudit(audit)], id)
  {
    hide JustInspected, Rebuildable.IsValidPendingFor;
    var u := t + [CaptureAudit(id)];
    var v := u + [PersistAudit(audit)];
    assert v[..|v| - 1] == u && v[..|v| - 2] == t;
  }

  lemma {:induction false} RebuildableSound(o: Oracle, w: World, st: St, id: StepId)
    requires Sound(o, w, st.world) && o.recovery(id) == RebuildableAudit
    requires JustInspected(o, |w.trace|, st.world.trace, id)
    ensures Sound(o, w, RunRebuildable(o, st, id).st.world)
  {
    hide Sound, ApplyAndVerify, JustInspected, MayApply, Rebuildable.IsValidPendingFor;
    var asked := st.Note(CaptureAuditEvent(id)).Invoke(o, CaptureAudit(id));
    SoundStep(o, w, st.world, CaptureAudit(id));
    var audit := o.audit(asked.world.trace);
    var kept := asked.Invoke(o, PersistAudit(audit));
    SoundStep(o, w, asked.world, PersistAudit(audit));
    if asked.Answer(o) && audit.IsValidPendingFor(id) && kept.Answer(o) {
      var ready := kept.Note(PersistAuditEvent(id));
      RebuildableMayApply(o, |w.trace|, st.world.trace, id, audit);
      ApplySound(o, w, ready, id);
      var applied := ApplyAndVerify(o, ready, id).st.world;
      SoundStep(o, w, applied, FinalizeAudit(audit.Finalized(o.clock(applied.trace))));
    }
  }

  /** The calls that an apply, its verification and the closing record append. */
  function ClosingCalls(o: Oracle, t: seq<Call>, id: StepId, audit: Irreversible): seq<Call> {
    var t1 := t + [Apply(id)];
    if !o.ok(t1) then [Apply(id), FailIrreversible(audit.Fail(o.clock(t1)))]
    else
      var t2 := t1 + [Verify(id)];
      [Apply(id), Verify(id),
       if o.ok(t2) then FinalizeIrreversible(audit.Finalize(o.clock(t2))) else FailIrreversible(audit.Fail(o.clock(t2)))]
  }

  lemma ApplyTrace(o: Oracle, st: St, id: StepId)
    ensures var applied := ApplyAndVerify(o, st, id);
            var t1 := st.world.trace + [Apply(id)];
            && applied.st.world.trace == (if o.ok(t1) then t1 + [Verify(id)] else t1)
            && (applied.error.None? <==> o.ok(t1) && o.ok(t1 + [Verify(id)]))
  {
  }

  lemma ClosingTrace(o: Oracle, st: St, id: StepId, audit: Irreversible)
    ensures CloseIrreversible(o, ApplyAndVerify(o, st, id), audit, id).st.world.trace ==
            st.world.trace + ClosingCalls(o, st.world.trace, id, audit)
  {
    hide ApplyAndVerify;
    ApplyTrace(o, st, id);
  }

  lemma ApplyFails(o: Oracle, start: nat, st: St, id: StepId)
    requires |st.world.trace| >= start
    ensures var applied := ApplyAndVerify(o, st, id);
            var a := Do(o, st.world, Apply(id));
            && applied.st.world == (if o.ok(a.trace) then Do(o, a, Verify(id)) else a)
            && (applied.error.Some? ==> JustFailed(o, start, applied.st.world.trace, id))
  {
  }

  lemma ReachesGrows(o: Oracle, w: World, w': World)
    requires Reaches(o, w, w')
    ensures |w.trace| <= |w'.trace|
  {
  }

  lemma {:induction false} ClosingReaches(o: Oracle, w: World, st: St, id: StepId, audit: Irreversible)
    requires Reaches(o, w, st.world) && MayApply(o, |w.trace|, st.world.trace, id) && audit.step == id && IsIrreversible(o, id)
    ensures Reaches(o, w, CloseIrreversible(o, ApplyAndVerify(o, st, id), audit, id).st.world)
  {
    hide Reaches, CloseIrreversible, MayApply, ApplyAndVerify, JustFailed;
    var a := Do(o, st.world, Apply(id));
    ReachesGrows(o, w, st.world);
    ApplyFails(o, |w.trace|, st, id);
    ReachStep(o, w, st.world, Apply(id));
    ReachStep(o, w, a, Verify(id));
    CloseReaches(o, w, ApplyAndVerify(o, st, id), audit, id);
  }

  lemma CloseReaches(o: Oracle, w: World, applied: Outcome, audit: Irreversible, id: StepId)
    requires Reaches(o, w, applied.st.world)
    requires applied.error.Some? ==> JustFailed(o, |w.trace|, applied.st.world.trace, audit.step) && IsIrreversible(o, audit.step)
    ensures Reaches(o, w, CloseIrreversible(o, applied, audit, id).st.world)
  {
    hide Reaches;
    var now := o.clock(applied.st.world.trace);
    if applied.error.Some? {
      ReachStep(o, w, applied.st.world, FailIrreversible(audit.Fail(now)));
    }
    ReachStep(o, w, applied.st.world, FinalizeIrreversible(audit.Finalize(now)));
  }

  lemma ClosingIsClosed(o: Oracle, n: nat, t: seq<Call>, id: StepId, audit: Irreversible)
    requires ClosedFrom(o, n, t) && t != [] && t[|t| - 1] == PersistIrreversible(audit)
    ensures ClosedFrom(o, n, t + ClosingCalls(o, t, id, audit))
  {
    var u := t + ClosingCalls(o, t, id, audit);
    assert u[..|t| + 1] == t + [Apply(id)];
    if o.ok(t + [Apply(id)]) {
      assert u[..|t| + 2] == t + [Apply(id)] + [Verify(id)];
    }
    ClosedBlock(o, n, t, u);
  }

  lemma {:induction false} ClosingSound(o: Oracle, w: World, st: St, id: StepId, audit: Irreversible)
    requires Sound(o, w, st.world) && MayApply(o, |w.trace|, st.world.trace, id) && audit.step == id && IsIrreversible(o, id)
    requires st.world.trace != [] && st.world.trace[|st.world.trace| - 1] == PersistIrreversible(audit)
    ensures Sound(o, w, CloseIrreversible(o, ApplyAndVerify(o, st, id), audit, id).st.world)
  {
    hide Reaches, ClosedFrom, ClosingCalls, MayApply, CloseIrreversible, ApplyAndVerify;
    ClosingReaches(o, w, st, id, audit);
    ClosingTrace(o, st, id, audit);
    ClosingIsClosed(o, |w.trace|, st.world.trace, id, audit);
  }

  lemma AuditedMayApply(o: Oracle, start: nat, t: seq<Call>, id: StepId, audit: Irreversible)
    requires || (o.recovery(id) == ManualRecoveryAudit && JustInspected(o, start, t, id))
             || (o.recovery(id) == Mixed && JustBackedUp(o, start, t, id))
    requires var u := t + [CaptureIrreversible(id)]; o.ok(u) && o.irreversible(u) == audit
    requires audit.IsValidPendingFor(o.recovery(id), id)
    requires o.ok(t + [CaptureIrreversible(id)] + [PersistIrreversible(audit)])
    ensures MayApply(o, start, t + [CaptureIrreversible(id)] + [PersistIrreversible(audit)], id) && audit.step == id
  {
    hide JustInspected, JustBackedUp;
    var u := t + [CaptureIrreversible(id)];
    var v := u + [PersistIrreversible(audit)];
    assert v[..|v| - 1] == u && v[..|v| - 2] == t;
  }

  lemma PendingSound(o: Oracle, w: World, st: St, id: StepId)
    requires Sound(o, w, st.world)
    requires || (o.recovery(id) == ManualRecoveryAudit && JustInspected(o, |w.trace|, st.world.trace, id))
             || (o.recovery(id) == Mixed && JustBackedUp(o, |w.trace|, st.world.trace, id))
    ensures Sound(o, w, RunPendingIrreversible(o, st, id, o.recovery(id)).st.world)
  {
    hide Sound, JustInspected, JustBackedUp, CloseIrreversible, ApplyAndVerify, MayApply, Irreversible.IsValidPendingFor;
    var asked := st.Note(CaptureAuditEvent(id)).Invoke(o, CaptureIrreversible(id));
    SoundStep(o, w, st.world, CaptureIrreversible(id));
    var audit := o.irreversible(asked.world.trace);
    var kept := asked.Invoke(o, PersistIrreversible(audit));
    SoundStep(o, w, asked.world, PersistIrreversible(audit));
    if asked.Answer(o) && audit.IsValidPendingFor(o.recovery(id), id) && kept.Answer(o) {
      AuditedMayApply(o, |w.trace|, st.world.trace, id, audit);
      ClosingSound(o, w, kept.Note(PersistAuditEvent(id)), id, audit);
    }
  }

  lemma {:induction false} OperationSound(o: Oracle, w: World, st: St, step: Step, inspection: Inspection)
    requires Sound(o, w, st.world)
    requires inspection == Satisfied || (inspection == NeedsApply && JustInspected(o, |w.trace|, st.world.trace, step.id))
    ensures Sound(o, w, RunOperation(o, st, step, inspection).st.world)
  {
    hide Sound, RunEvidence, RunRebuildable, RunPendingIrreversible, CaptureLossless, ApplyAndVerify;
    var id := step.id;
    if inspection == Satisfied || step.checkOnly {
      EvidenceSound(o, w, st, id);
      SoundStep(o, w, st.world, Verify(id));
    } else if o.recovery(id) == RebuildableAudit {
      RebuildableSound(o, w, st, id);
    } else if o.recovery(id) == ManualRecoveryAudit {
      PendingSound(o, w, st, id);
    } else {
      CaptureSound(o, w, st, id);
      var kept := CaptureLossless(o, st, id);
      if kept.error.None? {
        if o.recovery(id) == Mixed {
          PendingSound(o, w, kept.st, id);
        } else {
          ApplySound(o, w, kept.st, id);
        }
      }
    }
  }

  lemma {:induction false} InspectionSound(o: Oracle, w: World, st: St, step: Step, inspection: Inspection)
    requires Sound(o, w, st.world) && JustFound(o, |w.trace|, st.world.trace, step.id, inspection)
    ensures Sound(o, w, RunLiveStep(o, st, step, inspection).st.world)
  {
    hide Sound, RunOperation;
    match inspection
    case Unsupported =>
    case Inapplicable => SoundStep(o, w, st.world, PersistProgress(st.progress.Skip(step.id)));
    case Advisory(reason) =>
      SoundStep(o, w, st.world, PersistProgress(st.progress.AcknowledgeAdvisory(step.id, reason)));
    case _ =>
      OperationSound(o, w, st, step, inspection);
      FinishSound(o, w, RunOperation(o, st, step, inspection), step.id);
  }

  lemma {:induction false} FinishSound(o: Oracle, w: World, done: Outcome, id: StepId)
    requires Sound(o, w, done.st.world)
    ensures Sound(o, w, Finish(o, done, id).st.world)
  {
    hide Sound;
    SoundStep(o, w, done.st.world, PersistProgress(done.st.progress.Complete(id, o.clock(done.st.world.trace))));
  }

  lemma BeyondStart(o: Oracle, w: World, w': World)
    requires Sound(o, w, w')
    ensures |w.trace| <= |w'.trace|
  {
  }

  lemma SettledSound(o: Oracle, w: World, settled: (St, bool), step: Step)
    requires Sound(o, w, settled.0.world)
    requires !o.dryRun ==> ReadyToInspect(|w.trace|, settled.0.world.trace)
    ensures Sound(o, w, RunSettled(o, settled, step).st.world)
  {
    hide Sound, RunLiveStep;
    var st := settled.0;
    if settled.1 {
      SoundStep(o, w, st.world, PersistProgress(st.progress.Skip(step.id)));
    } else {
      var asked := st.Note(InspectEvent(step.id)).Invoke(o, Inspect(step.id));
      SoundStep(o, w, st.world, Inspect(step.id));
      if o.dryRun {
        SoundStep(o, w, asked.world, Plan(step.id));
      } else if asked.Answer(o) {
        BeyondStart(o, w, st.world);
        InspectionSound(o, w, asked, step, o.inspection(asked.world.trace));
      }
    }
  }

  lemma {:induction false} StepSound(o: Oracle, w: World, st: St, step: Step, profile: Profile)
    requires Sound(o, w, st.world)
    requires !o.dryRun ==> AtVisitStart(o, |w.trace|, st.world.trace)
    ensures Sound(o, w, RunStep(o, st, step, profile).st.world)
  {
    hide Sound, Settle, RunSettled;
    var polled := if o.dryRun then st else st.Invoke(o, PollCancelled);
    if !o.dryRun {
      SoundStep(o, w, st.world, PollCancelled);
      BeyondStart(o, w, st.world);
    }
    SettleSound(o, w, polled, step, profile);
    SettledSound(o, w, Settle(o, polled, step, profile), step);
  }

  lemma SettleSound(o: Oracle, w: World, st: St, step: Step, profile: Profile)
    requires Sound(o, w, st.world)
    requires !o.dryRun ==> |st.world.trace| > |w.trace| && st.world.trace[|st.world.trace| - 1].PollCancelled?
    ensures Sound(o, w, Settle(o, st, step, profile).0.world)
    ensures !o.dryRun ==> ReadyToInspect(|w.trace|, Settle(o, st, step, profile).0.world.trace)
  {
    hide Sound;
    if !o.dryRun {
      SoundStep(o, w, st.world, AskConsent(step.id));
    }
  }

  ghost predicate JustStored(o: Oracle, t: seq<Call>) {
    t != [] && t[|t| - 1].PersistProgress? && o.ok(t)
  }

  lemma FinishStores(o: Oracle, done: Outcome, id: StepId)
    requires Finish(o, done, id).error.None?
    ensures JustStored(o, Finish(o, done, id).st.world.trace)
  {
  }

  lemma SkipStores(o: Oracle, st: St, id: StepId)
    requires RecordSkip(o, st, id, true).error.None?
    ensures JustStored(o, RecordSkip(o, st, id, true).st.world.trace)
  {
  }

  lemma AdvisoryStores(o: Oracle, st: St, id: StepId, reason: string)
    requires RecordAdvisory(o, st, id, reason).error.None?
    ensures JustStored(o, RecordAdvisory(o, st, id, reason).st.world.trace)
  {
  }

  lemma StoresProgress(o: Oracle, settled: (St, bool), step: Step)
    requires !o.dryRun && RunSettled(o, settled, step).error.None?
    ensures JustStored(o, RunSettled(o, settled, step).st.world.trace)
  {
    hide RunOperation, Finish, RecordSkip, RecordAdvisory, JustStored;
    var st := settled.0;
    if settled.1 {
      SkipStores(o, st, step.id);
    } else {
      var asked := st.Note(InspectEvent(step.id)).Invoke(o, Inspect(step.id));
      match o.inspection(asked.world.trace)
      case Unsupported =>
      case Inapplicable => SkipStores(o, asked, step.id);
      case Advisory(reason) => AdvisoryStores(o, asked, step.id, reason);
      case Satisfied => FinishStores(o, RunOperation(o, asked, step, Satisfied), step.id);
      case NeedsApply => FinishStores(o, RunOperation(o, asked, step, NeedsApply), step.id);
    }
  }

  /** A live visit that succeeds is silent or ends by storing progress. */
  lemma VisitEnds(o: Oracle, st: St, step: Step, profile: Profile)
    requires !o.dryRun && RunStep(o, st, step, profile).error.None?
    ensures var r := RunStep(o, st, step, profile).st;
            r == st || JustStored(o, r.world.trace)
  {
    hide RunSettled, JustStored;
    if !st.progress.Recorded(step.id) {
      StoresProgress(o, Settle(o, st.Invoke(o, PollCancelled), step, profile), step);
    }
  }

  lemma {:induction false} RunSound(o: Oracle, w: World, st: St, steps: seq<Step>, profile: Profile)
    requires Sound(o, w, st.world)
    requires !o.dryRun ==> AtVisitStart(o, |w.trace|, st.world.trace)
    ensures Sound(o, w, Run(o, st, steps, profile).st.world)
    decreases |steps|
  {
    hide Sound, RunStep;
    if steps != [] {
      StepSound(o, w, st, steps[0], profile);
      var head := RunStep(o, st, steps[0], profile);
      if head.error.None? {
        if !o.dryRun {
          BeyondStart(o, w, head.st.world);
          VisitEnds(o, st, steps[0], profile);
        }
        RunSound(o, w, head.st, steps[1..], profile);
      }
    }
  }

  /** Every run, under every profile and every fault pattern, makes allowed
      calls only and closes every irreversible audit it applied under. */
  lemma {:induction false} RunsAreSound(o: Oracle, st: St, steps: seq<Step>, profile: Profile)
    ensures Sound(o, st.world, Run(o, st, steps, profile).st.world)
  {
    assert st.world.trace[|st.world.trace|..] == [];
    RunSound(o, st.world, st, steps, profile);
  }

  lemma {:induction false} ReplayTrace(o: Oracle, w: World, calls: seq<Call>)
    ensures Replay(o, w, calls).trace == w.trace + calls
  {
    if calls != [] {
      ReplayTrace(o, w, calls[..|calls| - 1]);
    }
  }

  lemma {:induction false} DisciplinedAt(o: Oracle, w: World, calls: seq<Call>, i: nat)
    requires Disciplined(o, w, calls) && i < |calls|
    ensures Disciplined(o, w, calls[..i]) && Allowed(o, |w.trace|, Replay(o, w, calls[..i]), calls[i])
  {
    var n := |calls| - 1;
    if i < n {
      DisciplinedAt(o, w, calls[..n], i);
      assert calls[..n][..i] == calls[..i];
    }
  }

  /** Every call of a run is allowed where it stands. */
  lemma {:induction false} AllowedAt(o: Oracle, st: St, steps: seq<Step>, profile: Profile, i: nat) returns (now: World)
    requires |st.world.trace| <= i < |Run(o, st, steps, profile).st.world.trace|
    ensures var t := Run(o, st, steps, profile).st.world.trace;
            now.trace == t[..i] && Allowed(o, |st.world.trace|, now, t[i])
  {
    hide Run, Allowed, Disciplined, Replay, ClosedFrom;
    var w := st.world;
    RunsAreSound(o, st, steps, profile);
    var t := Run(o, st, steps, profile).st.world.trace;
    var calls, j := t[|w.trace|..], i - |w.trace|;
    DisciplinedAt(o, w, calls, j);
    ReplayTrace(o, w, calls[..j]);
    assert w.trace + calls[..j] == t[..i];
    now := Replay(o, w, calls[..j]);
  }

  /** Every apply call of a run stands right after the inspection of its step and its
      durable recovery evidence, all of it in this run. */
  lemma {:induction false} AppliesAreWrittenAhead(o: Oracle, st: St, steps: seq<Step>, profile: Profile, i: nat)
    requires var t := Run(o, st, steps, profile).st.world.trace;
             |st.world.trace| <= i < |t| && t[i].Apply?
    ensures var t := Run(o, st, steps, profile).st.world.trace;
            MayApply(o, |st.world.trace|, t[..i], t[i].id)
  {
    hide Run, MayApply;
    var w := AllowedAt(o, st, steps, profile, i);
  }

  // What an apply may write

  lemma LastReplayed(o: Oracle, w: World, calls: seq<Call>)
    requires calls != []
    ensures var n := |calls| - 1;
            && Replay(o, w, calls) == Do(o, Replay(o, w, calls[..n]), calls[n])
            && Replay(o, w, calls[..n]).trace == w.trace + calls[..n]
            && w.trace + calls[..n] + [calls[n]] == w.trace + calls
  {
    hide Do;
    ReplayTrace(o, w, calls[..|calls| - 1]);
  }

  /** Up to and including the inspection of a visit, nothing is captured. */
  lemma {:induction false} NothingCapturedYet(o: Oracle, w: World, calls: seq<Call>)
    requires Disciplined(o, w, calls) && !o.dryRun && w.authority == {}
    requires calls != [] && (calls[|calls| - 1].PollCancelled? || calls[|calls| - 1].AskConsent? || calls[|calls| - 1].Inspect?)
    ensures Replay(o, w, calls).authority == {}
  {
    hide MayApply;
    var n := |calls| - 1;
    LastReplayed(o, w, calls);
    if calls[n].PollCancelled? {
      if n > 0 { LastReplayed(o, w, calls[..n]); }
    } else {
      NothingCapturedYet(o, w, calls[..n]);
    }
  }

  /** What the last two calls captured and stored is all that the process may write, and
      the stored entries hold the present values. */
  lemma {:induction false} BackupCovers(o: Oracle, w: World, calls: seq<Call>, id: StepId)
    requires Disciplined(o, w, calls) && w.authority == {}
    requires |calls| >= 3 && JustBackedUp(o, |w.trace|, w.trace + calls, id)
    ensures var n, now := |calls|, Replay(o, w, calls);
            && var es := calls[n - 1].entries;
            && calls[n - 1].PersistBackups? && o.ok(w.trace + calls)
            && now.backups == PushedAll(Replay(o, w, calls[..n - 1]).backups, es)
            && now.authority == Covered(o.captured(w.trace + calls[..n - 1]))
            && es == Snapshot(o.captured(w.trace + calls[..n - 1]), now.resources)
  {
    hide MayApply, Snapshot, Covered, PushedAll, Replay, InVisitOrder;
    var n, t := |calls|, w.trace + calls;
    assert t[..|t| - 2] == w.trace + calls[..n - 2] && t[..|t| - 1] == w.trace + calls[..n - 1];
    DisciplinedAt(o, w, calls, n - 2);
    DisciplinedAt(o, w, calls, n - 1);
    assert calls[..n - 2][n - 3] == t[..|t| - 2][|t| - 3];
    NothingCapturedYet(o, w, calls[..n - 2]);
    assert calls[..n - 1][..n - 2] == calls[..n - 2];
    LastReplayed(o, w, calls[..n - 1]);
    LastReplayed(o, w, calls);
  }

  /** Call `j` durably stored a batch that holds this value of the setting. */
  ghost predicate StoredBy(o: Oracle, w: World, calls: seq<Call>, j: nat, r: Resource, v: Value) {
    && j < |calls| && calls[j].PersistBackups? && o.ok(w.trace + calls[..j + 1])
    && exists e :: e in calls[j].entries && r in e.saved && e.saved[r] == v
  }

  lemma SnapshotHolds(es: seq<BackupEntry>, now: Resources, r: Resource)
    requires r in Covered(es) && r in now
    ensures exists e :: e in Snapshot(es, now) && r in e.saved && e.saved[r] == now[r]
  {
    var e :| e in es && r in e.saved;
    var i :| 0 <= i < |es| && es[i] == e;
    assert Snapshot(es, now)[i] in Snapshot(es, now);
  }

  lemma BackupHolds(o: Oracle, w: World, calls: seq<Call>, id: StepId, r: Resource)
    requires Disciplined(o, w, calls) && w.authority == {}
    requires |calls| >= 3 && JustBackedUp(o, |w.trace|, w.trace + calls, id)
    requires r in Replay(o, w, calls).authority && r in Replay(o, w, calls).resources
    ensures StoredBy(o, w, calls, |calls| - 1, r, Replay(o, w, calls).resources[r])
  {
    hide Disciplined, Snapshot, Covered, Replay, JustBackedUp;
    var n := |calls|;
    BackupCovers(o, w, calls, id);
    SnapshotHolds(o.captured(w.trace + calls[..n - 1]), Replay(o, w, calls).resources, r);
    assert calls[..n - 1 + 1] == calls;
  }

  /** The two audit calls before an apply neither capture nor write. */
  lemma AuditKeeps(o: Oracle, w: World, calls: seq<Call>, id: StepId)
    requires |calls| >= 2 && JustAudited(o, w.trace + calls, id)
    ensures var before, now := Replay(o, w, calls[..|calls| - 2]), Replay(o, w, calls);
            now.authority == before.authority && now.resources == before.resources && now.backups == before.backups
  {
    hide Replay, Rebuildable.IsValidPendingFor, Irreversible.IsValidPendingFor;
    var n, t := |calls|, w.trace + calls;
    assert t[|t| - 2] == calls[n - 2] && t[|t| - 1] == calls[n - 1];
    assert calls[..n - 1][..n - 2] == calls[..n - 2];
    LastReplayed(o, w, calls[..n - 1]);
    LastReplayed(o, w, calls);
  }

  /** Where the evidence stands that an apply after these calls rests on. */
  ghost function StoreOf(o: Oracle, calls: seq<Call>, id: StepId): nat {
    if o.recovery(id) == LosslessBackup then Before(|calls|, 1) else Before(|calls|, 3)
  }

  function Before(n: nat, k: nat): nat { if n >= k then n - k else 0 }

  lemma MayApplyShape(o: Oracle, start: nat, t: seq<Call>, id: StepId)
    requires MayApply(o, start, t, id)
    ensures !o.dryRun && |t| >= start + 3
    ensures o.recovery(id) == LosslessBackup ==> JustBackedUp(o, start, t, id)
    ensures o.recovery(id) != LosslessBackup ==> JustAudited(o, t, id)
    ensures o.recovery(id) == Mixed ==> |t| >= start + 5 && JustBackedUp(o, start, t[..|t| - 2], id)
    ensures o.recovery(id) != LosslessBackup && o.recovery(id) != Mixed ==> JustInspected(o, start, t[..|t| - 2], id)
  {
  }

  /** With an audit alone nothing is captured, so nothing may be written. */
  lemma AuditedWritesNothing(o: Oracle, w: World, calls: seq<Call>, id: StepId)
    requires Disciplined(o, w, calls) && w.authority == {} && !o.dryRun
    requires |calls| >= 3 && JustAudited(o, w.trace + calls, id)
    requires JustInspected(o, |w.trace|, (w.trace + calls)[..|w.trace + calls| - 2], id)
    ensures Replay(o, w, calls).authority == {}
  {
    hide Disciplined, Replay, JustAudited;
    var n, t := |calls|, w.trace + calls;
    assert t[..|t| - 2] == w.trace + calls[..n - 2];
    AuditKeeps(o, w, calls, id);
    DisciplinedAt(o, w, calls, n - 2);
    assert calls[..n - 2][n - 3] == t[..|t| - 2][|t| - 3];
    NothingCapturedYet(o, w, calls[..n - 2]);
  }

  lemma MixedWritesStored(o: Oracle, w: World, calls: seq<Call>, id: StepId, r: Resource)
    requires Disciplined(o, w, calls) && w.authority == {}
    requires |calls| >= 5 && JustAudited(o, w.trace + calls, id)
    requires JustBackedUp(o, |w.trace|, (w.trace + calls)[..|w.trace + calls| - 2], id)
    requires r in Replay(o, w, calls).authority && r in Replay(o, w, calls).resources
    ensures StoredBy(o, w, calls, |calls| - 3, r, Replay(o, w, calls).resources[r])
  {
    hide Disciplined, Replay, JustAudited, JustBackedUp, StoredBy;
    var n, t := |calls|, w.trace + calls;
    assert t[..|t| - 2] == w.trace + calls[..n - 2];
    AuditKeeps(o, w, calls, id);
    DisciplinedAt(o, w, calls, n - 2);
    BackupHolds(o, w, calls[..n - 2], id, r);
    StoredEarlier(o, w, calls, n - 2, n - 3, r, Replay(o, w, calls).resources[r]);
  }

  /** The engine's order makes the capture gate safe: whatever an apply may write was stored by
      this process right before, with the value it still has. */
  lemma {:induction false} AppliesWriteStored(o: Oracle, w: World, calls: seq<Call>, id: StepId, r: Resource)
    requires Disciplined(o, w, calls) && w.authority == {}
    requires MayApply(o, |w.trace|, w.trace + calls, id)
    requires r in Replay(o, w, calls).authority && r in Replay(o, w, calls).resources
    ensures StoredBy(o, w, calls, StoreOf(o, calls, id), r, Replay(o, w, calls).resources[r])
  {
    hide Disciplined, Replay, JustBackedUp, JustAudited, JustInspected, MayApply, StoredBy;
    MayApplyShape(o, |w.trace|, w.trace + calls, id);
    if o.recovery(id) == LosslessBackup {
      BackupHolds(o, w, calls, id, r);
    } else if o.recovery(id) == Mixed {
      MixedWritesStored(o, w, calls, id, r);
    } else {
      AuditedWritesNothing(o, w, calls, id);
    }
  }

  lemma StoredEarlier(o: Oracle, w: World, calls: seq<Call>, n: nat, j: nat, r: Resource, v: Value)
    requires n <= |calls| && StoredBy(o, w, calls[..n], j, r, v)
    ensures StoredBy(o, w, calls, j, r, v)
  {
    assert calls[..n][..j + 1] == calls[..j + 1];
  }

  /** The engine closes an audit as failed only right after its apply or its
      verification failed. */
  lemma {:induction false} FailuresAreJust(o: Oracle, st: St, steps: seq<Step>, profile: Profile, i: nat)
    requires var t := Run(o, st, steps, profile).st.world.trace;
             |st.world.trace| <= i < |t| && t[i].FailIrreversible?
    ensures var t := Run(o, st, steps, profile).st.world.trace;
            IsIrreversible(o, t[i].irreversible.step) && JustFailed(o, |st.world.trace|, t[..i], t[i].irreversible.step)
  {
    hide Run, MayApply;
    var w := AllowedAt(o, st, steps, profile, i);
  }

  /** No call of a run but an apply changes a setting, none creates or removes one, and an apply,
      failed or not, overwrites only values that a batch stored by this very run holds. */
  lemma {:induction false} ChangesAreBackedUp(o: Oracle, st: St, steps: seq<Step>, profile: Profile, i: nat, r: Resource)
    requires st.world.authority == {}
    requires |st.world.trace| <= i < |Run(o, st, steps, profile).st.world.trace|
    ensures var w, t := st.world, Run(o, st, steps, profile).st.world.trace;
            var calls, n := t[|w.trace|..], i - |w.trace|;
            var before, after := Replay(o, w, calls[..n]).resources, Replay(o, w, calls[..n + 1]).resources;
            && after.Keys == before.Keys
            && (r in before && after[r] != before[r] ==>
                  && t[i].Apply?
                  && StoredBy(o, w, calls[..n], StoreOf(o, calls[..n], t[i].id), r, before[r]))
  {
    hide Run, Disciplined, ClosedFrom, StoredBy, MayApply, StoreOf;
    RunsAreSound(o, st, steps, profile);
    var w, t := st.world, Run(o, st, steps, profile).st.world.trace;
    var calls, n := t[|w.trace|..], i - |w.trace|;
    DisciplinedAt(o, w, calls, n);
    assert calls[..n + 1][..n] == calls[..n];
    LastReplayed(o, w, calls[..n + 1]);
    var now := Replay(o, w, calls[..n]);
    if t[i].Apply? && r in now.authority && r in now.resources {
      AppliesWriteStored(o, w, calls[..n], t[i].id, r);
    }
  }

  /** After an irreversible apply the audit ends verified or failed, whatever fails. */
  lemma IrreversibleAppliesAreClosed(o: Oracle, st: St, steps: seq<Step>, profile: Profile, i: nat)
    requires var t := Run(o, st, steps, profile).st.world.trace;
             |st.world.trace| < i < |t| && t[i].Apply? && t[i - 1].PersistIrreversible?
    ensures Closed(o, Run(o, st, steps, profile).st.world.trace, i)
  {
    RunsAreSound(o, st, steps, profile);
  }
}
