/** What the recovery engine does, call by call.

    A backend call may fail at any point. Its answers are a function of the
    calls made so far, so quantifying over every `Oracle` is quantifying over
    every fault pattern. `Do` is the effect of one call on durable storage. */
module EngineModel {
  import opened Wrappers
  import opened Catalog
  import opened ProgressRecord
  import opened Audit
  import opened Backup

  datatype Inspection = Satisfied | NeedsApply | Inapplicable | Advisory(reason: string) | Unsupported

  /** A prerequisite observation; `wellFormed` stands for its subject and digest checks. */
  datatype Receipt = Receipt(step: StepId, wellFormed: bool) {
    predicate IsValidFor(id: StepId) { wellFormed && step == id }
  }

  datatype Call =
    | PollCancelled
    | AskConsent(id: StepId)
    | Inspect(id: StepId)
    | Plan(id: StepId)
    | CaptureBackups(id: StepId)
    | PersistBackups(entries: seq<BackupEntry>)
    | CaptureAudit(id: StepId)
    | PersistAudit(audit: Rebuildable)
    | FinalizeAudit(audit: Rebuildable)
    | CaptureIrreversible(id: StepId)
    | PersistIrreversible(irreversible: Irreversible)
    | FinalizeIrreversible(irreversible: Irreversible)
    | FailIrreversible(irreversible: Irreversible)
    | CaptureEvidence(id: StepId)
    | PersistEvidence(receipt: Receipt)
    | VerifyEvidence(id: StepId, receipt: Receipt)
    | Apply(id: StepId)
    | Verify(id: StepId)
    | PersistProgress(progress: Progress)

  /** Answers, indexed by the calls so far, the current one last. `ok` is also
      the answer to a consent or cancellation question. */
  datatype Oracle = Oracle(
    dryRun: bool,
    recovery: StepId -> RecoveryRequirement,
    durableEvidence: StepId -> bool,
    ok: seq<Call> -> bool,
    inspection: seq<Call> -> Inspection,
    plan: seq<Call> -> seq<string>,
    captured: seq<Call> -> seq<BackupEntry>,
    audit: seq<Call> -> Rebuildable,
    irreversible: seq<Call> -> Irreversible,
    receipt: seq<Call> -> Receipt,
    writes: seq<Call> -> Resources,
    clock: seq<Call> -> string)

  /** Durable storage and the settings of the machine. `authority` holds the
      resources that the process has captured since it last stored progress. */
  datatype World = World(
    trace: seq<Call>,
    saved: Progress,
    backups: seq<BackupEntry>,
    resources: Resources,
    authority: set<Resource>)

  /** A capture reads present values; it may name only resources that exist. */
  function Snapshot(es: seq<BackupEntry>, now: Resources): seq<BackupEntry> {
    seq(|es|, i requires 0 <= i < |es| =>
      es[i].(saved := map r | r in es[i].saved && r in now :: now[r]))
  }

  /** A failed persist changes nothing. An apply, failed or not, may write whatever
      the process has captured, stored or not: the gate in front of the native mutation
      asks for a capture alone. Stored progress gives the captures up. */
  function Do(o: Oracle, w: World, c: Call): World {
    var t := w.trace + [c];
    var next := w.(trace := t);
    match c
    case CaptureBackups(_) =>
      if o.ok(t) then next.(authority := w.authority + Covered(o.captured(t))) else next
    case PersistBackups(es) =>
      if o.ok(t) then next.(backups := PushedAll(w.backups, es)) else next
    case Apply(_) =>
      next.(resources := w.resources + (map r | r in o.writes(t) && r in w.authority && r in w.resources :: o.writes(t)[r]))
    case PersistProgress(p) => if o.ok(t) then next.(saved := p, authority := {}) else next
    case _ => next
  }

  datatype Event =
    | InspectEvent(id: StepId)
    | CaptureBackupEvent(id: StepId)
    | PersistBackupEvent(id: StepId)
    | CaptureAuditEvent(id: StepId)
    | PersistAuditEvent(id: StepId)
    | CaptureEvidenceEvent(id: StepId)
    | PersistEvidenceEvent(id: StepId)
    | VerifyEvidenceEvent(id: StepId)
    | ApplyEvent(id: StepId)
    | VerifyEvent(id: StepId)
    | FinalizeAuditEvent(id: StepId)
    | FailAuditEvent(id: StepId)
    | CompleteEvent(id: StepId)
    | SkipEvent(id: StepId)
    | AdvisoryEvent(id: StepId, reason: string)
    | PlanEvent(line: string)

  datatype EngineError =
    | InspectError(id: StepId)
    | UnsupportedError(id: StepId)
    | CancelledError(id: StepId)
    | BackupError(id: StepId)
    | PersistError(id: StepId)
    | AuditCaptureError(id: StepId)
    | AuditPersistError(id: StepId)
    | EvidenceCaptureError(id: StepId)
    | EvidencePersistError(id: StepId)
    | EvidenceVerifyError(id: StepId)
    | ApplyError(id: StepId)
    | VerifyError(id: StepId)
    | AuditFinalizeError(id: StepId)
    | AuditFailurePersistError(id: StepId)
    | ProgressError(id: StepId)

  datatype Report = Report(events: seq<Event>, completed: nat, skipped: nat, advisories: nat, failed: nat)

  function EmptyReport(): Report { Report([], 0, 0, 0, 0) }

  datatype St = St(world: World, progress: Progress, report: Report) {
    function Invoke(o: Oracle, c: Call): St { this.(world := Do(o, world, c)) }

    function Note(e: Event): St { this.(report := report.(events := report.events + [e])) }

    predicate Answer(o: Oracle) { o.ok(world.trace) }
  }

  datatype Outcome = Outcome(st: St, error: Option<EngineError>)

  ghost predicate SameCounters(a: Report, b: Report) {
    (a.completed, a.skipped, a.advisories, a.failed) == (b.completed, b.skipped, b.advisories, b.failed)
  }

  /** Progress, durable and in memory, and the report counters are as before. */
  ghost predicate Holds(before: St, after: St) {
    && after.progress == before.progress
    && after.world.saved == before.world.saved
    && SameCounters(after.report, before.report)
  }

  ghost predicate FailsAt(r: Outcome, id: StepId) {
    r.error.Some? ==> r.error.value.id == id
  }

  function RecordSkip(o: Oracle, st: St, id: StepId, persist: bool): Outcome {
    var noted := st.Note(SkipEvent(id));
    if persist then
      var p := st.progress.Skip(id);
      var asked := noted.Invoke(o, PersistProgress(p));
      if asked.Answer(o) then
        Outcome(asked.(progress := p, report := asked.report.(skipped := asked.report.skipped + 1)), None)
      else Outcome(asked, Some(ProgressError(id)))
    else
      Outcome(noted.(report := noted.report.(skipped := noted.report.skipped + 1)), None)
  }

  function RecordAdvisory(o: Oracle, st: St, id: StepId, reason: string): Outcome {
    var p := st.progress.AcknowledgeAdvisory(id, reason);
    var asked := st.Invoke(o, PersistProgress(p));
    if asked.Answer(o) then
      var noted := asked.(progress := p).Note(AdvisoryEvent(id, reason));
      Outcome(noted.(report := noted.report.(advisories := noted.report.advisories + 1)), None)
    else Outcome(asked, Some(ProgressError(id)))
  }

  function CompleteLiveStep(o: Oracle, st: St, id: StepId): Outcome {
    var p := st.progress.Complete(id, o.clock(st.world.trace));
    var asked := st.Invoke(o, PersistProgress(p));
    if asked.Answer(o) then
      var noted := asked.(progress := p).Note(CompleteEvent(id));
      Outcome(noted.(report := noted.report.(completed := noted.report.completed + 1)), None)
    else Outcome(asked, Some(ProgressError(id)))
  }

  function CaptureLossless(o: Oracle, st: St, id: StepId): (r: Outcome)
    ensures Holds(st, r.st) && FailsAt(r, id)
  {
    var asked := st.Note(CaptureBackupEvent(id)).Invoke(o, CaptureBackups(id));
    var entries := Snapshot(o.captured(asked.world.trace), asked.world.resources);
    if !asked.Answer(o) || entries == [] then Outcome(asked, Some(BackupError(id)))
    else
      var kept := asked.Invoke(o, PersistBackups(entries));
      if kept.Answer(o) then Outcome(kept.Note(PersistBackupEvent(id)), None)
      else Outcome(kept, Some(PersistError(id)))
  }

  function ApplyAndVerify(o: Oracle, st: St, id: StepId): (r: Outcome)
    ensures Holds(st, r.st) && FailsAt(r, id)
  {
    var applied := st.Invoke(o, Apply(id));
    if !applied.Answer(o) then Outcome(applied, Some(ApplyError(id)))
    else
      var verified := applied.Note(ApplyEvent(id)).Invoke(o, Verify(id));
      if verified.Answer(o) then Outcome(verified.Note(VerifyEvent(id)), None)
      else Outcome(verified, Some(VerifyError(id)))
  }

  function RunLossless(o: Oracle, st: St, id: StepId): (r: Outcome)
    ensures Holds(st, r.st) && FailsAt(r, id)
  {
    var kept := CaptureLossless(o, st, id);
    if kept.error.Some? then kept else ApplyAndVerify(o, kept.st, id)
  }

  function RunEvidence(o: Oracle, st: St, id: StepId): (r: Outcome)
    ensures Holds(st, r.st) && FailsAt(r, id)
  {
    var asked := st.Note(CaptureEvidenceEvent(id)).Invoke(o, CaptureEvidence(id));
    var receipt := o.receipt(asked.world.trace);
    if !asked.Answer(o) || !receipt.IsValidFor(id) then Outcome(asked, Some(EvidenceCaptureError(id)))
    else
      var kept := asked.Invoke(o, PersistEvidence(receipt));
      if !kept.Answer(o) then Outcome(kept, Some(EvidencePersistError(id)))
      else
        var seen := kept.Note(PersistEvidenceEvent(id)).Invoke(o, VerifyEvidence(id, receipt));
        if !seen.Answer(o) then Outcome(seen, Some(EvidenceVerifyError(id)))
        else
          var verified := seen.Note(VerifyEvidenceEvent(id)).Invoke(o, Verify(id));
          if verified.Answer(o) then Outcome(verified.Note(VerifyEvent(id)), None)
          else Outcome(verified, Some(VerifyError(id)))
  }

  function RunRebuildable(o: Oracle, st: St, id: StepId): (r: Outcome)
    ensures Holds(st, r.st) && FailsAt(r, id)
  {
    var asked := st.Note(CaptureAuditEvent(id)).Invoke(o, CaptureAudit(id));
    var audit := o.audit(asked.world.trace);
    if !asked.Answer(o) || !audit.IsValidPendingFor(id) then Outcome(asked, Some(AuditCaptureError(id)))
    else
      var kept := asked.Invoke(o, PersistAudit(audit));
      if !kept.Answer(o) then Outcome(kept, Some(AuditPersistError(id)))
      else
        CloseRebuildable(o, ApplyAndVerify(o, kept.Note(PersistAuditEvent(id)), id), audit, id)
  }

  function CloseRebuildable(o: Oracle, applied: Outcome, audit: Rebuildable, id: StepId): (r: Outcome)
    ensures Holds(applied.st, r.st) && (FailsAt(applied, id) ==> FailsAt(r, id))
  {
    if applied.error.Some? then applied
    else
      var closed := applied.st.Invoke(o, FinalizeAudit(audit.Finalized(o.clock(applied.st.world.trace))));
      if closed.Answer(o) then Outcome(closed.Note(FinalizeAuditEvent(id)), None)
      else Outcome(closed, Some(AuditFinalizeError(id)))
  }

  function RunPendingIrreversible(
    o: Oracle, st: St, id: StepId, requirement: RecoveryRequirement): (r: Outcome)
    ensures Holds(st, r.st) && FailsAt(r, id)
  {
    var asked := st.Note(CaptureAuditEvent(id)).Invoke(o, CaptureIrreversible(id));
    var audit := o.irreversible(asked.world.trace);
    if !asked.Answer(o) || !audit.IsValidPendingFor(requirement, id) then
      Outcome(asked, Some(AuditCaptureError(id)))
    else
      var kept := asked.Invoke(o, PersistIrreversible(audit));
      if !kept.Answer(o) then Outcome(kept, Some(AuditPersistError(id)))
      else
        CloseIrreversible(o, ApplyAndVerify(o, kept.Note(PersistAuditEvent(id)), id), audit, id)
  }

  function CloseIrreversible(o: Oracle, applied: Outcome, audit: Irreversible, id: StepId): (r: Outcome)
    ensures Holds(applied.st, r.st) && (FailsAt(applied, id) ==> FailsAt(r, id))
  {
    var now := o.clock(applied.st.world.trace);
    if applied.error.Some? then
      var closed := applied.st.Invoke(o, FailIrreversible(audit.Fail(now)));
      if closed.Answer(o) then Outcome(closed.Note(FailAuditEvent(id)), applied.error)
      else Outcome(closed, Some(AuditFailurePersistError(id)))
    else
      var closed := applied.st.Invoke(o, FinalizeIrreversible(audit.Finalize(now)));
      if closed.Answer(o) then Outcome(closed.Note(FinalizeAuditEvent(id)), None)
      else Outcome(closed, Some(AuditFinalizeError(id)))
  }

  function RunIrreversible(o: Oracle, st: St, id: StepId): (r: Outcome)
    ensures Holds(st, r.st) && FailsAt(r, id)
  {
    var requirement := o.recovery(id);
    var kept := if requirement == Mixed then CaptureLossless(o, st, id) else Outcome(st, None);
    if kept.error.Some? then kept else RunPendingIrreversible(o, kept.st, id, requirement)
  }

  /** The part of a live step that may touch the machine, before progress is recorded. */
  function RunOperation(o: Oracle, st: St, step: Step, inspection: Inspection): (r: Outcome)
    ensures Holds(st, r.st) && FailsAt(r, step.id)
  {
    var id := step.id;
    if inspection == Satisfied || step.checkOnly then
      if o.durableEvidence(id) then RunEvidence(o, st, id)
      else
        var verified := st.Invoke(o, Verify(id));
        if verified.Answer(o) then Outcome(verified.Note(VerifyEvent(id)), None)
        else Outcome(verified, Some(VerifyError(id)))
    else
      match o.recovery(id)
      case RebuildableAudit => RunRebuildable(o, st, id)
      case ManualRecoveryAudit => RunIrreversible(o, st, id)
      case Mixed => RunIrreversible(o, st, id)
      case LosslessBackup => RunLossless(o, st, id)
  }

  function RunLiveStep(o: Oracle, st: St, step: Step, inspection: Inspection): Outcome {
    match inspection
    case Unsupported => Outcome(st, Some(UnsupportedError(step.id)))
    case Inapplicable => RecordSkip(o, st, step.id, true)
    case Advisory(reason) => RecordAdvisory(o, st, step.id, reason)
    case _ => Finish(o, RunOperation(o, st, step, inspection), step.id)
  }

  function Finish(o: Oracle, done: Outcome, id: StepId): Outcome {
    if done.error.Some? then done else CompleteLiveStep(o, done.st, id)
  }

  function PlanEvents(lines: seq<string>): seq<Event> {
    seq(|lines|, i requires 0 <= i < |lines| => PlanEvent(lines[i]))
  }

  function ReportDryRun(o: Oracle, st: St, id: StepId, inspection: Inspection): Outcome {
    var asked := st.Invoke(o, Plan(id));
    if !asked.Answer(o) then Outcome(asked, Some(InspectError(id)))
    else
      var r := asked.report.(events := asked.report.events + PlanEvents(o.plan(asked.world.trace)));
      Outcome(asked.(report :=
        match inspection
        case Inapplicable => r.(events := r.events + [SkipEvent(id)], skipped := r.skipped + 1)
        case Unsupported => r.(failed := r.failed + 1)
        case Advisory(reason) => r.(events := r.events + [AdvisoryEvent(id, reason)], advisories := r.advisories + 1)
        case _ => r.(completed := r.completed + 1)), None)
  }

  function RunInspected(o: Oracle, st: St, step: Step): Outcome {
    var asked := st.Note(InspectEvent(step.id)).Invoke(o, Inspect(step.id));
    if !asked.Answer(o) then Outcome(asked, Some(InspectError(step.id)))
    else
      var inspection := o.inspection(asked.world.trace);
      if o.dryRun then ReportDryRun(o, asked, step.id, inspection)
      else RunLiveStep(o, asked, step, inspection)
  }

  /** The state after policy is settled, and whether the step is to be skipped.
      Consent is asked only for a prompted step of a live run. */
  function Settle(o: Oracle, st: St, step: Step, profile: Profile): (St, bool) {
    match Decide(profile, step.tier, step.risk)
    case Skip => (st, true)
    case Auto => (st, false)
    case Prompt =>
      if o.dryRun then (st, false)
      else
        var asked := st.Invoke(o, AskConsent(step.id));
        (asked, !asked.Answer(o))
  }

  function RunStep(o: Oracle, st: St, step: Step, profile: Profile): Outcome {
    if st.progress.Recorded(step.id) then Outcome(st, None)
    else
      var polled := if o.dryRun then st else st.Invoke(o, PollCancelled);
      if !o.dryRun && polled.Answer(o) then Outcome(polled, Some(CancelledError(step.id)))
      else
        RunSettled(o, Settle(o, polled, step, profile), step)
  }

  function RunSettled(o: Oracle, settled: (St, bool), step: Step): Outcome {
    if settled.1 then RecordSkip(o, settled.0, step.id, !o.dryRun)
    else RunInspected(o, settled.0, step)
  }

  /** Steps in order, stopping at the first error. */
  function Run(o: Oracle, st: St, steps: seq<Step>, profile: Profile): Outcome
    decreases |steps|
  {
    if steps == [] then Outcome(st, None)
    else
      var head := RunStep(o, st, steps[0], profile);
      if head.error.Some? then head else Run(o, head.st, steps[1..], profile)
  }
}
