/** The engine itself: an object that updates its progress, drives a mutable
    backend and appends to a mutable report. Each method is proved to do what
    `EngineModel` says. */
module Engine {
  import opened Wrappers
  import opened Catalog
  import opened ProgressRecord
  import opened Audit
  import opened Backup
  import Model = EngineModel
  import opened EngineModel

  class Backend {
    const oracle: Oracle
    var world: World

    constructor (oracle: Oracle, world: World)
      ensures this.oracle == oracle && this.world == world
    {
      this.oracle, this.world := oracle, world;
    }

    method Invoke(c: Call) returns (ok: bool)
      modifies this
      ensures world == Do(oracle, old(world), c)
      ensures ok == oracle.ok(world.trace)
    {
      world := Do(oracle, world, c);
      ok := oracle.ok(world.trace);
    }
  }

  class RunReport {
    var events: seq<Event>
    var completed: nat
    var skipped: nat
    var advisories: nat
    var failed: nat

    constructor ()
      ensures Value() == EmptyReport()
    {
      events, completed, skipped, advisories, failed := [], 0, 0, 0, 0;
    }

    function Value(): Report
      reads this
    {
      Report(events, completed, skipped, advisories, failed)
    }

    method Note(e: Event)
      modifies this`events
      ensures events == old(events) + [e]
    {
      events := events + [e];
    }
  }

  class StepEngine {
    const backend: Backend
    var progress: Progress

    constructor (backend: Backend, progress: Progress)
      ensures this.backend == backend && this.progress == progress
    {
      this.backend, this.progress := backend, progress;
    }

    function State(report: RunReport): St
      reads this, backend, report
    {
      St(backend.world, progress, report.Value())
    }

    method RecordSkip(id: StepId, persist: bool, report: RunReport) returns (error: Option<EngineError>)
      modifies this, backend, report
      ensures Outcome(State(report), error) == Model.RecordSkip(backend.oracle, old(State(report)), id, persist)
    {
      report.Note(SkipEvent(id));
      if persist {
        var p := progress.Skip(id);
        var ok := backend.Invoke(PersistProgress(p));
        if !ok { return Some(ProgressError(id)); }
        progress := p;
      }
      report.skipped := report.skipped + 1;
      return None;
    }

    method RecordAdvisory(id: StepId, reason: string, report: RunReport) returns (error: Option<EngineError>)
      modifies this, backend, report
      ensures Outcome(State(report), error) == Model.RecordAdvisory(backend.oracle, old(State(report)), id, reason)
    {
      var p := progress.AcknowledgeAdvisory(id, reason);
      var ok := backend.Invoke(PersistProgress(p));
      if !ok { return Some(ProgressError(id)); }
      progress := p;
      report.Note(AdvisoryEvent(id, reason));
      report.advisories := report.advisories + 1;
      return None;
    }

    method CompleteLiveStep(id: StepId, report: RunReport) returns (error: Option<EngineError>)
      modifies this, backend, report
      ensures Outcome(State(report), error) == Model.CompleteLiveStep(backend.oracle, old(State(report)), id)
    {
      var p := progress.Complete(id, backend.oracle.clock(backend.world.trace));
      var ok := backend.Invoke(PersistProgress(p));
      if !ok { return Some(ProgressError(id)); }
      progress := p;
      report.Note(CompleteEvent(id));
      report.completed := report.completed + 1;
      return None;
    }

    method CaptureLossless(id: StepId, report: RunReport) returns (error: Option<EngineError>)
      modifies backend, report
      ensures Outcome(State(report), error) == Model.CaptureLossless(backend.oracle, old(State(report)), id)
    {
      report.Note(CaptureBackupEvent(id));
      var ok := backend.Invoke(CaptureBackups(id));
      if !ok { return Some(BackupError(id)); }
      var entries := Snapshot(backend.oracle.captured(backend.world.trace), backend.world.resources);
      if entries == [] { return Some(BackupError(id)); }
      ok := backend.Invoke(PersistBackups(entries));
      if !ok { return Some(PersistError(id)); }
      report.Note(PersistBackupEvent(id));
      return None;
    }

    method ApplyAndVerify(id: StepId, report: RunReport) returns (error: Option<EngineError>)
      modifies backend, report
      ensures Outcome(State(report), error) == Model.ApplyAndVerify(backend.oracle, old(State(report)), id)
    {
      var ok := backend.Invoke(Apply(id));
      if !ok { return Some(ApplyError(id)); }
      report.Note(ApplyEvent(id));
      ok := backend.Invoke(Verify(id));
      if !ok { return Some(VerifyError(id)); }
      report.Note(VerifyEvent(id));
      return None;
    }

    method RunLossless(id: StepId, report: RunReport) returns (error: Option<EngineError>)
      modifies backend, report
      ensures Outcome(State(report), error) == Model.RunLossless(backend.oracle, old(State(report)), id)
    {
      error := CaptureLossless(id, report);
      if error.None? {
        error := ApplyAndVerify(id, report);
      }
    }

    method RunEvidence(id: StepId, report: RunReport) returns (error: Option<EngineError>)
      modifies backend, report
      ensures Outcome(State(report), error) == Model.RunEvidence(backend.oracle, old(State(report)), id)
    {
      report.Note(CaptureEvidenceEvent(id));
      var ok := backend.Invoke(CaptureEvidence(id));
      if !ok { return Some(EvidenceCaptureError(id)); }
      var receipt := backend.oracle.receipt(backend.world.trace);
      if !receipt.IsValidFor(id) { return Some(EvidenceCaptureError(id)); }
      ok := backend.Invoke(PersistEvidence(receipt));
      if !ok { return Some(EvidencePersistError(id)); }
      report.Note(PersistEvidenceEvent(id));
      ok := backend.Invoke(VerifyEvidence(id, receipt));
      if !ok { return Some(EvidenceVerifyError(id)); }
      report.Note(VerifyEvidenceEvent(id));
      ok := backend.Invoke(Verify(id));
      if !ok { return Some(VerifyError(id)); }
      report.Note(VerifyEvent(id));
      return None;
    }

    method RunRebuildable(id: StepId, report: RunReport) returns (error: Option<EngineError>)
      modifies backend, report
      ensures Outcome(State(report), error) == Model.RunRebuildable(backend.oracle, old(State(report)), id)
    {
      report.Note(CaptureAuditEvent(id));
      var ok := backend.Invoke(CaptureAudit(id));
      if !ok { return Some(AuditCaptureError(id)); }
      var audit := backend.oracle.audit(backend.world.trace);
      if !audit.IsValidPendingFor(id) { return Some(AuditCaptureError(id)); }
      ok := backend.Invoke(PersistAudit(audit));
      if !ok { return Some(AuditPersistError(id)); }
      report.Note(PersistAuditEvent(id));
      error := ApplyAndVerify(id, report);
      if error.Some? { return; }
      ok := backend.Invoke(FinalizeAudit(audit.Finalized(backend.oracle.clock(backend.world.trace))));
      if !ok { return Some(AuditFinalizeError(id)); }
      report.Note(FinalizeAuditEvent(id));
    }

    method RunPendingIrreversible(id: StepId, requirement: RecoveryRequirement, report: RunReport)
      returns (error: Option<EngineError>)
      modifies backend, report
      ensures Outcome(State(report), error) ==
              Model.RunPendingIrreversible(backend.oracle, old(State(report)), id, requirement)
    {
      report.Note(CaptureAuditEvent(id));
      var ok := backend.Invoke(CaptureIrreversible(id));
      if !ok { return Some(AuditCaptureError(id)); }
      var audit := backend.oracle.irreversible(backend.world.trace);
      if !audit.IsValidPendingFor(requirement, id) { return Some(AuditCaptureError(id)); }
      ok := backend.Invoke(PersistIrreversible(audit));
      if !ok { return Some(AuditPersistError(id)); }
      report.Note(PersistAuditEvent(id));
      error := ApplyAndVerify(id, report);
      if error.Some? {
        ok := backend.Invoke(FailIrreversible(audit.Fail(backend.oracle.clock(backend.world.trace))));
        if !ok { return Some(AuditFailurePersistError(id)); }
        report.Note(FailAuditEvent(id));
        return;
      }
      ok := backend.Invoke(FinalizeIrreversible(audit.Finalize(backend.oracle.clock(backend.world.trace))));
      if !ok { return Some(AuditFinalizeError(id)); }
      report.Note(FinalizeAuditEvent(id));
    }

    method RunIrreversible(id: StepId, report: RunReport) returns (error: Option<EngineError>)
      modifies backend, report
      ensures Outcome(State(report), error) == Model.RunIrreversible(backend.oracle, old(State(report)), id)
    {
      var requirement := backend.oracle.recovery(id);
      if requirement == Mixed {
        error := CaptureLossless(id, report);
        if error.Some? { return; }
      }
      error := RunPendingIrreversible(id, requirement, report);
    }

    method RunOperation(step: Step, inspection: Inspection, report: RunReport) returns (error: Option<EngineError>)
      modifies backend, report
      ensures Outcome(State(report), error) ==
              Model.RunOperation(backend.oracle, old(State(report)), step, inspection)
    {
      if inspection == Satisfied || step.checkOnly {
        if backend.oracle.durableEvidence(step.id) {
          error := RunEvidence(step.id, report);
        } else {
          var ok := backend.Invoke(Verify(step.id));
          if !ok { return Some(VerifyError(step.id)); }
          report.Note(VerifyEvent(step.id));
          error := None;
        }
      } else {
        match backend.oracle.recovery(step.id) {
          case RebuildableAudit => error := RunRebuildable(step.id, report);
          case ManualRecoveryAudit => error := RunIrreversible(step.id, report);
          case Mixed => error := RunIrreversible(step.id, report);
          case LosslessBackup => error := RunLossless(step.id, report);
        }
      }
    }

    method RunLiveStep(step: Step, inspection: Inspection, report: RunReport) returns (error: Option<EngineError>)
      modifies this, backend, report
      ensures Outcome(State(report), error) ==
              Model.RunLiveStep(backend.oracle, old(State(report)), step, inspection)
    {
      match inspection {
        case Unsupported => error := Some(UnsupportedError(step.id));
        case Inapplicable => error := RecordSkip(step.id, true, report);
        case Advisory(reason) => error := RecordAdvisory(step.id, reason, report);
        case _ =>
          error := RunOperation(step, inspection, report);
          if error.None? {
            error := CompleteLiveStep(step.id, report);
          }
      }
    }

    method ReportDryRun(id: StepId, inspection: Inspection, report: RunReport) returns (error: Option<EngineError>)
      modifies backend, report
      ensures Outcome(State(report), error) ==
              Model.ReportDryRun(backend.oracle, old(State(report)), id, inspection)
    {
      var ok := backend.Invoke(Plan(id));
      if !ok { return Some(InspectError(id)); }
      var lines := backend.oracle.plan(backend.world.trace);
      for i := 0 to |lines|
        invariant backend.world == Do(backend.oracle, old(backend.world), Plan(id))
        invariant report.events == old(report.events) + PlanEvents(lines)[..i]
        invariant report.Value() == old(report.Value()).(events := report.events)
      {
        report.Note(PlanEvent(lines[i]));
      }
      match inspection {
        case Inapplicable =>
          report.Note(SkipEvent(id));
          report.skipped := report.skipped + 1;
        case Unsupported => report.failed := report.failed + 1;
        case Advisory(reason) =>
          report.Note(AdvisoryEvent(id, reason));
          report.advisories := report.advisories + 1;
        case _ => report.completed := report.completed + 1;
      }
      return None;
    }

    method ShouldSkipForPolicy(step: Step, profile: Profile, report: RunReport) returns (skip: bool)
      modifies backend
      ensures (State(report), skip) == Model.Settle(backend.oracle, old(State(report)), step, profile)
    {
      match Decide(profile, step.tier, step.risk) {
        case Skip => skip := true;
        case Auto => skip := false;
        case Prompt =>
          skip := false;
          if !backend.oracle.dryRun {
            var consent := backend.Invoke(AskConsent(step.id));
            skip := !consent;
          }
      }
    }

    method RunStep(step: Step, profile: Profile, report: RunReport) returns (error: Option<EngineError>)
      modifies this, backend, report
      ensures Outcome(State(report), error) == Model.RunStep(backend.oracle, old(State(report)), step, profile)
    {
      if progress.Recorded(step.id) { return None; }
      if !backend.oracle.dryRun {
        var cancelled := backend.Invoke(PollCancelled);
        if cancelled { return Some(CancelledError(step.id)); }
      }
      var skip := ShouldSkipForPolicy(step, profile, report);
      if skip {
        error := RecordSkip(step.id, !backend.oracle.dryRun, report);
        return;
      }
      report.Note(InspectEvent(step.id));
      var ok := backend.Invoke(Inspect(step.id));
      if !ok { return Some(InspectError(step.id)); }
      var inspection := backend.oracle.inspection(backend.world.trace);
      if backend.oracle.dryRun {
        error := ReportDryRun(step.id, inspection, report);
      } else {
        error := RunLiveStep(step, inspection, report);
      }
    }

    method RunWithControl(steps: seq<Step>, profile: Profile)
      returns (report: RunReport, error: Option<EngineError>)
      modifies this, backend
      ensures fresh(report)
      ensures Outcome(State(report), error) ==
              Run(backend.oracle, St(old(backend.world), old(progress), EmptyReport()), steps, profile)
    {
      report := new RunReport();
      ghost var start := State(report);
      var i := 0;
      while i < |steps|
        invariant 0 <= i <= |steps|
        invariant Run(backend.oracle, start, steps, profile) ==
                  Run(backend.oracle, State(report), steps[i..], profile)
      {
        error := RunStep(steps[i], profile, report);
        if error.Some? { return; }
        assert steps[i..][1..] == steps[i + 1..];
        i := i + 1;
      }
      error := None;
    }
  }
}
