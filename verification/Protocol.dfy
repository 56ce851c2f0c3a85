/** The engine as a protocol: what a visit does next, read off the calls it has
    made and the answers they got. The engine's nested functions are proved to
    perform exactly these moves. */
module Protocol {
  import opened Wrappers
  import opened Catalog
  import opened ProgressRecord
  import opened Audit
  import opened Backup
  import opened EngineModel
  import opened WriteAhead

  /** One visit: its step, the profile, the length of the trace and the progress when it begins. */
  datatype Visit = Visit(step: Step, profile: Profile, start: nat, before: Progress)

  datatype Move = Make(call: Call) | End(error: Option<EngineError>)

  /** The call made `k` calls before the last one. */
  function Back(t: seq<Call>, k: nat): Call {
    if k < |t| then t[|t| - 1 - k] else PollCancelled
  }

  function Number(phase: Phase): nat { if phase == One then 1 else if phase == Two then 2 else 3 }

  function AsCompleted(p: Progress, id: StepId, at: string): Progress {
    p.(phase := Number(id.phase), lastCompleted := id.number, completed := p.completed + {id},
       skipped := p.skipped - {id}, advisories := p.advisories - {id}, timestamps := p.timestamps[id := at])
  }

  function AsSkipped(p: Progress, id: StepId): Progress {
    p.(phase := Number(id.phase), lastSkipped := if id.number > p.lastSkipped then id.number else p.lastSkipped,
       completed := p.completed - {id}, skipped := p.skipped + {id}, advisories := p.advisories - {id})
  }

  function AsAdvised(p: Progress, id: StepId, reason: string): Progress {
    p.(phase := Number(id.phase), completed := p.completed - {id}, skipped := p.skipped - {id},
       advisories := p.advisories[id := reason])
  }

  function Opening(o: Oracle, v: Visit): Move {
    var id := v.step.id;
    if id in v.before.completed || id in v.before.skipped || id in v.before.advisories then End(None)
    else if !o.dryRun then Make(PollCancelled)
    else if RunsUnasked(v.profile, v.step.tier, v.step.risk) || RunsIfAgreed(v.profile, v.step.tier, v.step.risk) then
      Make(Inspect(id))
    else End(None)
  }

  function AfterPoll(v: Visit): Move {
    var id := v.step.id;
    if RunsUnasked(v.profile, v.step.tier, v.step.risk) then Make(Inspect(id))
    else if RunsIfAgreed(v.profile, v.step.tier, v.step.risk) then Make(AskConsent(id))
    else Make(PersistProgress(AsSkipped(v.before, id)))
  }

  function AfterInspection(o: Oracle, v: Visit, found: Inspection): Move {
    var id := v.step.id;
    if o.dryRun then Make(Plan(id))
    else
      match found
      case Unsupported => End(Some(UnsupportedError(id)))
      case Inapplicable => Make(PersistProgress(AsSkipped(v.before, id)))
      case Advisory(reason) => Make(PersistProgress(AsAdvised(v.before, id, reason)))
      case Satisfied => Make(if o.durableEvidence(id) then CaptureEvidence(id) else Verify(id))
      case NeedsApply =>
        Make(
          if v.step.checkOnly then if o.durableEvidence(id) then CaptureEvidence(id) else Verify(id)
          else if o.recovery(id) == RebuildableAudit then CaptureAudit(id)
          else if o.recovery(id) == ManualRecoveryAudit then CaptureIrreversible(id)
          else CaptureBackups(id))
  }

  /** After an answered verification: `base` is the last call before the apply, if there was one. */
  function AfterVerify(o: Oracle, v: Visit, t: seq<Call>): Move {
    var id := v.step.id;
    if Back(t, 1).Apply? && Back(t, 2).PersistIrreversible? then
      Make(if o.ok(t) then FinalizeIrreversible(Back(t, 2).irreversible.(outcome := Verified(o.clock(t))))
           else FailIrreversible(Back(t, 2).irreversible.(outcome := Failed(o.clock(t)))))
    else if !o.ok(t) then End(Some(VerifyError(id)))
    else if Back(t, 1).Apply? && Back(t, 2).PersistAudit? then
      Make(FinalizeAudit(Back(t, 2).audit.(outcome := VerifiedRebuild(o.clock(t)))))
    else Make(PersistProgress(AsCompleted(v.before, id, o.clock(t))))
  }

  function AfterApply(o: Oracle, v: Visit, t: seq<Call>): Move {
    if o.ok(t) then Make(Verify(v.step.id))
    else if Back(t, 1).PersistIrreversible? then
      Make(FailIrreversible(Back(t, 1).irreversible.(outcome := Failed(o.clock(t)))))
    else End(Some(ApplyError(v.step.id)))
  }

  function Next(o: Oracle, v: Visit, w: World): Move {
    var t, id := w.trace, v.step.id;
    if |t| <= v.start then Opening(o, v)
    else
      var ok := o.ok(t);
      match t[|t| - 1]
      case PollCancelled => if ok then End(Some(CancelledError(id))) else AfterPoll(v)
      case AskConsent(_) => Make(if ok then Inspect(id) else PersistProgress(AsSkipped(v.before, id)))
      case Inspect(_) => if ok then AfterInspection(o, v, o.inspection(t)) else End(Some(InspectError(id)))
      case Plan(_) => End(if ok then None else Some(InspectError(id)))
      case CaptureBackups(_) =>
        var batch := Snapshot(o.captured(t), w.resources);
        if ok && batch != [] then Make(PersistBackups(batch)) else End(Some(BackupError(id)))
      case PersistBackups(_) =>
        if !ok then End(Some(PersistError(id)))
        else Make(if o.recovery(id) == Mixed then CaptureIrreversible(id) else Apply(id))
      case CaptureAudit(_) =>
        if ok && o.audit(t).IsValidPendingFor(id) then Make(PersistAudit(o.audit(t)))
        else End(Some(AuditCaptureError(id)))
      case CaptureIrreversible(_) =>
        if ok && o.irreversible(t).IsValidPendingFor(o.recovery(id), id) then Make(PersistIrreversible(o.irreversible(t)))
        else End(Some(AuditCaptureError(id)))
      case PersistAudit(_) => if ok then Make(Apply(id)) else End(Some(AuditPersistError(id)))
      case PersistIrreversible(_) => if ok then Make(Apply(id)) else End(Some(AuditPersistError(id)))
      case CaptureEvidence(_) =>
        if ok && o.receipt(t).wellFormed && o.receipt(t).step == id then Make(PersistEvidence(o.receipt(t)))
        else End(Some(EvidenceCaptureError(id)))
      case PersistEvidence(receipt) =>
        if ok then Make(VerifyEvidence(id, receipt)) else End(Some(EvidencePersistError(id)))
      case VerifyEvidence(_, _) => if ok then Make(Verify(id)) else End(Some(EvidenceVerifyError(id)))
      case Apply(_) => AfterApply(o, v, t)
      case Verify(_) => AfterVerify(o, v, t)
      case FinalizeAudit(_) => Closing(o, v, t)
      case FinalizeIrreversible(_) => Closing(o, v, t)
      case FailIrreversible(_) =>
        End(Some(if !ok then AuditFailurePersistError(id)
                 else if Back(t, 1).Apply? then ApplyError(id) else VerifyError(id)))
      case PersistProgress(_) => End(if ok then None else Some(ProgressError(id)))
  }

  function Closing(o: Oracle, v: Visit, t: seq<Call>): Move {
    if o.ok(t) then Make(PersistProgress(AsCompleted(v.before, v.step.id, o.clock(t))))
    else End(Some(AuditFinalizeError(v.step.id)))
  }

  /** Each of these calls is the protocol's next one. */
  ghost predicate Follows(o: Oracle, v: Visit, w: World, calls: seq<Call>) {
    calls == [] ||
    (var n := |calls| - 1;
     Follows(o, v, w, calls[..n]) && Next(o, v, Replay(o, w, calls[..n])) == Make(calls[n]))
  }

  /** The protocol leads from `w` to `w'`. */
  ghost predicate Performed(o: Oracle, v: Visit, w: World, w': World) {
    && w.trace <= w'.trace
    && Follows(o, v, w, w'.trace[|w.trace|..])
    && w' == Replay(o, w, w'.trace[|w.trace|..])
  }

  lemma PerformStep(o: Oracle, v: Visit, w: World, w': World, c: Call)
    requires Performed(o, v, w, w') && Next(o, v, w') == Make(c)
    ensures Performed(o, v, w, Do(o, w', c))
  {
    hide Next;
    var next := Do(o, w', c);
    assert next.trace == w'.trace + [c];
    var calls := next.trace[|w.trace|..];
    assert calls[..|calls| - 1] == w'.trace[|w.trace|..];
  }

  /** The protocol leads to this outcome: an error is where it ends, otherwise it goes on
      to record the completed step. */
  ghost predicate Leads(o: Oracle, v: Visit, w: World, r: Outcome) {
    && Performed(o, v, w, r.st.world)
    && |r.st.world.trace| > v.start
    && if r.error.Some? then Next(o, v, r.st.world) == End(r.error)
       else Next(o, v, r.st.world) == Make(PersistProgress(AsCompleted(v.before, v.step.id, o.clock(r.st.world.trace))))
  }

  /** A call of this visit is about to be made from this state. */
  ghost predicate Ready(o: Oracle, v: Visit, w: World, st: St, c: Call) {
    Performed(o, v, w, st.world) && |st.world.trace| >= v.start && Next(o, v, st.world) == Make(c)
  }

  lemma CaptureLeads(o: Oracle, v: Visit, w: World, st: St)
    requires Ready(o, v, w, st, CaptureBackups(v.step.id))
    ensures var r := CaptureLossless(o, st, v.step.id);
            && (r.error.Some? ==> Leads(o, v, w, r))
            && (r.error.None? ==> Back(r.st.world.trace, 0).PersistBackups?)
            && (r.error.None? ==>
                  Ready(o, v, w, r.st, if o.recovery(v.step.id) == Mixed then CaptureIrreversible(v.step.id) else Apply(v.step.id)))
  {
    hide Performed, Snapshot, PushedAll;
    var id := v.step.id;
    PerformStep(o, v, w, st.world, CaptureBackups(id));
    var asked := st.Note(CaptureBackupEvent(id)).Invoke(o, CaptureBackups(id));
    var entries := Snapshot(o.captured(asked.world.trace), asked.world.resources);
    if asked.Answer(o) && entries != [] {
      PerformStep(o, v, w, asked.world, PersistBackups(entries));
    }
  }

  lemma ApplyMoves(o: Oracle, v: Visit, w: World)
    requires |w.trace| >= v.start
    ensures var id, base := v.step.id, Back(w.trace, 0);
            var a := Do(o, w, Apply(id));
            var b := Do(o, a, Verify(id));
            && a.trace == w.trace + [Apply(id)]
            && Next(o, v, a) == AfterApply(o, v, a.trace) && (w.trace != [] ==> Back(a.trace, 1) == base)
            && b.trace == a.trace + [Verify(id)]
            && Next(o, v, b) == AfterVerify(o, v, b.trace)
            && Back(b.trace, 1) == Apply(id) && (w.trace != [] ==> Back(b.trace, 2) == base)
  {
  }

  lemma ApplyPerforms(o: Oracle, v: Visit, w: World, st: St)
    requires Ready(o, v, w, st, Apply(v.step.id)) && st.world.trace != []
    ensures var r, id, base := ApplyAndVerify(o, st, v.step.id), v.step.id, Back(st.world.trace, 0);
            var t := r.st.world.trace;
            && Performed(o, v, w, r.st.world) && |t| > v.start
            && (r.error.None? ==> o.ok(t) && Next(o, v, r.st.world) == AfterVerify(o, v, t) && Back(t, 1) == Apply(id) && Back(t, 2) == base)
            && (r.error == Some(ApplyError(id)) ==> !o.ok(t) && Next(o, v, r.st.world) == AfterApply(o, v, t) && Back(t, 1) == base && Back(t, 0) == Apply(id))
            && (r.error == Some(VerifyError(id)) ==>
                  !o.ok(t) && Next(o, v, r.st.world) == AfterVerify(o, v, t) && Back(t, 1) == Apply(id) && Back(t, 2) == base && Back(t, 0) == Verify(id))
            && (r.error.None? || r.error == Some(ApplyError(id)) || r.error == Some(VerifyError(id)))
  {
    hide Performed, Next, Do, AfterApply, AfterVerify;
    var id := v.step.id;
    ApplyMoves(o, v, st.world);
    PerformStep(o, v, w, st.world, Apply(id));
    if o.ok(st.world.trace + [Apply(id)]) {
      assert Next(o, v, Do(o, st.world, Apply(id))) == Make(Verify(id)) by { ApplyGoesOn(o, v, st.world.trace + [Apply(id)]); }
      PerformStep(o, v, w, Do(o, st.world, Apply(id)), Verify(id));
    }
  }

  lemma ApplyGoesOn(o: Oracle, v: Visit, t: seq<Call>)
    requires o.ok(t)
    ensures AfterApply(o, v, t) == Make(Verify(v.step.id))
  {
  }

  lemma ApplyLeads(o: Oracle, v: Visit, w: World, st: St)
    requires Ready(o, v, w, st, Apply(v.step.id)) && Back(st.world.trace, 0).PersistBackups?
    ensures Leads(o, v, w, ApplyAndVerify(o, st, v.step.id))
  {
    hide Performed, Next, Do, ApplyAndVerify, Back;
    NotEmpty(st.world.trace);
    ApplyPerforms(o, v, w, st);
  }

  lemma NotEmpty(t: seq<Call>)
    requires !Back(t, 0).PollCancelled?
    ensures t != []
  {
  }

  lemma LosslessLeads(o: Oracle, v: Visit, w: World, st: St)
    requires Ready(o, v, w, st, CaptureBackups(v.step.id)) && o.recovery(v.step.id) == LosslessBackup
    ensures Leads(o, v, w, RunLossless(o, st, v.step.id))
  {
    hide Leads, Ready, CaptureLossless, ApplyAndVerify;
    CaptureLeads(o, v, w, st);
    var kept := CaptureLossless(o, st, v.step.id);
    if kept.error.None? { ApplyLeads(o, v, w, kept.st); }
  }

  lemma EvidenceMoves(o: Oracle, v: Visit, w: World, receipt: Receipt)
    requires |w.trace| >= v.start
    ensures var id := v.step.id;
            var a, b, c := Do(o, w, CaptureEvidence(id)), Do(o, w, PersistEvidence(receipt)), Do(o, w, VerifyEvidence(id, receipt));
            && a.trace == w.trace + [CaptureEvidence(id)]
            && Next(o, v, a) == (if o.ok(a.trace) && o.receipt(a.trace).IsValidFor(id) then Make(PersistEvidence(o.receipt(a.trace)))
                                 else End(Some(EvidenceCaptureError(id))))
            && b.trace == w.trace + [PersistEvidence(receipt)]
            && Next(o, v, b) == (if o.ok(b.trace) then Make(VerifyEvidence(id, receipt)) else End(Some(EvidencePersistError(id))))
            && c.trace == w.trace + [VerifyEvidence(id, receipt)] && Back(c.trace, 0) == VerifyEvidence(id, receipt)
            && Next(o, v, c) == (if o.ok(c.trace) then Make(Verify(id)) else End(Some(EvidenceVerifyError(id))))
  {
  }

  /** A verification that no apply of the same visit precedes. */
  lemma VerifyMoves(o: Oracle, v: Visit, w: World)
    requires |w.trace| >= v.start && !Back(w.trace, 0).Apply?
    ensures var id := v.step.id;
            var d := Do(o, w, Verify(id));
            && d.trace == w.trace + [Verify(id)]
            && Next(o, v, d) == (if o.ok(d.trace) then Make(PersistProgress(AsCompleted(v.before, id, o.clock(d.trace))))
                                 else End(Some(VerifyError(id))))
  {
  }

  lemma EvidenceLeads(o: Oracle, v: Visit, w: World, st: St)
    requires Ready(o, v, w, st, CaptureEvidence(v.step.id))
    ensures Leads(o, v, w, RunEvidence(o, st, v.step.id))
  {
    hide Performed, Next, Do, Receipt.IsValidFor, Back;
    var id := v.step.id;
    var a := Do(o, st.world, CaptureEvidence(id));
    PerformStep(o, v, w, st.world, CaptureEvidence(id));
    var receipt := o.receipt(a.trace);
    EvidenceMoves(o, v, st.world, receipt);
    if o.ok(a.trace) && receipt.IsValidFor(id) {
      var b := Do(o, a, PersistEvidence(receipt));
      EvidenceMoves(o, v, a, receipt);
      PerformStep(o, v, w, a, PersistEvidence(receipt));
      if o.ok(b.trace) {
        var c := Do(o, b, VerifyEvidence(id, receipt));
        EvidenceMoves(o, v, b, receipt);
        PerformStep(o, v, w, b, VerifyEvidence(id, receipt));
        if o.ok(c.trace) {
          VerifyMoves(o, v, c);
          PerformStep(o, v, w, c, Verify(id));
        }
      }
    }
  }

  lemma VerifyLeads(o: Oracle, v: Visit, w: World, st: St)
    requires Ready(o, v, w, st, Verify(v.step.id)) && Back(st.world.trace, 0).Inspect?
    ensures var verified := st.Invoke(o, Verify(v.step.id));
            Leads(o, v, w, if verified.Answer(o) then Outcome(verified.Note(VerifyEvent(v.step.id)), None)
                           else Outcome(verified, Some(VerifyError(v.step.id))))
  {
    hide Performed;
    PerformStep(o, v, w, st.world, Verify(v.step.id));
  }

  lemma CloseMoves(o: Oracle, v: Visit, w: World, c: Call)
    requires |w.trace| >= v.start && (c.FinalizeAudit? || c.FinalizeIrreversible? || c.FailIrreversible?)
    ensures var id, d := v.step.id, Do(o, w, c);
            && d.trace == w.trace + [c]
            && Next(o, v, d) == (if !c.FailIrreversible? then Closing(o, v, d.trace)
                                 else if !o.ok(d.trace) then End(Some(AuditFailurePersistError(id)))
                                 else End(Some(if Back(w.trace, 0).Apply? then ApplyError(id) else VerifyError(id))))
  {
  }

  lemma CloseRebuildableLeads(o: Oracle, v: Visit, w: World, st: St, audit: Rebuildable)
    requires Ready(o, v, w, st, Apply(v.step.id)) && Back(st.world.trace, 0) == PersistAudit(audit)
    ensures Leads(o, v, w, CloseRebuildable(o, ApplyAndVerify(o, st, v.step.id), audit, v.step.id))
  {
    hide Performed, Ready, ApplyAndVerify, Next, Do, Back;
    NotEmpty(st.world.trace);
    ApplyPerforms(o, v, w, st);
    var applied := ApplyAndVerify(o, st, v.step.id);
    if applied.error.None? {
      var closing := FinalizeAudit(audit.Finalized(o.clock(applied.st.world.trace)));
      PerformStep(o, v, w, applied.st.world, closing);
      CloseMoves(o, v, applied.st.world, closing);
    }
  }

  lemma RebuildableLeads(o: Oracle, v: Visit, w: World, st: St)
    requires Ready(o, v, w, st, CaptureAudit(v.step.id))
    ensures Leads(o, v, w, RunRebuildable(o, st, v.step.id))
  {
    hide Performed, ApplyAndVerify, CloseRebuildable, Rebuildable.IsValidPendingFor;
    var id := v.step.id;
    var a := Do(o, st.world, CaptureAudit(id));
    PerformStep(o, v, w, st.world, CaptureAudit(id));
    var audit := o.audit(a.trace);
    if o.ok(a.trace) && audit.IsValidPendingFor(id) {
      var b := Do(o, a, PersistAudit(audit));
      PerformStep(o, v, w, a, PersistAudit(audit));
      if o.ok(b.trace) {
        CloseRebuildableLeads(o, v, w, st.(world := b, report := st.report.(
          events := st.report.events + [CaptureAuditEvent(id)] + [PersistAuditEvent(id)])), audit);
      }
    }
  }

  lemma CloseIrreversibleLeads(o: Oracle, v: Visit, w: World, st: St, audit: Irreversible)
    requires Ready(o, v, w, st, Apply(v.step.id)) && Back(st.world.trace, 0) == PersistIrreversible(audit)
    ensures Leads(o, v, w, CloseIrreversible(o, ApplyAndVerify(o, st, v.step.id), audit, v.step.id))
  {
    hide Performed, Ready, ApplyAndVerify, Next, Do, Back;
    NotEmpty(st.world.trace);
    ApplyPerforms(o, v, w, st);
    var applied := ApplyAndVerify(o, st, v.step.id);
    var now := o.clock(applied.st.world.trace);
    var closing := if applied.error.Some? then FailIrreversible(audit.Fail(now)) else FinalizeIrreversible(audit.Finalize(now));
    assert Next(o, v, applied.st.world) == Make(closing);
    PerformStep(o, v, w, applied.st.world, closing);
    CloseMoves(o, v, applied.st.world, closing);
  }

  lemma PendingLeads(o: Oracle, v: Visit, w: World, st: St)
    requires Ready(o, v, w, st, CaptureIrreversible(v.step.id))
    ensures Leads(o, v, w, RunPendingIrreversible(o, st, v.step.id, o.recovery(v.step.id)))
  {
    hide Performed, ApplyAndVerify, CloseIrreversible, Irreversible.IsValidPendingFor;
    var id := v.step.id;
    var a := Do(o, st.world, CaptureIrreversible(id));
    PerformStep(o, v, w, st.world, CaptureIrreversible(id));
    var audit := o.irreversible(a.trace);
    if o.ok(a.trace) && audit.IsValidPendingFor(o.recovery(id), id) {
      var b := Do(o, a, PersistIrreversible(audit));
      PerformStep(o, v, w, a, PersistIrreversible(audit));
      if o.ok(b.trace) {
        CloseIrreversibleLeads(o, v, w, st.(world := b, report := st.report.(
          events := st.report.events + [CaptureAuditEvent(id)] + [PersistAuditEvent(id)])), audit);
      }
    }
  }

  lemma OperationLeads(o: Oracle, v: Visit, w: World, st: St, found: Inspection)
    requires Performed(o, v, w, st.world) && |st.world.trace| > v.start && Back(st.world.trace, 0).Inspect?
    requires found == Satisfied || found == NeedsApply
    requires Next(o, v, st.world) == AfterInspection(o, v, found) && !o.dryRun
    ensures Leads(o, v, w, RunOperation(o, st, v.step, found))
  {
    hide Leads, Performed, Next, RunEvidence, RunRebuildable, RunPendingIrreversible, CaptureLossless, ApplyAndVerify;
    var id := v.step.id;
    if found == Satisfied || v.step.checkOnly {
      if o.durableEvidence(id) {
        EvidenceLeads(o, v, w, st);
      } else {
        VerifyLeads(o, v, w, st);
      }
    } else if o.recovery(id) == RebuildableAudit {
      RebuildableLeads(o, v, w, st);
    } else if o.recovery(id) == ManualRecoveryAudit {
      PendingLeads(o, v, w, st);
    } else if o.recovery(id) == LosslessBackup {
      LosslessLeads(o, v, w, st);
    } else {
      CaptureLeads(o, v, w, st);
      var kept := CaptureLossless(o, st, id);
      if kept.error.None? { PendingLeads(o, v, w, kept.st); }
    }
  }

  /** What the protocol says of a whole visit: where it ends, with what, and the progress then in memory. */
  ghost predicate Finished(o: Oracle, v: Visit, w: World, r: Outcome) {
    && Performed(o, v, w, r.st.world)
    && Next(o, v, r.st.world) == End(r.error)
    && r.st.progress == Kept(o, v, r.st.world.trace)
  }

  /** The progress in memory: the record that the visit stored last, or the one it began with. */
  function Kept(o: Oracle, v: Visit, t: seq<Call>): Progress {
    if |t| > v.start && t[|t| - 1].PersistProgress? && o.ok(t) then t[|t| - 1].progress else v.before
  }

  lemma RecordFinishes(o: Oracle, v: Visit, w: World, st: St, r: Outcome, p: Progress)
    requires Ready(o, v, w, st, PersistProgress(p)) && st.progress == v.before
    requires r.st.world == Do(o, st.world, PersistProgress(p))
    requires r.error == (if o.ok(r.st.world.trace) then None else Some(ProgressError(v.step.id)))
    requires r.st.progress == if o.ok(r.st.world.trace) then p else v.before
    ensures Finished(o, v, w, r)
  {
    hide Performed;
    PerformStep(o, v, w, st.world, PersistProgress(p));
  }

  lemma FinishFinishes(o: Oracle, v: Visit, w: World, done: Outcome)
    requires Leads(o, v, w, done) && done.st.progress == v.before
    ensures Finished(o, v, w, Finish(o, done, v.step.id))
  {
    hide Performed, Next, Finished;
    if done.error.None? {
      var id, at := v.step.id, o.clock(done.st.world.trace);
      assert done.st.progress.Complete(id, at) == AsCompleted(v.before, id, at);
      RecordFinishes(o, v, w, done.st, Finish(o, done, id), AsCompleted(v.before, id, at));
    } else {
      ErrorFinishes(o, v, w, done);
    }
  }

  lemma ErrorFinishes(o: Oracle, v: Visit, w: World, done: Outcome)
    requires Performed(o, v, w, done.st.world) && Next(o, v, done.st.world) == End(done.error)
    requires done.st.progress == v.before && done.error.Some?
    ensures Finished(o, v, w, done)
  {
    hide Performed;
  }

  lemma LiveFinishes(o: Oracle, v: Visit, w: World, st: St, found: Inspection)
    requires Performed(o, v, w, st.world) && |st.world.trace| > v.start && Back(st.world.trace, 0).Inspect?
    requires Next(o, v, st.world) == AfterInspection(o, v, found) && !o.dryRun && st.progress == v.before
    ensures Finished(o, v, w, RunLiveStep(o, st, v.step, found))
  {
    hide Leads, Performed, Finished, Next, Finish, RunOperation;
    var id := v.step.id;
    match found
    case Unsupported => ErrorFinishes(o, v, w, Outcome(st, Some(UnsupportedError(id))));
    case Inapplicable => SkipFinishes(o, v, w, st);
    case Advisory(reason) =>
      RecordFinishes(o, v, w, st, RecordAdvisory(o, st, id, reason), st.progress.AcknowledgeAdvisory(id, reason));
    case _ =>
      OperationLeads(o, v, w, st, found);
      FinishFinishes(o, v, w, RunOperation(o, st, v.step, found));
  }

  lemma SkipFinishes(o: Oracle, v: Visit, w: World, st: St)
    requires Ready(o, v, w, st, PersistProgress(AsSkipped(v.before, v.step.id))) && st.progress == v.before
    ensures Finished(o, v, w, RecordSkip(o, st, v.step.id, true))
  {
    hide Performed, Finished, Next;
    assert st.progress.Skip(v.step.id) == AsSkipped(v.before, v.step.id);
    RecordFinishes(o, v, w, st, RecordSkip(o, st, v.step.id, true), AsSkipped(v.before, v.step.id));
  }

  lemma InspectMoves(o: Oracle, v: Visit, w: World)
    requires |w.trace| >= v.start
    ensures var id, a := v.step.id, Do(o, w, Inspect(v.step.id));
            && a.trace == w.trace + [Inspect(id)]
            && Next(o, v, a) == (if o.ok(a.trace) then AfterInspection(o, v, o.inspection(a.trace)) else End(Some(InspectError(id))))
            && var b := Do(o, w, Plan(id));
            && b.trace == w.trace + [Plan(id)]
            && Next(o, v, b) == End(if o.ok(b.trace) then None else Some(InspectError(id)))
  {
  }

  lemma InspectedFinishes(o: Oracle, v: Visit, w: World, st: St)
    requires Ready(o, v, w, st, Inspect(v.step.id)) && st.progress == v.before
    ensures Finished(o, v, w, RunInspected(o, st, v.step))
  {
    hide Performed, Next, RunLiveStep, Do;
    var id := v.step.id;
    var asked := st.Note(InspectEvent(id)).Invoke(o, Inspect(id));
    InspectMoves(o, v, st.world);
    PerformStep(o, v, w, st.world, Inspect(id));
    if asked.Answer(o) {
      if o.dryRun {
        InspectMoves(o, v, asked.world);
        PerformStep(o, v, w, asked.world, Plan(id));
      } else {
        LiveFinishes(o, v, w, asked, o.inspection(asked.world.trace));
      }
    }
  }

  lemma SettledFinishes(o: Oracle, v: Visit, w: World, settled: (St, bool))
    requires settled.0.progress == v.before && Performed(o, v, w, settled.0.world) && |settled.0.world.trace| >= v.start
    requires o.dryRun ==> settled.0.world.trace == w.trace && v.start == |w.trace|
    requires Next(o, v, settled.0.world) ==
             if !settled.1 then Make(Inspect(v.step.id))
             else if o.dryRun then End(None) else Make(PersistProgress(AsSkipped(v.before, v.step.id)))
    ensures Finished(o, v, w, RunSettled(o, settled, v.step))
  {
    hide Performed, Next, RunInspected;
    if settled.1 {
      if !o.dryRun { SkipFinishes(o, v, w, settled.0); }
    } else {
      InspectedFinishes(o, v, w, settled.0);
    }
  }

  lemma PollMoves(o: Oracle, v: Visit, w: World)
    requires |w.trace| >= v.start
    ensures var id, a, b := v.step.id, Do(o, w, PollCancelled), Do(o, w, AskConsent(v.step.id));
            && a.trace == w.trace + [PollCancelled]
            && Next(o, v, a) == (if o.ok(a.trace) then End(Some(CancelledError(id))) else AfterPoll(v))
            && b.trace == w.trace + [AskConsent(id)]
            && Next(o, v, b) == Make(if o.ok(b.trace) then Inspect(id) else PersistProgress(AsSkipped(v.before, id)))
  {
  }

  lemma SettleMoves(o: Oracle, v: Visit, w: World, st: St)
    requires Performed(o, v, w, st.world) && |st.world.trace| >= v.start && !o.dryRun && Next(o, v, st.world) == AfterPoll(v)
    ensures var settled := Settle(o, st, v.step, v.profile);
            && settled.0.progress == st.progress && Performed(o, v, w, settled.0.world) && |settled.0.world.trace| >= v.start
            && Next(o, v, settled.0.world) ==
               Make(if settled.1 then PersistProgress(AsSkipped(v.before, v.step.id)) else Inspect(v.step.id))
  {
    hide Performed, Next, Do, Decide, RunsUnasked, RunsIfAgreed;
    DecideIff(v.profile, v.step.tier, v.step.risk);
    PollMoves(o, v, st.world);
    if Decide(v.profile, v.step.tier, v.step.risk) == Prompt {
      PerformStep(o, v, w, st.world, AskConsent(v.step.id));
    }
  }

  lemma PerformNone(o: Oracle, v: Visit, w: World)
    ensures Performed(o, v, w, w)
  {
    assert w.trace[|w.trace|..] == [];
  }

  /** A visit of the engine makes the calls of the protocol, one by one, and ends where and
      how the protocol ends. */
  lemma VisitFollows(o: Oracle, st: St, step: Step, profile: Profile)
    ensures Finished(o, Visit(step, profile, |st.world.trace|, st.progress), st.world, RunStep(o, st, step, profile))
  {
    hide Performed, Settle, RunSettled, Do, Next, RunsUnasked, RunsIfAgreed;
    var v := Visit(step, profile, |st.world.trace|, st.progress);
    PerformNone(o, v, st.world);
    VisitOpens(o, v, st.world);
    if !st.progress.Recorded(step.id) {
      if o.dryRun {
        DecideIff(profile, step.tier, step.risk);
        DrySettle(o, st, step, profile);
        SettledFinishes(o, v, st.world, Settle(o, st, step, profile));
      } else {
        PollMoves(o, v, st.world);
        PerformStep(o, v, st.world, st.world, PollCancelled);
        var polled := st.Invoke(o, PollCancelled);
        if polled.Answer(o) {
          ErrorFinishes(o, v, st.world, Outcome(polled, Some(CancelledError(step.id))));
        } else {
          SettleMoves(o, v, st.world, polled);
          SettledFinishes(o, v, st.world, Settle(o, polled, step, profile));
        }
      }
    }
  }

  lemma VisitOpens(o: Oracle, v: Visit, w: World)
    requires |w.trace| == v.start
    ensures Next(o, v, w) == Opening(o, v)
  {
  }

  lemma DrySettle(o: Oracle, st: St, step: Step, profile: Profile)
    requires o.dryRun
    ensures Settle(o, st, step, profile) == (st, Decide(profile, step.tier, step.risk) == Skip)
  {
  }

  /** There is no other way to follow the protocol to its end. */
  lemma {:induction false} OnlyOneWay(o: Oracle, v: Visit, w: World, a: World, b: World)
    requires Performed(o, v, w, a) && Performed(o, v, w, b) && Next(o, v, a).End? && Next(o, v, b).End?
    ensures a == b
    decreases |a.trace| > |b.trace|
  {
    hide Next;
    var x, y := a.trace[|w.trace|..], b.trace[|w.trace|..];
    if |x| > |y| {
      OnlyOneWay(o, v, w, b, a);
    } else {
      SamePrefix(o, v, w, x, y);
      EndsThere(o, v, w, y, |x|);
      assert y[..|x|] == y;
    }
  }

  lemma {:induction false} FollowsAt(o: Oracle, v: Visit, w: World, calls: seq<Call>, i: nat)
    requires Follows(o, v, w, calls) && i < |calls|
    ensures Follows(o, v, w, calls[..i]) && Next(o, v, Replay(o, w, calls[..i])) == Make(calls[i])
  {
    hide Next;
    var n := |calls| - 1;
    if i < n {
      FollowsAt(o, v, w, calls[..n], i);
      assert calls[..n][..i] == calls[..i];
    }
  }

  lemma EndsThere(o: Oracle, v: Visit, w: World, calls: seq<Call>, n: nat)
    requires Follows(o, v, w, calls) && n <= |calls| && Next(o, v, Replay(o, w, calls[..n])).End?
    ensures n == |calls|
  {
    hide Next;
    if n < |calls| { FollowsAt(o, v, w, calls, n); }
  }

  lemma {:induction false} SamePrefix(o: Oracle, v: Visit, w: World, x: seq<Call>, y: seq<Call>)
    requires Follows(o, v, w, x) && Follows(o, v, w, y) && |x| <= |y|
    ensures x == y[..|x|]
  {
    hide Next;
    if x != [] {
      var n := |x| - 1;
      SamePrefix(o, v, w, x[..n], y);
      FollowsAt(o, v, w, y, n);
      assert x == x[..n] + [x[n]];
    }
  }
}
