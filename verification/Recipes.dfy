/** What a run does before it records a step, on its calls and their answers alone. */
module Recipes {
  import opened Wrappers
  import opened Catalog
  import opened ProgressRecord
  import opened Audit
  import opened Backup
  import opened EngineModel
  import opened WriteAhead
  import opened Protocol

  /** The progress stored last, or the one the run began with. */
  function Standing(o: Oracle, p0: Progress, start: nat, t: seq<Call>): Progress {
    if |t| <= start then p0
    else if t[|t| - 1].PersistProgress? && o.ok(t) then t[|t| - 1].progress
    else Standing(o, p0, start, t[..|t| - 1])
  }

  ghost predicate MovesTo(o: Oracle, v: Visit, t: seq<Call>, c: Call) {
    exists w: World :: w.trace == t && Next(o, v, w) == Make(c)
  }

  /** Every call from the start of the visit on is the protocol's. */
  ghost predicate Moves(o: Oracle, v: Visit, t: seq<Call>) {
    forall k | v.start <= k < |t| :: MovesTo(o, v, t[..k], t[k])
  }

  lemma {:induction false} FollowsMoves(o: Oracle, v: Visit, w: World, calls: seq<Call>)
    requires Follows(o, v, w, calls) && v.start == |w.trace|
    ensures Moves(o, v, w.trace + calls)
  {
    hide Next;
    var t := w.trace + calls;
    forall k | v.start <= k < |t| ensures MovesTo(o, v, t[..k], t[k]) {
      FollowsAt(o, v, w, calls, k - v.start);
      ReplayTrace(o, w, calls[..k - v.start]);
      assert w.trace + calls[..k - v.start] == t[..k];
    }
  }

  lemma RecordIsLast(o: Oracle, v: Visit, t: seq<Call>, c: Call)
    requires |t| > v.start && MovesTo(o, v, t, c)
    ensures !t[|t| - 1].PersistProgress?
  {
  }

  /** Within a visit the progress stands as it did when the visit began. */
  lemma {:induction false} StandingInVisit(o: Oracle, v: Visit, t: seq<Call>)
    requires Moves(o, v, t) && |t| >= v.start
    ensures Standing(o, v.before, v.start, t) == Kept(o, v, t)
    decreases |t|
  {
    hide MovesTo;
    if |t| > v.start {
      var s := t[..|t| - 1];
      assert forall k | v.start <= k < |s| :: s[..k] == t[..k];
      StandingInVisit(o, v, s);
      if |s| > v.start { RecordIsLast(o, v, s, t[|s|]); }
    }
  }

  lemma {:induction false} StandingSplits(o: Oracle, p0: Progress, start: nat, mid: nat, t: seq<Call>)
    requires start <= mid <= |t|
    ensures Standing(o, p0, start, t) == Standing(o, Standing(o, p0, start, t[..mid]), mid, t)
    decreases |t|
  {
    if |t| == mid {
      assert t[..mid] == t;
    } else {
      assert t[..|t| - 1][..mid] == t[..mid];
      StandingSplits(o, p0, start, mid, t[..|t| - 1]);
    }
  }

  lemma FollowedMoves(o: Oracle, v: Visit, w: World, w': World, i: nat)
    requires Performed(o, v, w, w') && v.start == |w.trace| <= i < |w'.trace|
    ensures Moves(o, v, w'.trace) && Moves(o, v, w'.trace[..i + 1])
  {
    hide MovesTo, Next, Follows;
    var t := w'.trace;
    FollowsMoves(o, v, w, t[v.start..]);
    assert w.trace + t[v.start..] == t;
    assert forall k | v.start <= k < i + 1 :: t[..i + 1][..k] == t[..k];
  }

  lemma RunExtends(o: Oracle, st: St, steps: seq<Step>, profile: Profile)
    ensures st.world.trace <= Run(o, st, steps, profile).st.world.trace
  {
    hide Run, Disciplined, ClosedFrom, Replay;
    RunsAreSound(o, st, steps, profile);
  }

  lemma StepExtends(o: Oracle, st: St, step: Step, profile: Profile)
    ensures st.world.trace <= RunStep(o, st, step, profile).st.world.trace
  {
    hide RunStep, Next, Follows;
    VisitFollows(o, st, step, profile);
  }

  lemma StepStanding(o: Oracle, st: St, step: Step, profile: Profile)
    ensures var r, start := RunStep(o, st, step, profile).st, |st.world.trace|;
            r.progress == Standing(o, st.progress, start, r.world.trace)
  {
    hide RunStep, Next, Follows;
    var r, v := RunStep(o, st, step, profile), Visit(step, profile, |st.world.trace|, st.progress);
    VisitFollows(o, st, step, profile);
    var t := r.st.world.trace;
    FollowsMoves(o, v, st.world, t[v.start..]);
    assert st.world.trace + t[v.start..] == t;
    StandingInVisit(o, v, t);
  }

  /** Every call of a run belongs to the visit of a listed step and is the protocol's move there. */
  lemma {:induction false} CallsFollow(o: Oracle, st: St, steps: seq<Step>, profile: Profile, i: nat) returns (v: Visit)
    requires |st.world.trace| <= i < |Run(o, st, steps, profile).st.world.trace|
    ensures var start, t := |st.world.trace|, Run(o, st, steps, profile).st.world.trace;
            && v.step in steps && v.profile == profile && start <= v.start <= i
            && (!o.dryRun ==> AtVisitStart(o, start, t[..v.start]))
            && v.before == Standing(o, st.progress, start, t[..i])
            && Moves(o, v, t[..i + 1])
    decreases |steps|
  {
    hide RunStep, Performed, Next, Moves, Standing, JustStored;
    var head, t := RunStep(o, st, steps[0], profile), Run(o, st, steps, profile).st.world.trace;
    var start, mid := |st.world.trace|, |head.st.world.trace|;
    v := Visit(steps[0], profile, start, st.progress);
    VisitFollows(o, st, steps[0], profile);
    if i < mid {
      RunExtends(o, st, steps, profile);
      if head.error.None? { RunExtends(o, head.st, steps[1..], profile); }
      InHead(o, v, st, head, t, i);
    } else {
      v := CallsFollow(o, head.st, steps[1..], profile, i);
      RunExtends(o, head.st, steps[1..], profile);
      StepStanding(o, st, steps[0], profile);
      StepExtends(o, st, steps[0], profile);
      assert t[..i][..mid] == head.st.world.trace;
      StandingSplits(o, st.progress, start, mid, t[..i]);
      if !o.dryRun {
        VisitEnds(o, st, steps[0], profile);
        StartsThere(o, st, head.st, t, v.start);
      }
    }
  }

  lemma StandingBefore(o: Oracle, v: Visit, t: seq<Call>)
    requires Moves(o, v, t) && |t| > v.start
    ensures Standing(o, v.before, v.start, t[..|t| - 1]) == v.before
  {
    hide MovesTo, Standing;
    var n := |t| - 1;
    assert forall k | v.start <= k < n :: t[..n][..k] == t[..k];
    StandingInVisit(o, v, t[..n]);
    if n > v.start { RecordIsLast(o, v, t[..n], t[n]); }
  }

  lemma InHead(o: Oracle, v: Visit, st: St, head: Outcome, t: seq<Call>, i: nat)
    requires Performed(o, v, st.world, head.st.world) && v.start == |st.world.trace| <= i < |head.st.world.trace|
    requires head.st.world.trace <= t && v.before == st.progress
    ensures v.before == Standing(o, st.progress, v.start, t[..i]) && Moves(o, v, t[..i + 1])
    ensures !o.dryRun ==> AtVisitStart(o, v.start, t[..v.start])
  {
    hide Performed, Next, Follows, MovesTo, Moves, Standing;
    FollowedMoves(o, v, st.world, head.st.world, i);
    assert head.st.world.trace[..i + 1] == t[..i + 1];
    StandingBefore(o, v, t[..i + 1]);
    assert t[..i + 1][..i] == t[..i];
  }

  lemma StartsThere(o: Oracle, st: St, head: St, t: seq<Call>, n: nat)
    requires head == st || JustStored(o, head.world.trace)
    requires st.world.trace <= head.world.trace <= t && |head.world.trace| <= n <= |t|
    requires AtVisitStart(o, |head.world.trace|, t[..n])
    ensures AtVisitStart(o, |st.world.trace|, t[..n])
  {
    if n == |head.world.trace| { assert t[..n] == head.world.trace; }
  }

  /** The calls from position `n` on were all answered well. */
  ghost predicate Answered(o: Oracle, t: seq<Call>, n: nat) {
    forall k | n < k <= |t| :: o.ok(t[..k])
  }

  /** A check with durable evidence: captured, stored, verified, and the step verified last. */
  ghost predicate EvidenceCalls(id: StepId, calls: seq<Call>) {
    && |calls| == 5 && calls[2].PersistEvidence?
    && var receipt := calls[2].receipt;
    && receipt.wellFormed && receipt.step == id
    && calls[1] == CaptureEvidence(id) && calls[3] == VerifyEvidence(id, receipt) && calls[4] == Verify(id)
  }

  ghost predicate LosslessCalls(id: StepId, calls: seq<Call>) {
    && |calls| == 5 && calls[1] == CaptureBackups(id) && calls[2].PersistBackups? && calls[2].entries != []
    && calls[3] == Apply(id) && calls[4] == Verify(id)
  }

  ghost predicate RebuildableCalls(id: StepId, calls: seq<Call>) {
    && |calls| == 6 && calls[1] == CaptureAudit(id) && calls[2].PersistAudit? && calls[2].audit.IsValidPendingFor(id)
    && calls[3] == Apply(id) && calls[4] == Verify(id)
    && calls[5].FinalizeAudit? && calls[5].audit.outcome.VerifiedRebuild?
    && calls[5].audit.(outcome := PendingRebuild) == calls[2].audit
  }

  /** The irreversible audit is stored, the step applied and verified, and the audit closed
      as verified, changed in its outcome alone. */
  ghost predicate IrreversibleCalls(id: StepId, requirement: RecoveryRequirement, calls: seq<Call>) {
    && |calls| == 5 && calls[0] == CaptureIrreversible(id) && calls[1].PersistIrreversible?
    && calls[1].irreversible.IsValidPendingFor(requirement, id)
    && calls[2] == Apply(id) && calls[3] == Verify(id)
    && calls[4].FinalizeIrreversible? && calls[4].irreversible.outcome.Verified?
    && calls[4].irreversible.(outcome := Pending) == calls[1].irreversible
  }

  /** The calls by which a step that was found so completes, from its inspection on. */
  ghost predicate Recipe(o: Oracle, step: Step, found: Inspection, calls: seq<Call>) {
    var id := step.id;
    && |calls| >= 2 && calls[0] == Inspect(id)
    && if found == Satisfied || (found == NeedsApply && step.checkOnly) then
         if o.durableEvidence(id) then EvidenceCalls(id, calls) else calls[1..] == [Verify(id)]
       else
         && found == NeedsApply
         && match o.recovery(id)
            case LosslessBackup => LosslessCalls(id, calls)
            case RebuildableAudit => RebuildableCalls(id, calls)
            case ManualRecoveryAudit => IrreversibleCalls(id, ManualRecoveryAudit, calls[1..])
            case Mixed =>
              && |calls| > 3 && calls[1] == CaptureBackups(id) && calls[2].PersistBackups? && calls[2].entries != []
              && IrreversibleCalls(id, Mixed, calls[3..])
  }

  /** The visit's calls from its inspection at `n` on are a recipe, and all were answered well. */
  ghost predicate Completed(o: Oracle, t: seq<Call>, step: Step, n: nat) {
    n < |t| && Answered(o, t, n) && Recipe(o, step, o.inspection(t[..n + 1]), t[n..])
  }

  // What stands right before each call

  lemma BeforeRecord(o: Oracle, v: Visit, t: seq<Call>, c: Call, x: StepId)
    requires MovesTo(o, v, t, c) && c.PersistProgress? && x in c.progress.completed && x !in v.before.completed
    ensures |t| > v.start && o.ok(t) && x == v.step.id
    ensures t[|t| - 1].FinalizeAudit? || t[|t| - 1].FinalizeIrreversible? ||
            (t[|t| - 1].Verify? && !(Back(t, 1).Apply? && (Back(t, 2).PersistAudit? || Back(t, 2).PersistIrreversible?)))
  {
  }

  lemma BeforeFinalizeAudit(o: Oracle, v: Visit, t: seq<Call>, c: Call)
    requires MovesTo(o, v, t, c) && c.FinalizeAudit?
    ensures |t| > v.start && o.ok(t) && Back(t, 0).Verify? && Back(t, 1).Apply? && Back(t, 2).PersistAudit?
    ensures c.audit.outcome.VerifiedRebuild? && c.audit == Back(t, 2).audit.(outcome := c.audit.outcome)
  {
  }

  lemma BeforeFinalizeIrreversible(o: Oracle, v: Visit, t: seq<Call>, c: Call)
    requires MovesTo(o, v, t, c) && c.FinalizeIrreversible?
    ensures |t| > v.start && o.ok(t) && Back(t, 0).Verify? && Back(t, 1).Apply? && Back(t, 2).PersistIrreversible?
    ensures c.irreversible.outcome.Verified? && c.irreversible == Back(t, 2).irreversible.(outcome := c.irreversible.outcome)
  {
  }

  lemma BeforeVerify(o: Oracle, v: Visit, t: seq<Call>, c: Call)
    requires MovesTo(o, v, t, c) && c.Verify?
    ensures |t| > v.start && o.ok(t) && c == Verify(v.step.id)
    ensures
      || Back(t, 0).Apply? || Back(t, 0).VerifyEvidence?
      || (Back(t, 0).Inspect? && !o.durableEvidence(v.step.id) && !o.dryRun
          && (o.inspection(t) == Satisfied || (o.inspection(t) == NeedsApply && v.step.checkOnly)))
  {
  }

  lemma BeforeApply(o: Oracle, v: Visit, t: seq<Call>, c: Call)
    requires MovesTo(o, v, t, c) && c.Apply?
    ensures |t| > v.start && o.ok(t) && c == Apply(v.step.id)
    ensures
      || (Back(t, 0).PersistBackups? && o.recovery(v.step.id) != Mixed)
      || Back(t, 0).PersistAudit? || Back(t, 0).PersistIrreversible?
  {
  }

  lemma BeforePersistBackups(o: Oracle, v: Visit, t: seq<Call>, c: Call)
    requires MovesTo(o, v, t, c) && c.PersistBackups?
    ensures |t| > v.start && o.ok(t) && Back(t, 0).CaptureBackups? && c.entries != []
  {
    hide Snapshot;
  }

  /** The inspection right before a mutation's first call found that the step needs it. */
  ghost predicate FoundNeeded(o: Oracle, v: Visit, t: seq<Call>) {
    |t| > v.start && o.ok(t) && Back(t, 0).Inspect? && o.inspection(t) == NeedsApply && !v.step.checkOnly && !o.dryRun
  }

  lemma BeforeCaptureBackups(o: Oracle, v: Visit, t: seq<Call>, c: Call)
    requires MovesTo(o, v, t, c) && c.CaptureBackups?
    ensures FoundNeeded(o, v, t) && c == CaptureBackups(v.step.id)
    ensures o.recovery(v.step.id) == LosslessBackup || o.recovery(v.step.id) == Mixed
  {
  }

  lemma BeforePersistAudit(o: Oracle, v: Visit, t: seq<Call>, c: Call)
    requires MovesTo(o, v, t, c) && c.PersistAudit?
    ensures |t| > v.start && o.ok(t) && Back(t, 0).CaptureAudit? && c.audit.IsValidPendingFor(v.step.id)
  {
    hide Rebuildable.IsValidPendingFor;
  }

  lemma BeforeCaptureAudit(o: Oracle, v: Visit, t: seq<Call>, c: Call)
    requires MovesTo(o, v, t, c) && c.CaptureAudit?
    ensures FoundNeeded(o, v, t) && c == CaptureAudit(v.step.id) && o.recovery(v.step.id) == RebuildableAudit
  {
  }

  lemma BeforePersistIrreversible(o: Oracle, v: Visit, t: seq<Call>, c: Call)
    requires MovesTo(o, v, t, c) && c.PersistIrreversible?
    ensures |t| > v.start && o.ok(t) && Back(t, 0).CaptureIrreversible?
    ensures c.irreversible.IsValidPendingFor(o.recovery(v.step.id), v.step.id)
  {
    hide Irreversible.IsValidPendingFor;
  }

  lemma BeforeCaptureIrreversible(o: Oracle, v: Visit, t: seq<Call>, c: Call)
    requires MovesTo(o, v, t, c) && c.CaptureIrreversible?
    ensures c == CaptureIrreversible(v.step.id)
    ensures
      || (FoundNeeded(o, v, t) && o.recovery(v.step.id) == ManualRecoveryAudit)
      || (|t| > v.start && o.ok(t) && Back(t, 0).PersistBackups? && o.recovery(v.step.id) == Mixed)
  {
  }

  lemma BeforeVerifyEvidence(o: Oracle, v: Visit, t: seq<Call>, c: Call)
    requires MovesTo(o, v, t, c) && c.VerifyEvidence?
    ensures |t| > v.start && o.ok(t) && c.id == v.step.id && Back(t, 0) == PersistEvidence(c.receipt)
  {
  }

  lemma BeforePersistEvidence(o: Oracle, v: Visit, t: seq<Call>, c: Call)
    requires MovesTo(o, v, t, c) && c.PersistEvidence?
    ensures |t| > v.start && o.ok(t) && Back(t, 0).CaptureEvidence? && c.receipt.wellFormed && c.receipt.step == v.step.id
  {
  }

  lemma BeforeCaptureEvidence(o: Oracle, v: Visit, t: seq<Call>, c: Call)
    requires MovesTo(o, v, t, c) && c.CaptureEvidence?
    ensures |t| > v.start && o.ok(t) && Back(t, 0).Inspect? && c == CaptureEvidence(v.step.id)
    ensures o.durableEvidence(v.step.id) && !o.dryRun
    ensures o.inspection(t) == Satisfied || (o.inspection(t) == NeedsApply && v.step.checkOnly)
  {
  }

  lemma BeforeInspect(o: Oracle, v: Visit, t: seq<Call>, c: Call)
    requires MovesTo(o, v, t, c) && c.Inspect?
    ensures c == Inspect(v.step.id)
    ensures !o.dryRun ==>
              && |t| > v.start
              && if Back(t, 0).PollCancelled? then !o.ok(t) && RunsUnasked(v.profile, v.step.tier, v.step.risk)
                 else o.ok(t) && Back(t, 0).AskConsent?
  {
    hide RunsUnasked, RunsIfAgreed;
  }

  // From the last call of a recipe back to its inspection

  /** The inspection at `k` found that the step needs its mutation. */
  ghost predicate NeededAt(o: Oracle, v: Visit, t: seq<Call>, k: nat) {
    && v.start <= k < |t| && t[k] == Inspect(v.step.id) && o.ok(t[..k + 1])
    && o.inspection(t[..k + 1]) == NeedsApply && !v.step.checkOnly
  }

  lemma NeededFrom(o: Oracle, v: Visit, t: seq<Call>, k: nat)
    requires Moves(o, v, t) && k < |t| && FoundNeeded(o, v, t[..k])
    ensures k > v.start && NeededAt(o, v, t, k - 1)
  {
    hide MovesTo;
    assert t[..k][..k - 1] == t[..k - 1];
    BeforeInspect(o, v, t[..k - 1], t[k - 1]);
  }

  ghost predicate BackedUpAt(o: Oracle, v: Visit, t: seq<Call>, k: nat) {
    && v.start + 2 <= k < |t| && NeededAt(o, v, t, k - 2)
    && t[k - 1] == CaptureBackups(v.step.id) && o.ok(t[..k])
    && t[k].PersistBackups? && t[k].entries != []
    && (o.recovery(v.step.id) == LosslessBackup || o.recovery(v.step.id) == Mixed)
  }

  lemma BackedUpFrom(o: Oracle, v: Visit, t: seq<Call>, k: nat)
    requires Moves(o, v, t) && v.start <= k < |t| && t[k].PersistBackups?
    ensures BackedUpAt(o, v, t, k)
  {
    hide MovesTo, NeededAt, FoundNeeded;
    BeforePersistBackups(o, v, t[..k], t[k]);
    BeforeCaptureBackups(o, v, t[..k - 1], t[k - 1]);
    NeededFrom(o, v, t, k - 1);
  }

  ghost predicate AuditedAt(o: Oracle, v: Visit, t: seq<Call>, k: nat) {
    && v.start + 2 <= k < |t| && NeededAt(o, v, t, k - 2)
    && t[k - 1] == CaptureAudit(v.step.id) && o.ok(t[..k])
    && t[k].PersistAudit? && t[k].audit.IsValidPendingFor(v.step.id) && o.recovery(v.step.id) == RebuildableAudit
  }

  lemma AuditedFrom(o: Oracle, v: Visit, t: seq<Call>, k: nat)
    requires Moves(o, v, t) && v.start <= k < |t| && t[k].PersistAudit?
    ensures AuditedAt(o, v, t, k)
  {
    hide MovesTo, NeededAt, FoundNeeded, Rebuildable.IsValidPendingFor;
    BeforePersistAudit(o, v, t[..k], t[k]);
    BeforeCaptureAudit(o, v, t[..k - 1], t[k - 1]);
    NeededFrom(o, v, t, k - 1);
  }

  ghost predicate PendingAt(o: Oracle, v: Visit, t: seq<Call>, k: nat) {
    && v.start + 2 <= k < |t| && t[k - 1] == CaptureIrreversible(v.step.id) && o.ok(t[..k]) && o.ok(t[..k - 1])
    && t[k].PersistIrreversible? && t[k].irreversible.IsValidPendingFor(o.recovery(v.step.id), v.step.id)
    && if o.recovery(v.step.id) == Mixed then BackedUpAt(o, v, t, k - 2)
       else o.recovery(v.step.id) == ManualRecoveryAudit && NeededAt(o, v, t, k - 2)
  }

  lemma PendingFrom(o: Oracle, v: Visit, t: seq<Call>, k: nat)
    requires Moves(o, v, t) && v.start <= k < |t| && t[k].PersistIrreversible?
    ensures PendingAt(o, v, t, k)
  {
    hide MovesTo, NeededAt, FoundNeeded, BackedUpAt, Irreversible.IsValidPendingFor;
    BeforePersistIrreversible(o, v, t[..k], t[k]);
    BeforeCaptureIrreversible(o, v, t[..k - 1], t[k - 1]);
    if o.recovery(v.step.id) == Mixed {
      assert t[..k - 1][k - 2] == t[k - 2];
      BackedUpFrom(o, v, t, k - 2);
    } else {
      NeededFrom(o, v, t, k - 1);
      OkAt(o, v, t, k - 2);
    }
  }

  lemma OkAt(o: Oracle, v: Visit, t: seq<Call>, k: nat)
    requires NeededAt(o, v, t, k)
    ensures o.ok(t[..k + 1])
  {
  }

  /** The verification at `k` and the apply before it, with the evidence stored before that. */
  lemma MutationFrom(o: Oracle, v: Visit, t: seq<Call>, k: nat)
    requires Moves(o, v, t) && v.start <= k < |t| && t[k].Verify? && Back(t[..k], 0).Apply?
    ensures t[k] == Verify(v.step.id) && k >= 2 && t[k - 1] == Apply(v.step.id) && o.ok(t[..k]) && o.ok(t[..k - 1])
    ensures match t[k - 2]
            case PersistBackups(_) => BackedUpAt(o, v, t, k - 2) && o.recovery(v.step.id) == LosslessBackup
            case PersistAudit(_) => AuditedAt(o, v, t, k - 2)
            case PersistIrreversible(_) => PendingAt(o, v, t, k - 2)
            case _ => false
  {
    hide MovesTo, NeededAt;
    BeforeVerify(o, v, t[..k], t[k]);
    BeforeApply(o, v, t[..k - 1], t[k - 1]);
    match t[k - 2]
    case PersistBackups(_) => BackedUpFrom(o, v, t, k - 2);
    case PersistAudit(_) => AuditedFrom(o, v, t, k - 2);
    case PersistIrreversible(_) => PendingFrom(o, v, t, k - 2);
    case _ =>
  }

  lemma LosslessCompleted(o: Oracle, v: Visit, t: seq<Call>)
    requires |t| >= 5 && o.ok(t) && o.ok(t[..|t| - 1]) && o.ok(t[..|t| - 2])
    requires t[|t| - 1] == Verify(v.step.id) && t[|t| - 2] == Apply(v.step.id)
    requires BackedUpAt(o, v, t, |t| - 3) && o.recovery(v.step.id) == LosslessBackup
    ensures Completed(o, t, v.step, |t| - 5)
  {
    assert t[..|t|] == t;
  }

  lemma RebuildableCompleted(o: Oracle, v: Visit, t: seq<Call>)
    requires |t| >= 6 && o.ok(t) && o.ok(t[..|t| - 1]) && o.ok(t[..|t| - 2]) && o.ok(t[..|t| - 3])
    requires t[|t| - 2] == Verify(v.step.id) && t[|t| - 3] == Apply(v.step.id) && AuditedAt(o, v, t, |t| - 4)
    requires t[|t| - 1].FinalizeAudit? && t[|t| - 1].audit.outcome.VerifiedRebuild?
    requires t[|t| - 1].audit == t[|t| - 4].audit.(outcome := t[|t| - 1].audit.outcome)
    ensures Completed(o, t, v.step, |t| - 6)
  {
    assert t[..|t|] == t;
  }

  lemma IrreversibleCompleted(o: Oracle, v: Visit, t: seq<Call>)
    requires |t| >= 6 && o.ok(t) && o.ok(t[..|t| - 1]) && o.ok(t[..|t| - 2]) && o.ok(t[..|t| - 3])
    requires t[|t| - 2] == Verify(v.step.id) && t[|t| - 3] == Apply(v.step.id) && PendingAt(o, v, t, |t| - 4)
    requires t[|t| - 1].FinalizeIrreversible? && t[|t| - 1].irreversible.outcome.Verified?
    requires t[|t| - 1].irreversible == t[|t| - 4].irreversible.(outcome := t[|t| - 1].irreversible.outcome)
    ensures |t| >= (if o.recovery(v.step.id) == Mixed then 8 else 6)
    ensures Completed(o, t, v.step, if o.recovery(v.step.id) == Mixed then |t| - 8 else |t| - 6)
  {
    assert t[..|t|] == t;
  }

  lemma CheckCompleted(o: Oracle, v: Visit, t: seq<Call>)
    requires Moves(o, v, t) && |t| > v.start && o.ok(t) && t[|t| - 1].Verify? && !Back(t, 1).Apply?
    ensures |t| >= v.start + 2
    ensures if t[|t| - 2].Inspect? then Completed(o, t, v.step, |t| - 2)
            else |t| >= v.start + 5 && Completed(o, t, v.step, |t| - 5)
  {
    hide MovesTo;
    var n := |t|;
    BeforeVerify(o, v, t[..n - 1], t[n - 1]);
    if t[n - 2].Inspect? {
      BeforeInspect(o, v, t[..n - 2], t[n - 2]);
      CheckedHere(o, v, t);
    } else {
      BeforeVerifyEvidence(o, v, t[..n - 2], t[n - 2]);
      BeforePersistEvidence(o, v, t[..n - 3], t[n - 3]);
      BeforeCaptureEvidence(o, v, t[..n - 4], t[n - 4]);
      BeforeInspect(o, v, t[..n - 5], t[n - 5]);
      EvidenceHere(o, v, t);
    }
  }

  lemma CheckedHere(o: Oracle, v: Visit, t: seq<Call>)
    requires |t| >= 2 && t[|t| - 2] == Inspect(v.step.id) && t[|t| - 1] == Verify(v.step.id)
    requires o.ok(t) && o.ok(t[..|t| - 1]) && !o.durableEvidence(v.step.id)
    requires o.inspection(t[..|t| - 1]) == Satisfied || (o.inspection(t[..|t| - 1]) == NeedsApply && v.step.checkOnly)
    ensures Completed(o, t, v.step, |t| - 2)
  {
    assert t[..|t|] == t && t[|t| - 2..][1..] == [Verify(v.step.id)];
  }

  lemma EvidenceHere(o: Oracle, v: Visit, t: seq<Call>)
    requires |t| >= 5 && EvidenceCalls(v.step.id, t[|t| - 5..]) && t[|t| - 5] == Inspect(v.step.id)
    requires o.ok(t) && o.ok(t[..|t| - 1]) && o.ok(t[..|t| - 2]) && o.ok(t[..|t| - 3]) && o.ok(t[..|t| - 4])
    requires o.durableEvidence(v.step.id)
    requires o.inspection(t[..|t| - 4]) == Satisfied || (o.inspection(t[..|t| - 4]) == NeedsApply && v.step.checkOnly)
    ensures Completed(o, t, v.step, |t| - 5)
  {
    assert t[..|t|] == t;
  }

  /** A record that completes the step stands right after its whole recipe. */
  lemma RecordCompletes(o: Oracle, v: Visit, t: seq<Call>, c: Call, x: StepId) returns (n: nat)
    requires Moves(o, v, t) && MovesTo(o, v, t, c)
    requires c.PersistProgress? && x in c.progress.completed && x !in v.before.completed
    ensures x == v.step.id && Completed(o, t, v.step, n) && v.start <= n
  {
    hide MovesTo, NeededAt, Completed, BackedUpAt, AuditedAt, PendingAt, Moves;
    BeforeRecord(o, v, t, c, x);
    var m := |t|;
    match t[m - 1]
    case Verify(_) =>
      if Back(t, 1).Apply? {
        VerifiesApply(o, v, t);
        n := m - 5;
      } else {
        CheckCompleted(o, v, t);
        n := if t[m - 2].Inspect? then m - 2 else m - 5;
      }
    case FinalizeAudit(_) =>
      ClosesAudit(o, v, t);
      n := m - 6;
    case FinalizeIrreversible(_) =>
      ClosesIrreversible(o, v, t);
      n := if o.recovery(v.step.id) == Mixed then m - 8 else m - 6;
  }

  lemma VerifiesApply(o: Oracle, v: Visit, t: seq<Call>)
    requires Moves(o, v, t) && |t| > v.start && o.ok(t) && t[|t| - 1].Verify?
    requires Back(t, 1).Apply? && !Back(t, 2).PersistAudit? && !Back(t, 2).PersistIrreversible?
    ensures |t| >= 5 + v.start && Completed(o, t, v.step, |t| - 5)
  {
    hide MovesTo, NeededAt, Completed;
    MutationFrom(o, v, t, |t| - 1);
    LosslessCompleted(o, v, t);
  }

  lemma ClosesAudit(o: Oracle, v: Visit, t: seq<Call>)
    requires Moves(o, v, t) && |t| > v.start && o.ok(t) && t[|t| - 1].FinalizeAudit?
    ensures |t| >= 6 + v.start && Completed(o, t, v.step, |t| - 6)
  {
    hide MovesTo, NeededAt, Completed;
    var m := |t|;
    BeforeFinalizeAudit(o, v, t[..m - 1], t[m - 1]);
    MutationFrom(o, v, t, m - 2);
    RebuildableCompleted(o, v, t);
  }

  lemma ClosesIrreversible(o: Oracle, v: Visit, t: seq<Call>)
    requires Moves(o, v, t) && |t| > v.start && o.ok(t) && t[|t| - 1].FinalizeIrreversible?
    ensures var n := if o.recovery(v.step.id) == Mixed then 8 else 6;
            |t| >= n + v.start && Completed(o, t, v.step, |t| - n)
  {
    hide MovesTo, NeededAt, Completed;
    var m := |t|;
    BeforeFinalizeIrreversible(o, v, t[..m - 1], t[m - 1]);
    MutationFrom(o, v, t, m - 2);
    IrreversibleCompleted(o, v, t);
  }

  // The theorems

  /** Whatever fails, a run completes a step that was not completed before only right after a
      successful verification of it, or after closing a record right after one, and then every
      call of its recipe, from the inspection on, stands there and succeeded. */
  lemma {:induction false} CompletionsAreVerified(
    o: Oracle, st: St, steps: seq<Step>, profile: Profile, i: nat, x: StepId) returns (step: Step, n: nat)
    requires var start, t := |st.world.trace|, Run(o, st, steps, profile).st.world.trace;
             && start <= i < |t| && t[i].PersistProgress?
             && x in t[i].progress.completed && x !in Standing(o, st.progress, start, t[..i]).completed
    ensures var start, t := |st.world.trace|, Run(o, st, steps, profile).st.world.trace;
            && step in steps && step.id == x && start <= n < i && Completed(o, t[..i], step, n)
            && (t[i - 1] == Verify(x) ||
                (t[i - 2] == Verify(x) && o.ok(t[..i - 1]) && (t[i - 1].FinalizeAudit? || t[i - 1].FinalizeIrreversible?)))
            && o.ok(t[..i])
  {
    hide Run, Moves, Standing, Recipe;
    var t := Run(o, st, steps, profile).st.world.trace;
    var v := CallsFollow(o, st, steps, profile, i);
    SplitsMoves(o, v, t[..i + 1]);
    assert t[..i + 1][..i] == t[..i];
    n := RecordCompletes(o, v, t[..i], t[i], x);
    step := v.step;
    RecipeEnds(o, t[..i], step, n);
    assert t[..i][..i - 1] == t[..i - 1];
  }

  lemma SplitsMoves(o: Oracle, v: Visit, t: seq<Call>)
    requires Moves(o, v, t) && |t| > v.start
    ensures Moves(o, v, t[..|t| - 1]) && MovesTo(o, v, t[..|t| - 1], t[|t| - 1])
  {
    hide MovesTo;
    assert forall k | v.start <= k < |t| - 1 :: t[..|t| - 1][..k] == t[..k];
  }

  lemma RecipeEnds(o: Oracle, t: seq<Call>, step: Step, n: nat)
    requires Completed(o, t, step, n)
    ensures |t| >= n + 2 && o.ok(t)
    ensures t[|t| - 1] == Verify(step.id) ||
            (t[|t| - 2] == Verify(step.id) && o.ok(t[..|t| - 1]) && (t[|t| - 1].FinalizeAudit? || t[|t| - 1].FinalizeIrreversible?))
  {
    assert t[..|t|] == t;
    var calls := t[n..];
    assert t[|t| - 1] == calls[|calls| - 1] && t[|t| - 2] == calls[|calls| - 2];
    if |calls| == 2 { assert calls[1] == calls[1..][0]; }
  }

  /** Why a visit may skip its step: the inspection found it inapplicable, the user was asked
      and refused, or the profile never runs it. */
  ghost predicate SkipIsDecided(o: Oracle, profile: Profile, step: Step, t: seq<Call>) {
    || (Back(t, 0) == Inspect(step.id) && o.ok(t) && o.inspection(t) == Inapplicable)
    || (Back(t, 0) == AskConsent(step.id) && !o.ok(t) && RunsIfAgreed(profile, step.tier, step.risk))
    || (Back(t, 0).PollCancelled? && !o.ok(t)
        && !RunsUnasked(profile, step.tier, step.risk) && !RunsIfAgreed(profile, step.tier, step.risk))
  }

  lemma BeforeSkip(o: Oracle, v: Visit, t: seq<Call>, c: Call, x: StepId)
    requires MovesTo(o, v, t, c) && c.PersistProgress? && x in c.progress.skipped && x !in v.before.skipped
    ensures |t| > v.start && x == v.step.id && c.progress.skipped == v.before.skipped + {x}
    ensures || (Back(t, 0).Inspect? && o.ok(t) && o.inspection(t) == Inapplicable)
            || (Back(t, 0).AskConsent? && !o.ok(t))
            || (Back(t, 0).PollCancelled? && !o.ok(t) && AfterPoll(v) == Make(c))
  {
  }

  lemma BeforeAsk(o: Oracle, v: Visit, t: seq<Call>, c: Call)
    requires MovesTo(o, v, t, c) && c.AskConsent?
    ensures |t| > v.start && Back(t, 0).PollCancelled? && !o.ok(t) && c == AskConsent(v.step.id)
    ensures RunsIfAgreed(v.profile, v.step.tier, v.step.risk)
  {
    hide RunsUnasked, RunsIfAgreed;
  }

  /** A visit that asks: the poll let it go on, and the profile wants consent for the step. */
  lemma AskedFrom(o: Oracle, v: Visit, t: seq<Call>)
    requires Moves(o, v, t) && |t| > v.start && t[|t| - 1].AskConsent?
    ensures t[|t| - 1] == AskConsent(v.step.id) && RunsIfAgreed(v.profile, v.step.tier, v.step.risk)
    ensures |t| >= v.start + 2 && t[|t| - 2].PollCancelled? && !o.ok(t[..|t| - 1])
  {
    hide MovesTo, RunsIfAgreed;
    BeforeAsk(o, v, t[..|t| - 1], t[|t| - 1]);
  }

  lemma SkipFrom(o: Oracle, v: Visit, t: seq<Call>, c: Call, x: StepId)
    requires Moves(o, v, t) && MovesTo(o, v, t, c)
    requires c.PersistProgress? && x in c.progress.skipped && x !in v.before.skipped
    ensures x == v.step.id && SkipIsDecided(o, v.profile, v.step, t) && c.progress.skipped == v.before.skipped + {x}
  {
    hide MovesTo, Moves, RunsIfAgreed, RunsUnasked;
    BeforeSkip(o, v, t, c, x);
    if t[|t| - 1].AskConsent? {
      AskedFrom(o, v, t);
    } else if t[|t| - 1].Inspect? {
      SplitsMoves(o, v, t);
      BeforeInspect(o, v, t[..|t| - 1], t[|t| - 1]);
    }
  }

  /** A step becomes skipped only for one of the three reasons, standing right before the record. */
  lemma {:induction false} SkipsAreDecided(
    o: Oracle, st: St, steps: seq<Step>, profile: Profile, i: nat, x: StepId) returns (step: Step)
    requires var start, t := |st.world.trace|, Run(o, st, steps, profile).st.world.trace;
             && start <= i < |t| && t[i].PersistProgress?
             && x in t[i].progress.skipped && x !in Standing(o, st.progress, start, t[..i]).skipped
    ensures step in steps && step.id == x
    ensures var start, t := |st.world.trace|, Run(o, st, steps, profile).st.world.trace;
            && SkipIsDecided(o, profile, step, t[..i])
            && t[i].progress.skipped == Standing(o, st.progress, start, t[..i]).skipped + {x}
  {
    hide Run, Moves, Standing, SkipIsDecided;
    var t := Run(o, st, steps, profile).st.world.trace;
    var v := CallsFollow(o, st, steps, profile, i);
    SplitsMoves(o, v, t[..i + 1]);
    assert t[..i + 1][..i] == t[..i];
    SkipFrom(o, v, t[..i], t[i], x);
    step := v.step;
  }

  lemma BeforeAdvisory(o: Oracle, v: Visit, t: seq<Call>, c: Call, x: StepId)
    requires MovesTo(o, v, t, c) && c.PersistProgress? && x in c.progress.advisories
    requires x in v.before.advisories ==> v.before.advisories[x] != c.progress.advisories[x]
    ensures |t| > v.start && x == v.step.id && Back(t, 0).Inspect? && o.ok(t)
    ensures o.inspection(t) == Advisory(c.progress.advisories[x])
    ensures x !in c.progress.completed && x !in c.progress.skipped
  {
  }

  lemma AdvisoryFrom(o: Oracle, v: Visit, t: seq<Call>, c: Call, x: StepId)
    requires Moves(o, v, t) && MovesTo(o, v, t, c) && c.PersistProgress? && x in c.progress.advisories
    requires x in v.before.advisories ==> v.before.advisories[x] != c.progress.advisories[x]
    ensures t != [] && t[|t| - 1] == Inspect(x) && o.ok(t) && o.inspection(t) == Advisory(c.progress.advisories[x])
    ensures x !in c.progress.completed && x !in c.progress.skipped
  {
    hide MovesTo, Moves;
    BeforeAdvisory(o, v, t, c, x);
    SplitsMoves(o, v, t);
    BeforeInspect(o, v, t[..|t| - 1], t[|t| - 1]);
  }

  /** A step gets an advisory only right after its inspection gave that very reason. */
  lemma {:induction false} AdvisoriesAreFound(o: Oracle, st: St, steps: seq<Step>, profile: Profile, i: nat, x: StepId)
    requires var start, t := |st.world.trace|, Run(o, st, steps, profile).st.world.trace;
             && start <= i < |t| && t[i].PersistProgress? && x in t[i].progress.advisories
             && var before := Standing(o, st.progress, start, t[..i]).advisories;
             x in before ==> before[x] != t[i].progress.advisories[x]
    ensures var t := Run(o, st, steps, profile).st.world.trace;
            && i > 0 && t[i - 1] == Inspect(x) && o.ok(t[..i])
            && o.inspection(t[..i]) == Advisory(t[i].progress.advisories[x])
            && x !in t[i].progress.completed && x !in t[i].progress.skipped
  {
    hide Run, Moves, Standing;
    var t := Run(o, st, steps, profile).st.world.trace;
    var v := CallsFollow(o, st, steps, profile, i);
    SplitsMoves(o, v, t[..i + 1]);
    assert t[..i + 1][..i] == t[..i];
    AdvisoryFrom(o, v, t[..i], t[i], x);
  }

  /** The visit was not cancelled, and the profile runs the step unasked or the user agreed to it. */
  ghost predicate GoesOn(o: Oracle, profile: Profile, step: Step, t: seq<Call>) {
    if Back(t, 0).PollCancelled? then !o.ok(t) && t != [] && RunsUnasked(profile, step.tier, step.risk)
    else
      && |t| >= 2 && t[|t| - 1] == AskConsent(step.id) && o.ok(t)
      && RunsIfAgreed(profile, step.tier, step.risk)
      && t[|t| - 2].PollCancelled? && !o.ok(t[..|t| - 1])
  }

  lemma InspectFrom(o: Oracle, v: Visit, t: seq<Call>, c: Call)
    requires Moves(o, v, t) && MovesTo(o, v, t, c) && c.Inspect? && !o.dryRun
    ensures c == Inspect(v.step.id) && GoesOn(o, v.profile, v.step, t)
  {
    hide MovesTo, Moves, RunsUnasked, RunsIfAgreed;
    BeforeInspect(o, v, t, c);
    if !t[|t| - 1].PollCancelled? { AskedFrom(o, v, t); }
  }

  /** Every live inspection, and so every mutation after it, is of a step that the profile runs
      unasked or that the user has just agreed to. */
  lemma {:induction false} InspectionsAreAgreed(
    o: Oracle, st: St, steps: seq<Step>, profile: Profile, i: nat) returns (step: Step)
    requires !o.dryRun
    requires var t := Run(o, st, steps, profile).st.world.trace; |st.world.trace| <= i < |t| && t[i].Inspect?
    ensures step in steps
    ensures var t := Run(o, st, steps, profile).st.world.trace;
            t[i] == Inspect(step.id) && GoesOn(o, profile, step, t[..i])
  {
    hide Run, Moves, Standing, GoesOn;
    var t := Run(o, st, steps, profile).st.world.trace;
    var v := CallsFollow(o, st, steps, profile, i);
    SplitsMoves(o, v, t[..i + 1]);
    assert t[..i + 1][..i] == t[..i];
    InspectFrom(o, v, t[..i], t[i]);
    step := v.step;
  }

  /** Every mutation of a run is of a listed step that is not check-only and that an inspection of the
      same visit found in need of it. */
  lemma {:induction false} AppliesAreNeeded(
    o: Oracle, st: St, steps: seq<Step>, profile: Profile, i: nat) returns (step: Step, n: nat)
    requires var t := Run(o, st, steps, profile).st.world.trace; |st.world.trace| <= i < |t| && t[i].Apply?
    ensures step in steps && !step.checkOnly && |st.world.trace| <= n < i
    ensures var t := Run(o, st, steps, profile).st.world.trace;
            && t[i] == Apply(step.id) && t[n] == Inspect(step.id)
            && o.ok(t[..n + 1]) && o.inspection(t[..n + 1]) == NeedsApply
  {
    hide Run, Moves, Standing;
    var t := Run(o, st, steps, profile).st.world.trace;
    var v := CallsFollow(o, st, steps, profile, i);
    n := NeededBefore(o, v, t[..i + 1]);
    assert t[..i + 1][..n + 1] == t[..n + 1];
    step := v.step;
  }

  lemma NeededBefore(o: Oracle, v: Visit, t: seq<Call>) returns (k: nat)
    requires Moves(o, v, t) && |t| > v.start && t[|t| - 1].Apply?
    ensures k < |t| - 1 && NeededAt(o, v, t, k) && t[|t| - 1] == Apply(v.step.id)
  {
    hide MovesTo, NeededAt;
    var n := |t| - 1;
    BeforeApply(o, v, t[..n], t[n]);
    match t[n - 1]
    case PersistBackups(_) =>
      BackedUpFrom(o, v, t, n - 1);
      k := n - 3;
    case PersistAudit(_) =>
      AuditedFrom(o, v, t, n - 1);
      k := n - 3;
    case PersistIrreversible(_) =>
      PendingFrom(o, v, t, n - 1);
      k := if o.recovery(v.step.id) == Mixed then n - 5 else n - 3;
  }
}
