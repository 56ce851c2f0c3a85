/** The live backend as a table: what each inspection finds and what each call
    answers and leaves behind, by the numbers of the steps. */
module LiveTable {
  import opened Wrappers
  import opened Catalog
  import opened ProgressRecord
  import opened Audit
  import opened AuditFile
  import opened Backup
  import opened EngineModel
  import opened LiveSteps
  import opened LiveTransaction

  predicate At(id: StepId, phase: Phase, numbers: set<nat>) { id.phase == phase && id.number in numbers }

  // Inspections

  predicate NeverFound(id: StepId, v: View) {
    || !v.sees
    || At(id, One, {16}) || At(id, Two, {2})
    || (At(id, Three, {1, 4}) && v.applicable)
  }

  predicate FoundSatisfied(id: StepId, v: View) {
    || At(id, One, {1, 5, 21, 22, 38}) || At(id, Two, {3}) || At(id, Three, {6, 11, 12})
    || ((At(id, One, {17}) || At(id, Three, {2, 3, 5})) && v.satisfied)
    || ((At(id, One, {18, 19, 20, 24, 35}) || At(id, Three, {8})) && v.applicable)
    || (At(id, One, {30, 34}) && v.applicable && v.satisfied)
    || (At(id, One, {8}) && v.supported && !v.configured && v.satisfied)
  }

  predicate FoundNeeded(id: StepId, v: View) {
    || At(id, One, {12}) || At(id, Two, {1})
    || (At(id, Three, {2, 3}) && !v.satisfied)
    || (At(id, One, {30, 34}) && v.applicable && !v.satisfied)
    || (At(id, One, {8}) && v.supported && v.configured)
  }

  predicate FoundInapplicable(id: StepId, v: View) {
    (At(id, One, {18, 19, 20, 24, 30, 34, 35}) || At(id, Three, {1, 4, 8})) && !v.applicable
  }

  predicate FoundUnsupported(id: StepId, v: View) {
    || ((At(id, One, {17}) || At(id, Three, {5})) && !v.satisfied)
    || At(id, Three, {13})
    || (At(id, One, {8}) && !v.supported)
  }

  /** Every step that is not listed, and the page file where the wanted state cannot be told. */
  predicate FoundAdvisory(id: StepId, v: View) {
    || (At(id, One, {8}) && v.supported && !v.configured && !v.satisfied)
    || !(|| At(id, One, {1, 5, 8, 12, 16, 17, 18, 19, 20, 21, 22, 24, 30, 34, 35, 38})
         || At(id, Two, {1, 2, 3}) || At(id, Three, {1, 2, 3, 4, 5, 6, 8, 11, 12, 13}))
  }

  /** What an inspection of each step finds, for every state of the machine. */
  lemma FindingIff(id: StepId, v: View)
    ensures Finding(id, v) == None <==> NeverFound(id, v)
    ensures v.sees ==> (Finding(id, v) == Some(Satisfied) <==> FoundSatisfied(id, v))
    ensures v.sees ==> (Finding(id, v) == Some(NeedsApply) <==> FoundNeeded(id, v))
    ensures v.sees ==> (Finding(id, v) == Some(Inapplicable) <==> FoundInapplicable(id, v))
    ensures v.sees ==> (Finding(id, v) == Some(Unsupported) <==> FoundUnsupported(id, v))
    ensures v.sees ==> (Finding(id, v) == Some(Advisory(v.reason)) <==> FoundAdvisory(id, v))
  {
    match id.phase {
      case One => OneFinding(id, v);
      case Two => TwoFinding(id, v);
      case Three => ThreeFinding(id, v);
    }
  }

  lemma OneFinding(id: StepId, v: View)
    requires id.phase == One
    ensures Finding(id, v) == None <==> NeverFound(id, v)
    ensures v.sees ==> (Finding(id, v) == Some(Satisfied) <==> FoundSatisfied(id, v))
    ensures v.sees ==> (Finding(id, v) == Some(NeedsApply) <==> FoundNeeded(id, v))
    ensures v.sees ==> (Finding(id, v) == Some(Inapplicable) <==> FoundInapplicable(id, v))
    ensures v.sees ==> (Finding(id, v) == Some(Unsupported) <==> FoundUnsupported(id, v))
    ensures v.sees ==> (Finding(id, v) == Some(Advisory(v.reason)) <==> FoundAdvisory(id, v))
  {
  }

  lemma TwoFinding(id: StepId, v: View)
    requires id.phase == Two
    ensures Finding(id, v) == None <==> NeverFound(id, v)
    ensures v.sees ==> (Finding(id, v) == Some(Satisfied) <==> FoundSatisfied(id, v))
    ensures v.sees ==> (Finding(id, v) == Some(NeedsApply) <==> FoundNeeded(id, v))
    ensures v.sees ==> (Finding(id, v) == Some(Inapplicable) <==> FoundInapplicable(id, v))
    ensures v.sees ==> (Finding(id, v) == Some(Unsupported) <==> FoundUnsupported(id, v))
    ensures v.sees ==> (Finding(id, v) == Some(Advisory(v.reason)) <==> FoundAdvisory(id, v))
  {
  }

  lemma ThreeFinding(id: StepId, v: View)
    requires id.phase == Three
    ensures Finding(id, v) == None <==> NeverFound(id, v)
    ensures v.sees ==> (Finding(id, v) == Some(Satisfied) <==> FoundSatisfied(id, v))
    ensures v.sees ==> (Finding(id, v) == Some(NeedsApply) <==> FoundNeeded(id, v))
    ensures v.sees ==> (Finding(id, v) == Some(Inapplicable) <==> FoundInapplicable(id, v))
    ensures v.sees ==> (Finding(id, v) == Some(Unsupported) <==> FoundUnsupported(id, v))
    ensures v.sees ==> (Finding(id, v) == Some(Advisory(v.reason)) <==> FoundAdvisory(id, v))
  {
  }

  // Calls

  predicate Driver(id: StepId) { At(id, Two, {2}) || At(id, Three, {1}) }

  predicate Observed(id: StepId) { At(id, One, {1, 5, 17, 24, 35}) || At(id, Three, {5, 13}) }

  predicate Unlooked(id: StepId) {
    At(id, One, {18, 19, 20, 21, 22, 38}) || At(id, Two, {2, 3}) || At(id, Three, {1, 6, 8, 11, 12})
  }

  /** Steps that work on what their capture, or for P3:2 and P3:3 their inspection, has bound. */
  predicate Bindable(id: StepId) { At(id, One, {8, 16, 30, 34}) || At(id, Three, {2, 3, 4}) }

  predicate Capturable(id: StepId) { Bindable(id) || At(id, One, {12}) || At(id, Two, {1}) }

  predicate Ready(s: Live, id: StepId, m: Machine) { Capturable(id) && m.native && (Bindable(id) ==> id in s.bound) }

  predicate CaptureWorks(s: Live, id: StepId, m: Machine) {
    !s.lock && m.lockFree && m.native && Capturable(id) && (At(id, Three, {2, 3}) ==> id in s.bound)
  }

  predicate CaptureStrands(s: Live, id: StepId, m: Machine) {
    && !s.lock && m.lockFree
    && ((At(id, Three, {2, 3}) && id !in s.bound) || (At(id, Three, {4}) && !m.native))
  }

  predicate AuditWorks(s: Live, id: StepId, m: Machine, r: RecoveryRequirement) {
    && (At(id, One, {13}) || Driver(id)) && m.readable && |PendingOf(s.audits, id)| <= 1
    && ((r == ManualRecoveryAudit && !s.lock && m.lockFree) || (r == Mixed && s.lock))
  }

  predicate VerifyWorks(s: Live, id: StepId, m: Machine) {
    || Unlooked(id)
    || (m.native && ((Observed(id) && !At(id, Three, {13})) || Ready(s, id, m)))
  }

  predicate ApplyWorks(s: Live, id: StepId, m: Machine) {
    if Driver(id) then m.authorized && m.native else id in s.captured && s.lock && Ready(s, id, m)
  }

  /** What each call answers. */
  predicate Answer(s: Live, c: Call, m: Machine, r: RecoveryRequirement) {
    match c
    case Inspect(id) => !NeverFound(id, m.view)
    case CaptureBackups(id) => CaptureWorks(s, id, m)
    case PersistBackups(_) => s.lock && m.readable && m.writable
    case CaptureAudit(_) => false
    case PersistAudit(_) => false
    case FinalizeAudit(_) => false
    case CaptureIrreversible(id) => AuditWorks(s, id, m, r)
    case PersistIrreversible(a) => s.lock && m.readable && m.writable && Persisted(s.audits, a).Some?
    case FinalizeIrreversible(a) => s.lock && m.readable && m.writable && Replaced(s.audits, a, false).Some?
    case FailIrreversible(a) => s.lock && m.readable && m.writable && Replaced(s.audits, a, true).Some?
    case Apply(id) => ApplyWorks(s, id, m)
    case Verify(id) => VerifyWorks(s, id, m)
    case PersistProgress(_) => (s.lock || m.lockFree) && m.writable
    case _ => m.native
  }

  /** The call gives up everything: an audit closed as failed, stored progress, or a backup file
      that could be read and not written. */
  predicate EndsAll(s: Live, c: Call, m: Machine) {
    match c
    case FailIrreversible(_) => true
    case PersistProgress(_) => (s.lock || m.lockFree) && m.writable
    case PersistBackups(_) => s.lock && m.readable && !m.writable
    case _ => false
  }

  /** The call gives up its own step: a captured mutation or a verification that looked and failed. */
  predicate EndsOne(s: Live, c: Call, m: Machine) {
    match c
    case Apply(id) => !Driver(id) && !At(id, Three, {13}) && id in s.captured && s.lock && !Ready(s, id, m)
    case Verify(id) => !VerifyWorks(s, id, m) && !Observed(id) && !(At(id, One, {16, 34}) && id !in s.bound)
    case _ => false
  }

  predicate LockAfter(s: Live, c: Call, m: Machine, r: RecoveryRequirement) {
    match c
    case CaptureBackups(id) => s.lock || CaptureWorks(s, id, m) || CaptureStrands(s, id, m)
    case CaptureIrreversible(id) => s.lock || AuditWorks(s, id, m, r)
    case _ => s.lock && !EndsAll(s, c, m) && !EndsOne(s, c, m)
  }

  function CapturedAfter(s: Live, c: Call, m: Machine): set<StepId> {
    if EndsAll(s, c, m) then {}
    else if EndsOne(s, c, m) then s.captured - {c.id}
    else if c.CaptureBackups? && CaptureWorks(s, c.id, m) then s.captured + {c.id}
    else s.captured
  }

  /** The page file (P1:8) stays bound. */
  function BoundAfter(s: Live, c: Call, m: Machine): set<StepId> {
    if EndsAll(s, c, m) then s.bound * {StepId(One, 8)}
    else if EndsOne(s, c, m) then if At(c.id, One, {8}) then s.bound else s.bound - {c.id}
    else if c.CaptureBackups? && CaptureWorks(s, c.id, m) && Bindable(c.id) && !At(c.id, Three, {2, 3}) then s.bound + {c.id}
    else if c.Inspect? && At(c.id, Three, {2, 3}) && m.view.sees then s.bound + {c.id}
    else s.bound
  }

  lemma StepsAre(id: StepId)
    ensures IsDriver(id) <==> Driver(id)
    ensures IsObservation(id) <==> Observed(id)
    ensures AlwaysVerifies(id) <==> Unlooked(id)
    ensures NeedsBinding(id) <==> Bindable(id)
    ensures BindsAtInspection(id) <==> At(id, Three, {2, 3})
    ensures BindsAtCapture(id) <==> Bindable(id) && !At(id, Three, {2, 3})
    ensures IsCapturable(id) <==> Capturable(id)
    ensures ActionOf(id).ProfileApply? <==> At(id, Three, {4})
    ensures ActionOf(id).FinalCapture? <==> At(id, Three, {13})
    ensures ActionOf(id).CfgFiles? || ActionOf(id).NetworkTransaction? <==> At(id, One, {16, 34})
  {
  }

  lemma AdvisersAre(id: StepId)
    ensures ActionOf(id).Advises? <==> !Observed(id) && !Unlooked(id) && !Capturable(id)
  {
  }

  lemma CaptureIs(s: Live, id: StepId, m: Machine)
    ensures Captures(s, CaptureBackups(id), m) <==> CaptureWorks(s, id, m)
    ensures Strands(s, CaptureBackups(id), m) <==> CaptureStrands(s, id, m)
  {
    hide ActionOf, IsCapturable, BindsAtInspection, Capturable;
    StepsAre(id);
    CapturableAre(id);
  }

  lemma CapturableAre(id: StepId)
    ensures At(id, Three, {13}) ==> !Capturable(id)
    ensures At(id, Three, {2, 3, 4}) ==> Capturable(id)
    ensures Driver(id) ==> !Capturable(id)
    ensures Unlooked(id) ==> !Capturable(id)
    ensures Observed(id) ==> !Capturable(id) && !Unlooked(id)
  {
  }

  lemma ApplyIs(s: Live, id: StepId, m: Machine, r: RecoveryRequirement)
    ensures Answers(s, Apply(id), m, r) <==> ApplyWorks(s, id, m)
    ensures Abandons(s, Apply(id), m) <==> EndsOne(s, Apply(id), m)
  {
    hide ActionOf, IsCapturable, NeedsBinding, Capturable, IsDriver, Driver, Bindable, Next;
    StepsAre(id);
    CapturableAre(id);
  }

  lemma VerifyIs(s: Live, id: StepId, m: Machine, r: RecoveryRequirement)
    ensures Answers(s, Verify(id), m, r) <==> VerifyWorks(s, id, m)
    ensures Abandons(s, Verify(id), m) <==> EndsOne(s, Verify(id), m)
  {
    hide ActionOf, IsCapturable, NeedsBinding, Capturable, IsObservation, Observed, AlwaysVerifies, Unlooked, Bindable, Next;
    StepsAre(id);
    AdvisersAre(id);
    CapturableAre(id);
    BindableAre(id);
  }

  lemma BindableAre(id: StepId)
    ensures Bindable(id) ==> Capturable(id)
    ensures At(id, One, {16, 34}) ==> Bindable(id)
  {
  }

  lemma AuditIs(s: Live, id: StepId, m: Machine, r: RecoveryRequirement)
    ensures CapturesAudit(s, CaptureIrreversible(id), m, r) <==> AuditWorks(s, id, m, r)
  {
    hide PendingOf;
  }

  /** The call answers and leaves behind what the table says. */
  ghost predicate AsTabled(s: Live, c: Call, m: Machine, r: RecoveryRequirement) {
    var after := Next(s, c, m, r);
    && (Answers(s, c, m, r) <==> Answer(s, c, m, r))
    && (after.lock <==> LockAfter(s, c, m, r))
    && after.captured == CapturedAfter(s, c, m)
    && after.bound == BoundAfter(s, c, m)
    && after.stored == if c.PersistBackups? && Answer(s, c, m, r) then PushedAll(s.stored, c.entries) else s.stored
  }

  lemma InspectCall(s: Live, id: StepId, m: Machine, r: RecoveryRequirement)
    ensures AsTabled(s, Inspect(id), m, r)
  {
    hide ActionOf, Finding, PendingOf, Persisted, Replaced, Captures, Strands, CaptureWorks, CaptureStrands, AuditWorks,
      CapturesAudit, ApplyWorks, VerifyWorks, EndsOne, Abandons, NeverFound, PushedAll, BindsAtCapture, BindsAtInspection,
      Bindable, AuditsAfter;
    NotThere(s, Inspect(id), m, r);
    FindingIff(id, m.view);
    StepsAre(id);
    InspectFinds(id, m.view);
  }

  lemma CaptureCall(s: Live, id: StepId, m: Machine, r: RecoveryRequirement)
    ensures AsTabled(s, CaptureBackups(id), m, r)
  {
    hide ActionOf, Finding, PendingOf, Persisted, Replaced, Captures, Strands, CaptureWorks, CaptureStrands, AuditWorks,
      CapturesAudit, ApplyWorks, VerifyWorks, EndsOne, Abandons, NeverFound, PushedAll, BindsAtCapture, BindsAtInspection,
      Bindable, AuditsAfter;
    NotThere(s, CaptureBackups(id), m, r);
    CaptureIs(s, id, m);
    StepsAre(id);
  }

  lemma AuditCall(s: Live, id: StepId, m: Machine, r: RecoveryRequirement)
    ensures AsTabled(s, CaptureIrreversible(id), m, r)
  {
    hide ActionOf, Finding, PendingOf, Persisted, Replaced, Captures, Strands, CaptureWorks, CaptureStrands, AuditWorks,
      CapturesAudit, ApplyWorks, VerifyWorks, EndsOne, Abandons, NeverFound, PushedAll, BindsAtCapture, BindsAtInspection,
      Bindable, AuditsAfter;
    NotThere(s, CaptureIrreversible(id), m, r);
    AuditIs(s, id, m, r);
  }

  lemma ApplyCall(s: Live, id: StepId, m: Machine, r: RecoveryRequirement)
    ensures AsTabled(s, Apply(id), m, r)
  {
    hide ActionOf, Finding, PendingOf, Persisted, Replaced, Captures, Strands, CaptureWorks, CaptureStrands, AuditWorks,
      CapturesAudit, ApplyWorks, VerifyWorks, EndsOne, Abandons, NeverFound, PushedAll, BindsAtCapture, BindsAtInspection,
      Bindable, AuditsAfter;
    NotThere(s, Apply(id), m, r);
    ApplyIs(s, id, m, r);
    PageFileIs(id);
  }

  lemma VerifyCall(s: Live, id: StepId, m: Machine, r: RecoveryRequirement)
    ensures AsTabled(s, Verify(id), m, r)
  {
    hide ActionOf, Finding, PendingOf, Persisted, Replaced, Captures, Strands, CaptureWorks, CaptureStrands, AuditWorks,
      CapturesAudit, ApplyWorks, VerifyWorks, EndsOne, Abandons, NeverFound, PushedAll, BindsAtCapture, BindsAtInspection,
      Bindable, AuditsAfter;
    NotThere(s, Verify(id), m, r);
    VerifyIs(s, id, m, r);
    PageFileIs(id);
  }

  lemma OtherCall(s: Live, c: Call, m: Machine, r: RecoveryRequirement)
    requires !c.Inspect? && !c.CaptureBackups? && !c.CaptureIrreversible? && !c.Apply? && !c.Verify?
    ensures AsTabled(s, c, m, r)
  {
    hide ActionOf, Finding, PendingOf, Persisted, Replaced, Captures, Strands, CaptureWorks, CaptureStrands, AuditWorks,
      CapturesAudit, ApplyWorks, VerifyWorks, EndsOne, Abandons, NeverFound, PushedAll, BindsAtCapture, BindsAtInspection,
      Bindable, AuditsAfter;
    NotThere(s, c, m, r);
  }

  /** Each call answers and leaves behind what the table says. */
  lemma CallsAre(s: Live, c: Call, m: Machine, r: RecoveryRequirement)
    ensures AsTabled(s, c, m, r)
  {
    hide AsTabled;
    match c
    case Inspect(id) => InspectCall(s, id, m, r);
    case CaptureBackups(id) => CaptureCall(s, id, m, r);
    case CaptureIrreversible(id) => AuditCall(s, id, m, r);
    case Apply(id) => ApplyCall(s, id, m, r);
    case Verify(id) => VerifyCall(s, id, m, r);
    case _ => OtherCall(s, c, m, r);
  }

  lemma PageFileIs(id: StepId)
    ensures At(id, One, {8}) <==> id == PAGEFILE
  {
  }

  lemma InspectFinds(id: StepId, v: View)
    ensures At(id, Three, {2, 3}) ==> (NeverFound(id, v) <==> !v.sees)
  {
  }

  /** Only captures capture, only audit captures take the lock for an audit, and only applies and
      verifications give up their step. */
  lemma NotThere(s: Live, c: Call, m: Machine, r: RecoveryRequirement)
    ensures !c.CaptureBackups? ==> !Captures(s, c, m) && !Strands(s, c, m)
    ensures !c.CaptureIrreversible? ==> !CapturesAudit(s, c, m, r)
    ensures !c.Apply? && !c.Verify? ==> !Abandons(s, c, m) && !EndsOne(s, c, m)
  {
    hide ActionOf, PendingOf;
  }
}
