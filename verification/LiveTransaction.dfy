/** The live backend: one transaction at a time, and no mutation outside it.

    The backend answers the engine's calls. What the machine does at a call (the
    work lock, native reads and writes, files, the runtime's authority, and what it
    shows an inspection) is data. */
module LiveTransaction {
  import opened Wrappers
  import opened Catalog
  import opened ProgressRecord
  import opened Audit
  import opened AuditFile
  import opened Backup
  import opened EngineModel
  import opened LiveSteps

  const PAGEFILE := StepId(One, 8)

  datatype Machine = Machine(
    lockFree: bool, native: bool, readable: bool, writable: bool, authorized: bool, view: View)

  /** Steps that remove or install a driver, on the authority of the selected runtime. */
  predicate IsDriver(id: StepId) { id == DRIVER_CLEANUP || id == DRIVER_INSTALL }

  /** Check-only steps that verify without any transaction. */
  predicate IsObservation(id: StepId) {
    ActionOf(id) in {ObserveConfig, ObserveGpu, BaselineCapture, FinalCapture, ObserveMemory, ObserveChipset, FpsCapInfo}
  }

  /** Steps whose inspection binds the devices that the later calls work on. */
  predicate BindsAtInspection(id: StepId) { ActionOf(id).Interrupts? }

  /** Steps whose capture makes that binding. */
  predicate BindsAtCapture(id: StepId) {
    ActionOf(id) in {PageFile, NetworkTransaction, GpuPreference, CfgFiles, ProfileApply}
  }

  predicate NeedsBinding(id: StepId) { BindsAtInspection(id) || BindsAtCapture(id) }

  /** Only these steps have a byte-exact capture and a captured mutation. */
  predicate IsCapturable(id: StepId) {
    NeedsBinding(id) || ActionOf(id).RegistryBatch? || ActionOf(id).BootTool?
  }

  /** Guidance, preparation, handoff and driver steps verify without looking. */
  predicate AlwaysVerifies(id: StepId) {
    ActionOf(id) in {CleanPreparation, DownloadPreparation, ProfilePreparation, InterruptPreparation, Handoff, Guide,
                     AmdGuide, DriverRemoval, DriverInstall}
  }

  /** Only the driver steps declare anything but byte-exact backups. */
  function LiveRecovery(id: StepId): RecoveryRequirement {
    if IsDriver(id) then ManualRecoveryAudit else LosslessBackup
  }

  datatype Live = Live(lock: bool, captured: set<StepId>, bound: set<StepId>, stored: seq<BackupEntry>,
                       audits: seq<Irreversible>)
  {
    /** The binding of the page file is kept. */
    function Cleared(): Live { Live(false, {}, bound * {PAGEFILE}, stored, audits) }

    function Abandoned(id: StepId): Live {
      Live(false, captured - {id}, bound - ({id} - {PAGEFILE}), stored, audits)
    }
  }

  const IDLE := Live(false, {}, {}, [], [])

  /** The capture takes the work lock. */
  predicate TakesLock(s: Live, c: Call, m: Machine) {
    c.CaptureBackups? && c.id != FINAL_BENCHMARK && !s.lock && m.lockFree
  }

  predicate Captures(s: Live, c: Call, m: Machine) {
    TakesLock(s, c, m) && IsCapturable(c.id) && m.native && (BindsAtInspection(c.id) ==> c.id in s.bound)
  }

  /** A failed capture releases the lock again, but for these early returns. */
  predicate Strands(s: Live, c: Call, m: Machine) {
    && TakesLock(s, c, m) && !Captures(s, c, m)
    && (if BindsAtInspection(c.id) then c.id !in s.bound else ActionOf(c.id).ProfileApply?)
  }

  /** The irreversible audit capture: takes the lock for a driver step, and expects it held for a mixed one. */
  predicate CapturesAudit(s: Live, c: Call, m: Machine, r: RecoveryRequirement) {
    && c.CaptureIrreversible? && HasManualTarget(c.id) && m.readable && |PendingOf(s.audits, c.id)| <= 1
    && match r
       case ManualRecoveryAudit => !s.lock && m.lockFree
       case Mixed => s.lock
       case _ => false
  }

  /** The call passes the gate in front of the native mutation of an ordinary step. */
  predicate Mutates(s: Live, c: Call) {
    c.Apply? && c.id != FINAL_BENCHMARK && !IsDriver(c.id) && c.id in s.captured && s.lock
  }

  /** The native mutation of a captured step succeeds. */
  predicate Applies(s: Live, id: StepId, m: Machine) { IsCapturable(id) && HasBinding(s, id) && m.native }

  predicate HasBinding(s: Live, id: StepId) { NeedsBinding(id) ==> id in s.bound }

  /** A verification that returns before it can give up the transaction. */
  predicate VerifiesEarly(s: Live, id: StepId) {
    IsObservation(id) || ((ActionOf(id).CfgFiles? || ActionOf(id).NetworkTransaction?) && id !in s.bound)
  }

  predicate Verifies(s: Live, id: StepId, m: Machine) {
    || AlwaysVerifies(id)
    || (m.native && !ActionOf(id).FinalCapture? && !ActionOf(id).Advises? && (IsObservation(id) || HasBinding(s, id)))
  }

  /** What each call answers. */
  predicate Answers(s: Live, c: Call, m: Machine, r: RecoveryRequirement) {
    match c
    case Inspect(id) => Finding(id, m.view).Some?
    case CaptureBackups(_) => Captures(s, c, m)
    case PersistBackups(_) => s.lock && m.readable && m.writable
    case CaptureAudit(_) => false
    case PersistAudit(_) => false
    case FinalizeAudit(_) => false
    case CaptureIrreversible(_) => CapturesAudit(s, c, m, r)
    case PersistIrreversible(a) => s.lock && m.readable && m.writable && Persisted(s.audits, a).Some?
    case FinalizeIrreversible(a) => s.lock && m.readable && m.writable && Replaced(s.audits, a, false).Some?
    case FailIrreversible(a) => s.lock && m.readable && m.writable && Replaced(s.audits, a, true).Some?
    case Apply(id) => if IsDriver(id) then m.authorized && m.native else Mutates(s, c) && Applies(s, id, m)
    case Verify(id) => Verifies(s, id, m)
    case PersistProgress(_) => (s.lock || m.lockFree) && m.writable
    case _ => m.native
  }

  /** The call drops the lock and every captured step. */
  predicate Clears(s: Live, c: Call, m: Machine) {
    || c.FailIrreversible?
    || (c.PersistProgress? && (s.lock || m.lockFree) && m.writable)
    || (c.PersistBackups? && s.lock && m.readable && !m.writable)
  }

  /** The failed apply or verification gives up the transaction of its step. */
  predicate Abandons(s: Live, c: Call, m: Machine) {
    || (Mutates(s, c) && !Applies(s, c.id, m))
    || (c.Verify? && !VerifiesEarly(s, c.id) && !Verifies(s, c.id, m))
  }

  /** What the audit file holds after the call. */
  function AuditsAfter(s: Live, c: Call, m: Machine): seq<Irreversible> {
    if !(s.lock && m.readable && m.writable) then s.audits
    else
      var written :=
        match c
        case PersistIrreversible(a) => Persisted(s.audits, a)
        case FinalizeIrreversible(a) => Replaced(s.audits, a, false)
        case FailIrreversible(a) => Replaced(s.audits, a, true)
        case _ => None;
      if written.Some? then written.value else s.audits
  }

  function Next(s: Live, c: Call, m: Machine, r: RecoveryRequirement): Live {
    Moved(s, c, m, r).(audits := AuditsAfter(s, c, m))
  }

  /** What the call does to everything but the audit file. */
  function Moved(s: Live, c: Call, m: Machine, r: RecoveryRequirement): Live {
    if Captures(s, c, m) then
      s.(lock := true, captured := s.captured + {c.id}, bound := if BindsAtCapture(c.id) then s.bound + {c.id} else s.bound)
    else if Strands(s, c, m) || CapturesAudit(s, c, m, r) then s.(lock := true)
    else if Clears(s, c, m) then s.Cleared()
    else if Abandons(s, c, m) then s.Abandoned(c.id)
    else if c.Inspect? && BindsAtInspection(c.id) && Finding(c.id, m.view).Some? then s.(bound := s.bound + {c.id})
    else if c.PersistBackups? && s.lock && m.readable && m.writable then s.(stored := PushedAll(s.stored, c.entries))
    else s
  }

  // What single calls come to

  lemma AfterCapture(s: Live, id: StepId, m: Machine, r: RecoveryRequirement)
    ensures var c := CaptureBackups(id);
            && Answers(s, c, m, r) == Captures(s, c, m)
            && Next(s, c, m, r) ==
               if Captures(s, c, m) then
                 s.(lock := true, captured := s.captured + {id}, bound := if BindsAtCapture(id) then s.bound + {id} else s.bound)
               else if Strands(s, c, m) then s.(lock := true) else s
  {
    hide ActionOf;
  }

  lemma AfterApply(s: Live, id: StepId, m: Machine, r: RecoveryRequirement)
    ensures Answers(s, Apply(id), m, r) ==
            if IsDriver(id) then m.authorized && m.native else Mutates(s, Apply(id)) && Applies(s, id, m)
    ensures Next(s, Apply(id), m, r) == if Mutates(s, Apply(id)) && !Applies(s, id, m) then s.Abandoned(id) else s
  {
    hide ActionOf;
  }

  lemma AfterVerify(s: Live, id: StepId, m: Machine, r: RecoveryRequirement)
    ensures Answers(s, Verify(id), m, r) == Verifies(s, id, m)
    ensures Next(s, Verify(id), m, r) == if !VerifiesEarly(s, id) && !Verifies(s, id, m) then s.Abandoned(id) else s
  {
    hide ActionOf;
  }

  lemma AfterPersistAudit(s: Live, a: Irreversible, m: Machine, r: RecoveryRequirement)
    ensures var ok := s.lock && m.readable && m.writable && Persisted(s.audits, a).Some?;
            && Answers(s, PersistIrreversible(a), m, r) == ok
            && Next(s, PersistIrreversible(a), m, r) == if ok then s.(audits := Persisted(s.audits, a).value) else s
  {
    hide ActionOf, Persisted;
  }

  class LiveBackend {
    var transactionLock: bool
    var capturedSteps: set<StepId>
    var bindings: set<StepId>
    var stored: seq<BackupEntry>
    var audits: seq<Irreversible>

    function Now(): Live
      reads this
    {
      Live(transactionLock, capturedSteps, bindings, stored, audits)
    }

    constructor ()
      ensures Now() == IDLE
    {
      transactionLock, capturedSteps, bindings, stored, audits := false, {}, {}, [], [];
    }

    method ClearTransactionState()
      modifies this
      ensures Now() == old(Now()).Cleared()
    {
      transactionLock := false;
      capturedSteps := {};
      bindings := bindings * {PAGEFILE};
    }

    method AbandonTransaction(id: StepId)
      modifies this
      ensures Now() == old(Now()).Abandoned(id)
    {
      transactionLock := false;
      capturedSteps := capturedSteps - {id};
      if id != PAGEFILE { bindings := bindings - {id}; }
    }

    /** Never finds anything for P1:16 and P2:2, and for P3:1 and P3:4 at most that they do not apply. */
    method InspectOperation(id: StepId, m: Machine, r: RecoveryRequirement) returns (found: Option<Inspection>)
      modifies this
      ensures Now() == Next(old(Now()), Inspect(id), m, r)
      ensures found == Finding(id, m.view) && (found.Some? <==> Answers(old(Now()), Inspect(id), m, r))
      ensures GoesOn(found) ==> CanComplete(id)
    {
      found := Finding(id, m.view);
      if found.Some? && BindsAtInspection(id) { bindings := bindings + {id}; }
      FindingsAre(id);
    }

    method CaptureBackups(id: StepId, m: Machine, r: RecoveryRequirement) returns (ok: bool)
      modifies this
      ensures Now() == Next(old(Now()), EngineModel.CaptureBackups(id), m, r)
      ensures ok == Answers(old(Now()), EngineModel.CaptureBackups(id), m, r)
    {
      hide Next, Answers, ActionOf;
      AfterCapture(Now(), id, m, r);
      if id == FINAL_BENCHMARK { return false; }
      if transactionLock { return false; }
      if !m.lockFree { return false; }
      transactionLock := true;
      if BindsAtInspection(id) && id !in bindings { return false; }
      if !m.native {
        if !ActionOf(id).ProfileApply? { transactionLock := false; }
        return false;
      }
      if !IsCapturable(id) {
        transactionLock := false;
        return false;
      }
      if BindsAtCapture(id) { bindings := bindings + {id}; }
      capturedSteps := capturedSteps + {id};
      return true;
    }

    method PersistBackups(entries: seq<BackupEntry>, m: Machine, r: RecoveryRequirement) returns (ok: bool)
      modifies this
      ensures Now() == Next(old(Now()), EngineModel.PersistBackups(entries), m, r)
      ensures ok == Answers(old(Now()), EngineModel.PersistBackups(entries), m, r)
    {
      if !transactionLock { return false; }
      if !m.readable { return false; }
      var file := new BackupFile(stored);
      file.PushBatch(entries);
      if !m.writable {
        ClearTransactionState();
        return false;
      }
      stored := file.entries;
      return true;
    }

    /** A driver step takes the lock here, and releases it if the audit file is no good. A
        pending record that stands is found again. */
    method CaptureIrreversibleAudit(id: StepId, now: string, m: Machine, r: RecoveryRequirement)
      returns (audit: Option<Irreversible>)
      modifies this
      ensures Now() == Next(old(Now()), CaptureIrreversible(id), m, r)
      ensures audit.Some? <==> Answers(old(Now()), CaptureIrreversible(id), m, r)
      ensures audit.Some? ==> HasManualTarget(id) && audit == CapturedAudit(old(audits), id, r, now)
    {
      hide ActionOf, PendingOf;
      if !HasManualTarget(id) { return None; }
      if r == ManualRecoveryAudit {
        if transactionLock { return None; }
        if !m.lockFree { return None; }
        transactionLock := true;
      } else if r != Mixed {
        return None;
      } else if !transactionLock {
        return None;
      }
      audit := if m.readable then CapturedAudit(audits, id, r, now) else None;
      if audit.None? && r == ManualRecoveryAudit { transactionLock := false; }
    }

    method PersistIrreversibleAudit(audit: Irreversible, m: Machine, r: RecoveryRequirement) returns (ok: bool)
      modifies this
      ensures Now() == Next(old(Now()), PersistIrreversible(audit), m, r)
      ensures ok == Answers(old(Now()), PersistIrreversible(audit), m, r)
    {
      hide Next, Answers, ActionOf, PendingOf, Irreversible.IsValidPendingFor;
      AfterPersistAudit(Now(), audit, m, r);
      if !transactionLock { return false; }
      if !audit.IsValidPendingFor(KindOf(audit), audit.step) { return false; }
      if !m.readable { return false; }
      var file := audits;
      var pending := PendingOf(file, audit.step);
      if |pending| > 1 { return false; }
      if |pending| == 1 {
        if pending[0] != audit { return false; }
      } else {
        file := file + [audit];
      }
      if !m.writable { return false; }
      audits := file;
      return true;
    }

    /** Replaces the one pending record that the closed one matches, entry by entry. */
    method ReplaceIrreversibleAudit(closed: Irreversible, failed: bool, m: Machine) returns (ok: bool)
      modifies this`audits
      ensures ok <==> transactionLock && m.readable && m.writable && Replaced(old(audits), closed, failed).Some?
      ensures audits == if ok then Replaced(old(audits), closed, failed).value else old(audits)
    {
      hide Matches;
      if !transactionLock || !IsClosing(closed, failed) || !m.readable { return false; }
      var file: seq<Irreversible> := [];
      var matches := 0;
      for i := 0 to |audits|
        invariant file == ClosedAll(audits[..i], closed)
        invariant matches == CountMatches(audits[..i], closed)
      {
        assert audits[..i + 1][..i] == audits[..i];
        if Matches(audits[i], closed) {
          file := file + [closed];
          matches := matches + 1;
        } else {
          file := file + [audits[i]];
        }
      }
      assert audits[..|audits|] == audits;
      if matches != 1 || !m.writable { return false; }
      audits := file;
      return true;
    }

    method FinalizeIrreversibleAudit(closed: Irreversible, m: Machine, r: RecoveryRequirement) returns (ok: bool)
      modifies this
      ensures Now() == Next(old(Now()), FinalizeIrreversible(closed), m, r)
      ensures ok == Answers(old(Now()), FinalizeIrreversible(closed), m, r)
    {
      hide ActionOf, Replaced;
      ok := ReplaceIrreversibleAudit(closed, false, m);
    }

    /** A failed outcome ends the transaction, whether it could be stored or not. */
    method FailIrreversibleAudit(closed: Irreversible, m: Machine, r: RecoveryRequirement) returns (ok: bool)
      modifies this
      ensures Now() == Next(old(Now()), FailIrreversible(closed), m, r)
      ensures ok == Answers(old(Now()), FailIrreversible(closed), m, r)
    {
      hide ActionOf, Replaced;
      ok := ReplaceIrreversibleAudit(closed, true, m);
      ClearTransactionState();
    }

    method ApplyOperation(id: StepId, m: Machine, r: RecoveryRequirement) returns (ok: bool)
      modifies this
      ensures Now() == Next(old(Now()), Apply(id), m, r)
      ensures ok == Answers(old(Now()), Apply(id), m, r)
    {
      hide Next, Answers, ActionOf;
      AfterApply(Now(), id, m, r);
      if id == FINAL_BENCHMARK { return false; }
      if IsDriver(id) { return m.authorized && m.native; }
      if id !in capturedSteps { return false; }
      if !transactionLock { return false; }
      ok := IsCapturable(id) && m.native && (NeedsBinding(id) ==> id in bindings);
      if !ok { AbandonTransaction(id); }
    }

    method VerifyOperation(id: StepId, m: Machine, r: RecoveryRequirement) returns (ok: bool)
      modifies this
      ensures Now() == Next(old(Now()), Verify(id), m, r)
      ensures ok == Answers(old(Now()), Verify(id), m, r)
    {
      hide Next, Answers, ActionOf;
      AfterVerify(Now(), id, m, r);
      if IsObservation(id) { return m.native && !ActionOf(id).FinalCapture?; }
      if (ActionOf(id).CfgFiles? || ActionOf(id).NetworkTransaction?) && id !in bindings { return false; }
      ok := AlwaysVerifies(id) || (m.native && !ActionOf(id).Advises? && (NeedsBinding(id) ==> id in bindings));
      if !ok { AbandonTransaction(id); }
    }

    method StoreProgress(p: Progress, m: Machine, r: RecoveryRequirement) returns (ok: bool)
      modifies this
      ensures Now() == Next(old(Now()), PersistProgress(p), m, r)
      ensures ok == Answers(old(Now()), PersistProgress(p), m, r)
    {
      if !transactionLock && !m.lockFree { return false; }
      if m.writable { ClearTransactionState(); }
      return m.writable;
    }
  }

  /** No call ever leaves two pending records of a step in the audit file. */
  lemma NextKeepsSinglePending(s: Live, c: Call, m: Machine, r: RecoveryRequirement)
    requires SinglePending(s.audits)
    ensures SinglePending(Next(s, c, m, r).audits)
  {
    hide SinglePending, Persisted, Replaced, Moved;
    match c
    case PersistIrreversible(a) => SinglePendingStays(s.audits, a, false);
    case FinalizeIrreversible(a) => SinglePendingStays(s.audits, a, false);
    case FailIrreversible(a) => SinglePendingStays(s.audits, a, true);
    case _ =>
  }

  // Call sequences of any kind

  /** A backend that answers the calls made from position `start` of a trace on. */
  datatype Backend = Backend(oracle: Oracle, machine: seq<Call> -> Machine, initial: Live, start: nat)

  function LiveAt(b: Backend, t: seq<Call>): Live {
    if |t| <= b.start then b.initial
    else
      var n := |t| - 1;
      Next(LiveAt(b, t[..n]), t[n], b.machine(t), Requirement(b, t[n]))
  }

  function Requirement(b: Backend, c: Call): RecoveryRequirement {
    if c.CaptureIrreversible? then b.oracle.recovery(c.id) else LosslessBackup
  }

  ghost predicate CapturesAt(b: Backend, t: seq<Call>, k: nat, id: StepId)
    requires k < |t|
  {
    Captures(LiveAt(b, t[..k]), t[k], b.machine(t[..k + 1])) && t[k].id == id
  }

  ghost predicate ClearsAt(b: Backend, t: seq<Call>, k: nat)
    requires k < |t|
  {
    Clears(LiveAt(b, t[..k]), t[k], b.machine(t[..k + 1]))
  }

  ghost predicate AbandonsAt(b: Backend, t: seq<Call>, k: nat, id: StepId)
    requires k < |t|
  {
    Abandons(LiveAt(b, t[..k]), t[k], b.machine(t[..k + 1])) && t[k].id == id
  }

  ghost predicate AbandonsOtherAt(b: Backend, t: seq<Call>, k: nat, id: StepId)
    requires k < |t|
  {
    Abandons(LiveAt(b, t[..k]), t[k], b.machine(t[..k + 1])) && t[k].id != id
  }

  /** Call `j` captured the step, and no call since gave that capture up. */
  ghost predicate CapturedBy(b: Backend, t: seq<Call>, j: nat, id: StepId) {
    && b.start <= j < |t|
    && CapturesAt(b, t, j, id)
    && forall k | j < k < |t| :: !ClearsAt(b, t, k) && !AbandonsAt(b, t, k, id)
  }

  lemma CapturedStep(s: Live, c: Call, m: Machine, r: RecoveryRequirement, id: StepId)
    ensures id in Next(s, c, m, r).captured
       <==> || (Captures(s, c, m) && c.id == id)
            || (id in s.captured && !Clears(s, c, m) && !(Abandons(s, c, m) && c.id == id))
  {
  }

  lemma PrefixAt(b: Backend, t: seq<Call>, k: nat, id: StepId)
    requires k + 1 < |t|
    ensures var u := t[..|t| - 1];
            && (CapturesAt(b, u, k, id) <==> CapturesAt(b, t, k, id))
            && (ClearsAt(b, u, k) <==> ClearsAt(b, t, k))
            && (AbandonsAt(b, u, k, id) <==> AbandonsAt(b, t, k, id))
            && (AbandonsOtherAt(b, u, k, id) <==> AbandonsOtherAt(b, t, k, id))
  {
    var u := t[..|t| - 1];
    assert u[..k] == t[..k] && u[..k + 1] == t[..k + 1];
  }

  lemma PrefixesAt(b: Backend, t: seq<Call>, id: StepId)
    requires t != []
    ensures var u := t[..|t| - 1];
            && (forall k: nat | k < |u| :: CapturesAt(b, u, k, id) <==> CapturesAt(b, t, k, id))
            && (forall k: nat | k < |u| :: ClearsAt(b, u, k) <==> ClearsAt(b, t, k))
            && (forall k: nat | k < |u| :: AbandonsAt(b, u, k, id) <==> AbandonsAt(b, t, k, id))
            && (forall k: nat | k < |u| :: AbandonsOtherAt(b, u, k, id) <==> AbandonsOtherAt(b, t, k, id))
  {
    hide CapturesAt, ClearsAt, AbandonsAt, AbandonsOtherAt;
    forall k: nat | k < |t| - 1
      ensures var u := t[..|t| - 1];
              && (CapturesAt(b, u, k, id) <==> CapturesAt(b, t, k, id))
              && (ClearsAt(b, u, k) <==> ClearsAt(b, t, k))
              && (AbandonsAt(b, u, k, id) <==> AbandonsAt(b, t, k, id))
              && (AbandonsOtherAt(b, u, k, id) <==> AbandonsOtherAt(b, t, k, id))
    {
      PrefixAt(b, t, k, id);
    }
  }

  lemma {:induction false} Capturing(b: Backend, t: seq<Call>, id: StepId) returns (j: nat)
    requires b.initial.captured == {} && id in LiveAt(b, t).captured
    ensures CapturedBy(b, t, j, id)
  {
    hide Next, Captures, Clears, Abandons, CapturesAt, ClearsAt, AbandonsAt, AbandonsOtherAt;
    var n := |t| - 1;
    LastStep(b, t, id);
    if CapturesAt(b, t, n, id) {
      j := n;
    } else {
      j := Capturing(b, t[..n], id);
      PrefixesAt(b, t, id);
    }
  }

  lemma LastStep(b: Backend, t: seq<Call>, id: StepId)
    requires |t| > b.start
    ensures var n := |t| - 1;
            id in LiveAt(b, t).captured <==>
              || CapturesAt(b, t, n, id)
              || (id in LiveAt(b, t[..n]).captured && !ClearsAt(b, t, n) && !AbandonsAt(b, t, n, id))
  {
    hide Next, Captures, Clears, Abandons;
    var n := |t| - 1;
    assert t[..n + 1] == t;
    CapturedStep(LiveAt(b, t[..n]), t[n], b.machine(t), Requirement(b, t[n]), id);
  }

  lemma {:induction false} StillCaptured(b: Backend, t: seq<Call>, j: nat, id: StepId)
    requires CapturedBy(b, t, j, id)
    ensures id in LiveAt(b, t).captured
  {
    hide Next, LiveAt, Captures, Clears, Abandons, CapturesAt, ClearsAt, AbandonsAt;
    var n := |t| - 1;
    LastStep(b, t, id);
    if j < n {
      PrefixesAt(b, t, id);
      StillCaptured(b, t[..n], j, id);
    }
  }

  /** A step counts as captured exactly if some call captured it and none since gave it up. */
  lemma CapturedIff(b: Backend, t: seq<Call>, id: StepId)
    requires b.initial.captured == {}
    ensures id in LiveAt(b, t).captured <==> exists j :: CapturedBy(b, t, j, id)
  {
    hide LiveAt, CapturedBy;
    if id in LiveAt(b, t).captured {
      var j := Capturing(b, t, id);
    }
    if j: nat :| CapturedBy(b, t, j, id) {
      StillCaptured(b, t, j, id);
    }
  }

  /** An ordinary native mutation always follows a capture of the same step that is still standing. */
  lemma MutationFollowsCapture(b: Backend, t: seq<Call>, c: Call)
    requires b.initial.captured == {} && Mutates(LiveAt(b, t), c)
    ensures exists j :: CapturedBy(b, t, j, c.id)
  {
    hide LiveAt, CapturedBy;
    CapturedIff(b, t, c.id);
  }

  /** The lock that call `j` took has been held ever since. */
  ghost predicate HeldSince(b: Backend, t: seq<Call>, j: nat) {
    forall k | j < k <= |t| :: LiveAt(b, t[..k]).lock
  }

  /** The mutation passes the gate on a capture that is older than the lock it holds. */
  ghost predicate Stale(b: Backend, t: seq<Call>, c: Call) {
    Mutates(LiveAt(b, t), c) && forall j | CapturedBy(b, t, j, c.id) :: !HeldSince(b, t, j)
  }

  lemma LockStep(s: Live, c: Call, m: Machine, r: RecoveryRequirement)
    requires s.lock
    ensures Next(s, c, m, r).lock <==> !Clears(s, c, m) && !Abandons(s, c, m)
    ensures !Captures(s, c, m) && !TakesLock(s, c, m)
  {
  }

  lemma LockAt(b: Backend, t: seq<Call>, k: nat, id: StepId)
    requires b.start <= k < |t| && LiveAt(b, t[..k]).lock
    ensures LiveAt(b, t[..k + 1]).lock <==> !ClearsAt(b, t, k) && !AbandonsAt(b, t, k, id) && !AbandonsOtherAt(b, t, k, id)
  {
    hide Next, Clears, Abandons;
    var u := t[..k + 1];
    assert u[..k] == t[..k];
    LockStep(LiveAt(b, t[..k]), t[k], b.machine(u), Requirement(b, t[k]));
  }

  lemma CaptureTakesLock(b: Backend, t: seq<Call>, j: nat, id: StepId)
    requires b.start <= j < |t| && CapturesAt(b, t, j, id)
    ensures LiveAt(b, t[..j + 1]).lock
  {
    var u := t[..j + 1];
    assert u[..j] == t[..j];
  }

  lemma {:induction false} HeldUntil(b: Backend, t: seq<Call>, j: nat, id: StepId, k: nat)
    requires CapturedBy(b, t, j, id) && j < k <= |t|
    requires forall i: nat | j < i < |t| :: !AbandonsOtherAt(b, t, i, id)
    ensures LiveAt(b, t[..k]).lock
  {
    hide LiveAt, CapturesAt, ClearsAt, AbandonsAt, AbandonsOtherAt;
    if k == j + 1 {
      CaptureTakesLock(b, t, j, id);
    } else {
      HeldUntil(b, t, j, id, k - 1);
      LockAt(b, t, k - 1, id);
    }
  }

  lemma AbandonedLock(b: Backend, t: seq<Call>, i: nat, id: StepId)
    requires b.start <= i < |t| && AbandonsOtherAt(b, t, i, id)
    ensures !LiveAt(b, t[..i + 1]).lock
  {
    var u := t[..i + 1];
    assert u[..i] == t[..i];
  }

  /** Some call since `j` gave up another step. */
  ghost predicate OtherGivenUpSince(b: Backend, t: seq<Call>, j: nat, id: StepId) {
    exists i: nat :: j < i < |t| && AbandonsOtherAt(b, t, i, id)
  }

  /** The lock that took a standing capture is lost exactly by giving up another step. */
  lemma HeldSinceIff(b: Backend, t: seq<Call>, j: nat, id: StepId)
    requires CapturedBy(b, t, j, id)
    ensures HeldSince(b, t, j) <==> !OtherGivenUpSince(b, t, j, id)
  {
    hide LiveAt, CapturesAt, ClearsAt, AbandonsAt, AbandonsOtherAt;
    if OtherGivenUpSince(b, t, j, id) {
      var i: nat :| j < i < |t| && AbandonsOtherAt(b, t, i, id);
      AbandonedLock(b, t, i, id);
    } else {
      forall k | j < k <= |t| ensures LiveAt(b, t[..k]).lock {
        HeldUntil(b, t, j, id, k);
      }
    }
  }

  /** Over every call sequence, a mutation rests on a capture older than its lock if and
      only if, after each standing capture of its step, the apply or verification of
      another step failed and gave the lock up. */
  lemma StaleIff(b: Backend, t: seq<Call>, c: Call)
    requires Mutates(LiveAt(b, t), c)
    ensures Stale(b, t, c) <==> forall j: nat | CapturedBy(b, t, j, c.id) :: OtherGivenUpSince(b, t, j, c.id)
  {
    hide LiveAt, CapturedBy, HeldSince, OtherGivenUpSince;
    forall j: nat | CapturedBy(b, t, j, c.id)
      ensures HeldSince(b, t, j) <==> !OtherGivenUpSince(b, t, j, c.id)
    {
      HeldSinceIff(b, t, j, c.id);
    }
  }

  /** A machine on which everything succeeds but the verifications. */
  function VerifiesFail(o: Oracle): Backend {
    Backend(o, (t: seq<Call>) =>
      Machine(true, t == [] || !t[|t| - 1].Verify?, true, true, true, View(true, true, false, true, true, "")), IDLE, 0)
  }

  /** Such sequences exist: another step fails to verify and is then captured itself. */
  lemma StaleIsPossible(o: Oracle, x: StepId, y: StepId)
    requires x != y && IsCapturable(x) && IsCapturable(y) && !BindsAtInspection(x) && !BindsAtInspection(y)
    requires !ActionOf(y).CfgFiles? && !ActionOf(y).NetworkTransaction?
    ensures Stale(VerifiesFail(o), [CaptureBackups(x), Verify(y), CaptureBackups(y)], Apply(x))
  {
    hide Stale, ActionOf;
    var b := VerifiesFail(o);
    var t := [CaptureBackups(x), Verify(y), CaptureBackups(y)];
    var t1, t2 := t[..1], t[..2];
    assert t2[..1] == t1 && t1[..0] == [] && t[..3] == t;
    var s1, s2 := LiveAt(b, t1), LiveAt(b, t2);
    assert IDLE.captured + {x} == {x} && {x} - {y} == {x} && {x} + {y} == {x, y};
    assert LiveAt(b, []) == IDLE;
    OrdinarySteps(x);
    OrdinarySteps(y);
    assert s1 == Next(IDLE, CaptureBackups(x), b.machine(t1), LosslessBackup) && s1.lock && s1.captured == {x};
    assert s2 == Next(s1, Verify(y), b.machine(t2), LosslessBackup) && !s2.lock && s2.captured == {x};
    assert LiveAt(b, t).lock && LiveAt(b, t).captured == {x, y};
    StaleIff(b, t, Apply(x));
    forall j: nat | CapturedBy(b, t, j, x)
      ensures OtherGivenUpSince(b, t, j, x)
    {
      assert AbandonsOtherAt(b, t, 1, x);
    }
  }

  lemma OrdinarySteps(id: StepId)
    requires IsCapturable(id)
    ensures !IsDriver(id) && !IsObservation(id) && !AlwaysVerifies(id) && id != FINAL_BENCHMARK
  {
  }

  lemma HeldStep(b: Backend, t: seq<Call>, id: StepId)
    requires |t| > b.start && LiveAt(b, t[..|t| - 1]).lock
    requires var n := |t| - 1; !ClearsAt(b, t, n) && !AbandonsAt(b, t, n, id) && !AbandonsOtherAt(b, t, n, id)
    ensures LiveAt(b, t).lock && LiveAt(b, t).captured == LiveAt(b, t[..|t| - 1]).captured
    ensures !CapturesAt(b, t, |t| - 1, id)
  {
    hide Next, Captures, Clears, Abandons;
    var n := |t| - 1;
    assert t[..n + 1] == t;
    HeldNext(LiveAt(b, t[..n]), t[n], b.machine(t), Requirement(b, t[n]));
  }

  lemma HeldNext(s: Live, c: Call, m: Machine, r: RecoveryRequirement)
    requires s.lock && !Clears(s, c, m) && !Abandons(s, c, m)
    ensures !Captures(s, c, m) && Next(s, c, m, r).lock && Next(s, c, m, r).captured == s.captured
  {
    hide ActionOf, AuditsAfter, Abandons;
  }

  /** A held lock refuses every capture until a call clears or abandons the transaction. */
  lemma {:induction false} LockRefusesCaptures(b: Backend, t: seq<Call>, from: nat, id: StepId)
    requires b.start <= from <= |t| && LiveAt(b, t[..from]).lock
    requires forall k: nat | from <= k < |t| ::
               !ClearsAt(b, t, k) && !AbandonsAt(b, t, k, id) && !AbandonsOtherAt(b, t, k, id)
    ensures LiveAt(b, t).lock && LiveAt(b, t).captured == LiveAt(b, t[..from]).captured
    ensures forall k: nat | from <= k < |t| :: !CapturesAt(b, t, k, id)
  {
    hide Next, Captures, Clears, Abandons, CapturesAt, ClearsAt, AbandonsAt, AbandonsOtherAt;
    if from == |t| {
      assert t[..from] == t;
    } else {
      var n := |t| - 1;
      var rest := t[..n];
      PrefixesAt(b, t, id);
      assert rest[..from] == t[..from];
      LockRefusesCaptures(b, rest, from, id);
      HeldStep(b, t, id);
    }
  }
}
