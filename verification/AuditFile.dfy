/** The irreversible records of the audit file: a pending record is appended once per step,
    found again by every retry, and closed in place. */
module AuditFile {
  import opened Wrappers
  import opened Catalog
  import opened Audit

  predicate IsPendingOf(a: Irreversible, id: StepId) { a.step == id && a.outcome.Pending? }

  function PendingOf(entries: seq<Irreversible>, id: StepId): seq<Irreversible> {
    if entries == [] then []
    else (if IsPendingOf(entries[0], id) then [entries[0]] else []) + PendingOf(entries[1..], id)
  }

  function KindOf(a: Irreversible): RecoveryRequirement { if a.Manual? then ManualRecoveryAudit else Mixed }

  function NewAudit(id: StepId, r: RecoveryRequirement, now: string): Irreversible
    requires HasManualTarget(id)
  {
    if r == Mixed then MixedAudit(id, now, ExpectedManualTarget(id), [], Pending)
    else Manual(id, now, ExpectedManualTarget(id), Pending)
  }

  /** The pending record of the step, or a new one; several make a retry ambiguous. */
  function CapturedAudit(entries: seq<Irreversible>, id: StepId, r: RecoveryRequirement, now: string): Option<Irreversible>
    requires HasManualTarget(id)
  {
    var pending := PendingOf(entries, id);
    if |pending| > 1 then None else if |pending| == 1 then Some(pending[0]) else Some(NewAudit(id, r, now))
  }

  /** The entries with a pending record stored; it must be the one that stands, if one does. */
  function Persisted(entries: seq<Irreversible>, a: Irreversible): Option<seq<Irreversible>> {
    var pending := PendingOf(entries, a.step);
    if !a.IsValidPendingFor(KindOf(a), a.step) || |pending| > 1 then None
    else if |pending| == 1 then if pending[0] == a then Some(entries) else None
    else Some(entries + [a])
  }

  /** The pending record that this one closes. */
  predicate Matches(e: Irreversible, closed: Irreversible) {
    IsPendingOf(e, closed.step) && e.capturedAt == closed.capturedAt
  }

  function CountMatches(entries: seq<Irreversible>, closed: Irreversible): nat {
    if entries == [] then 0
    else CountMatches(entries[..|entries| - 1], closed) + if Matches(entries[|entries| - 1], closed) then 1 else 0
  }

  function ClosedAll(entries: seq<Irreversible>, closed: Irreversible): seq<Irreversible> {
    seq(|entries|, i requires 0 <= i < |entries| => if Matches(entries[i], closed) then closed else entries[i])
  }

  predicate IsClosing(closed: Irreversible, failed: bool) {
    !closed.outcome.Pending? && closed.outcome.Failed? == failed && closed.capturedAt != ""
  }

  /** The entries with exactly one pending record replaced by its closing. */
  function Replaced(entries: seq<Irreversible>, closed: Irreversible, failed: bool): Option<seq<Irreversible>> {
    if IsClosing(closed, failed) && CountMatches(entries, closed) == 1 then Some(ClosedAll(entries, closed)) else None
  }

  // Properties

  ghost predicate SinglePending(entries: seq<Irreversible>) {
    forall i, j | 0 <= i < j < |entries| && entries[i].outcome.Pending? && entries[j].outcome.Pending? ::
      entries[i].step != entries[j].step
  }

  lemma {:induction false} PendingOfIs(entries: seq<Irreversible>, id: StepId)
    ensures forall a | a in PendingOf(entries, id) :: a in entries && IsPendingOf(a, id)
    ensures PendingOf(entries, id) == [] <==> forall a | a in entries :: !IsPendingOf(a, id)
    ensures SinglePending(entries) ==> |PendingOf(entries, id)| <= 1
  {
    if entries != [] {
      PendingOfIs(entries[1..], id);
      assert entries == [entries[0]] + entries[1..];
      if SinglePending(entries) && IsPendingOf(entries[0], id) {
        forall a | a in entries[1..] ensures !IsPendingOf(a, id) {
          var j :| 0 <= j < |entries| - 1 && entries[1..][j] == a;
          assert entries[j + 1] == a;
        }
      }
    }
  }

  lemma {:induction false} CountIsPending(entries: seq<Irreversible>, closed: Irreversible)
    ensures CountMatches(entries, closed) == 0 <==> forall e | e in entries :: !Matches(e, closed)
    ensures SinglePending(entries) ==> CountMatches(entries, closed) <= 1
  {
    if entries != [] {
      var n := |entries| - 1;
      CountIsPending(entries[..n], closed);
      assert entries == entries[..n] + [entries[n]];
      if SinglePending(entries) && Matches(entries[n], closed) {
        forall e | e in entries[..n] ensures !Matches(e, closed) {
          var i :| 0 <= i < n && entries[..n][i] == e;
          assert entries[i] == e;
        }
      }
    }
  }

  /** No operation ever leaves two pending records of a step, so no retry is ambiguous. */
  lemma SinglePendingStays(entries: seq<Irreversible>, a: Irreversible, failed: bool)
    requires SinglePending(entries)
    ensures Persisted(entries, a).Some? ==> SinglePending(Persisted(entries, a).value)
    ensures Replaced(entries, a, failed).Some? ==> SinglePending(Replaced(entries, a, failed).value)
    ensures HasManualTarget(a.step) ==> forall r, now :: CapturedAudit(entries, a.step, r, now).Some?
  {
    hide Irreversible.IsValidPendingFor, PendingOf;
    PendingOfIs(entries, a.step);
    if Persisted(entries, a).Some? && PendingOf(entries, a.step) == [] {
      var after := entries + [a];
      forall i, j | 0 <= i < j < |after| && after[i].outcome.Pending? && after[j].outcome.Pending?
        ensures after[i].step != after[j].step
      {
        assert entries[i] in entries;
      }
    }
  }

  /** A stored pending record is what every later capture finds and every later persist keeps,
      whenever the retry comes. */
  lemma RetryFindsPending(entries: seq<Irreversible>, a: Irreversible, r: RecoveryRequirement, later: string)
    requires SinglePending(entries) && Persisted(entries, a).Some?
    ensures var stored := Persisted(entries, a).value;
            && HasManualTarget(a.step)
            && CapturedAudit(stored, a.step, r, later) == Some(a)
            && Persisted(stored, a) == Some(stored)
  {
    hide PendingOf;
    var stored := Persisted(entries, a).value;
    SinglePendingStays(entries, a, false);
    PendingOfIs(entries, a.step);
    PendingOfIs(stored, a.step);
    assert a in stored by {
      if PendingOf(entries, a.step) != [] {
        assert PendingOf(entries, a.step)[0] in PendingOf(entries, a.step);
      }
    }
    var found := PendingOf(stored, a.step)[0];
    assert found in PendingOf(stored, a.step);
    var i, j :| 0 <= i < |stored| && stored[i] == a && 0 <= j < |stored| && stored[j] == found;
    assert i == j;
  }

  /** Closing a stored pending record always works, replaces that record alone, and leaves none
      pending for the step. */
  lemma ClosingReplacesPending(entries: seq<Irreversible>, a: Irreversible, at: string, failed: bool)
    requires SinglePending(entries) && Persisted(entries, a).Some?
    ensures var stored := Persisted(entries, a).value;
            var closed := if failed then a.Fail(at) else a.Finalize(at);
            var after := Replaced(stored, closed, failed);
            && after.Some? && |after.value| == |stored|
            && (forall i | 0 <= i < |stored| :: after.value[i] == if stored[i] == a then closed else stored[i])
            && PendingOf(after.value, a.step) == []
  {
    hide PendingOf;
    var stored := Persisted(entries, a).value;
    var closed := if failed then a.Fail(at) else a.Finalize(at);
    RetryFindsPending(entries, a, ManualRecoveryAudit, at);
    SinglePendingStays(entries, a, false);
    PendingOfIs(stored, a.step);
    assert a in PendingOf(stored, a.step);
    CountIsPending(stored, closed);
    assert Matches(a, closed);
    OnlyPendingMatches(stored, a, closed);
    PendingOfIs(ClosedAll(stored, closed), a.step);
  }

  lemma OnlyPendingMatches(entries: seq<Irreversible>, a: Irreversible, closed: Irreversible)
    requires SinglePending(entries) && a in entries && Matches(a, closed) && !closed.outcome.Pending?
    ensures forall i | 0 <= i < |entries| :: Matches(entries[i], closed) <==> entries[i] == a
    ensures forall i | 0 <= i < |entries| :: IsPendingOf(entries[i], a.step) <==> entries[i] == a
    ensures forall e | e in ClosedAll(entries, closed) :: !IsPendingOf(e, a.step)
  {
    var k :| 0 <= k < |entries| && entries[k] == a;
    forall i | 0 <= i < |entries| ensures IsPendingOf(entries[i], a.step) <==> entries[i] == a {
      if IsPendingOf(entries[i], a.step) { PendingIsUnique(entries, i, k); }
    }
  }

  lemma PendingIsUnique(entries: seq<Irreversible>, i: nat, k: nat)
    requires SinglePending(entries) && i < |entries| && k < |entries|
    requires entries[i].outcome.Pending? && entries[k].outcome.Pending? && entries[i].step == entries[k].step
    ensures i == k
  {
  }

  // The exact conditions, on the records themselves

  /** The one irreversible target of a step. */
  predicate TargetOf(id: StepId, target: ManualTarget) {
    || (id == StepId(One, 13) && target == AppxRemovals)
    || (id == StepId(Two, 2) && target == ExactDriverPackageRemoval)
    || (id == StepId(Three, 1) && target == DriverInstallation)
  }

  /** Package names are short, and listed installed packages first, each kind in ascending order. */
  ghost predicate SubjectsListed(subjects: seq<AppxSubject>) {
    && (forall s | s in subjects :: 1 <= |SubjectName(s)| <= 1024)
    && forall i | 0 <= i < |subjects| - 1 :: ListedBefore(subjects[i], subjects[i + 1])
  }

  ghost predicate ListedBefore(a: AppxSubject, b: AppxSubject) {
    if a.Installed? != b.Installed? then a.Installed? else Precedes(SubjectName(a), SubjectName(b))
  }

  ghost predicate Precedes(a: string, b: string) { exists k: nat :: DiffersAt(a, b, k) }

  /** `a` ends at `k` or has the smaller character there, and agrees with `b` before. */
  predicate DiffersAt(a: string, b: string, k: nat) {
    k <= |a| && k < |b| && a[..k] == b[..k] && (k < |a| ==> a[k] < b[k])
  }

  lemma {:induction false} StringBeforeIff(a: string, b: string)
    ensures StringBefore(a, b) <==> Precedes(a, b)
  {
    if b != [] && a == [] {
      assert DiffersAt(a, b, 0);
    } else if b != [] {
      StringBeforeIff(a[1..], b[1..]);
      if a[0] < b[0] { assert DiffersAt(a, b, 0); }
      if a[0] == b[0] && StringBefore(a[1..], b[1..]) {
        var k: nat :| DiffersAt(a[1..], b[1..], k);
        assert a[..k + 1] == [a[0]] + a[1..][..k] && b[..k + 1] == [b[0]] + b[1..][..k];
        assert DiffersAt(a, b, k + 1);
      }
      if k: nat :| DiffersAt(a, b, k) {
        if k > 0 {
          assert a[..k][0] == b[..k][0];
          assert a[1..][..k - 1] == a[..k][1..] && b[1..][..k - 1] == b[..k][1..];
          assert DiffersAt(a[1..], b[1..], k - 1);
        }
      }
    }
  }

  lemma SubjectsIff(subjects: seq<AppxSubject>)
    ensures SubjectsAreValid(subjects) <==> SubjectsListed(subjects)
  {
    forall i | 0 <= i < |subjects| - 1
      ensures SubjectBefore(subjects[i], subjects[i + 1]) <==> ListedBefore(subjects[i], subjects[i + 1])
    {
      StringBeforeIff(SubjectName(subjects[i]), SubjectName(subjects[i + 1]));
    }
  }

  /** Which irreversible audits may be stored before a mutation: of its kind and step, dated, still
      pending, with the target of the step, and listing its packages where it removes packages. */
  lemma PendingIrreversibleIff(a: Irreversible, requirement: RecoveryRequirement, id: StepId)
    ensures a.IsValidPendingFor(requirement, id) <==>
              && requirement == (if a.Manual? then ManualRecoveryAudit else Mixed)
              && a.step == id && a.capturedAt != "" && a.outcome == Pending && TargetOf(id, a.target)
              && (a.MixedAudit? && id == StepId(One, 13) ==> SubjectsListed(a.subjects))
  {
    hide SubjectsAreValid, SubjectsListed;
    if a.MixedAudit? { SubjectsIff(a.subjects); }
  }

  function Ordinal(t: RebuildableTarget): nat {
    match t
    case Cs2ShaderCache => 0
    case NvidiaDxCache => 1
    case NvidiaGlCache => 2
    case DirectxD3dCache => 3
  }

  ghost predicate InDeclaredOrder(ts: seq<RebuildableTarget>) {
    forall i, j | 0 <= i < j < |ts| :: Ordinal(ts[i]) < Ordinal(ts[j])
  }

  lemma PrependInOrder(t: RebuildableTarget, rest: seq<RebuildableTarget>)
    requires InDeclaredOrder(rest) && forall u | u in rest :: Ordinal(t) < Ordinal(u)
    ensures InDeclaredOrder([t] + rest)
  {
    var all := [t] + rest;
    forall i, j | 0 <= i < j < |all| ensures Ordinal(all[i]) < Ordinal(all[j]) {
      assert all[j] == rest[j - 1] && rest[j - 1] in rest;
    }
  }

  lemma TargetAt(n: nat)
    requires n < 4
    ensures forall t :: Ordinal(t) == n <==> t == P1_3_TARGETS[n]
    ensures P1_3_TARGETS[n..] == [P1_3_TARGETS[n]] + P1_3_TARGETS[n + 1..]
  {
  }

  lemma {:induction false} KeptInOrder(n: nat, ts: seq<RebuildableTarget>)
    requires n <= 4
    ensures var kept := Keep(P1_3_TARGETS[n..], ts);
            && (forall t :: t in kept <==> t in ts && Ordinal(t) >= n)
            && InDeclaredOrder(kept)
    decreases 4 - n
  {
    hide Ordinal, InDeclaredOrder;
    if n == 4 {
      NothingKept(ts);
    } else {
      KeptInOrder(n + 1, ts);
      TargetAt(n);
      var first, rest := P1_3_TARGETS[n], Keep(P1_3_TARGETS[n + 1..], ts);
      assert P1_3_TARGETS[n..][1..] == P1_3_TARGETS[n + 1..];
      if first in ts {
        PrependInOrder(first, rest);
      } else {
        assert [] + rest == rest;
      }
    }
  }

  lemma NothingKept(ts: seq<RebuildableTarget>)
    ensures Keep(P1_3_TARGETS[4..], ts) == [] && InDeclaredOrder([])
    ensures forall t :: Ordinal(t) < 4
  {
    assert P1_3_TARGETS[4..] == [];
  }

  /** The first target is the one with the least ordinal. */
  lemma FirstIsLeast(ts: seq<RebuildableTarget>, t: RebuildableTarget)
    requires InDeclaredOrder(ts) && t in ts
    ensures Ordinal(ts[0]) <= Ordinal(t)
  {
  }

  lemma SameFirst(a: seq<RebuildableTarget>, b: seq<RebuildableTarget>)
    requires InDeclaredOrder(a) && InDeclaredOrder(b) && a != [] && b != [] && a[0] in b && b[0] in a
    ensures a[0] == b[0]
  {
    hide InDeclaredOrder;
    FirstIsLeast(a, b[0]);
    FirstIsLeast(b, a[0]);
  }

  lemma EmptyToo(a: seq<RebuildableTarget>, b: seq<RebuildableTarget>)
    requires a == [] && forall t :: t in a <==> t in b
    ensures b == []
  {
    if b != [] { HoldsSome(b); }
  }

  lemma HoldsSome(b: seq<RebuildableTarget>)
    requires b != []
    ensures exists t :: t in b
  {
    assert b[0] in b;
  }

  lemma {:induction false} SameOrderSame(a: seq<RebuildableTarget>, b: seq<RebuildableTarget>)
    requires InDeclaredOrder(a) && InDeclaredOrder(b) && forall t :: t in a <==> t in b
    ensures a == b
    decreases |a|
  {
    if a == [] {
      EmptyToo(a, b);
    } else {
      assert a[0] in a && a[0] in b;
      assert b[0] in b && b[0] in a;
      SameFirst(a, b);
      forall t ensures t in a[1..] <==> t in b[1..] {
        TailHolds(a, t);
        TailHolds(b, t);
      }
      TailIsOrdered(a);
      TailIsOrdered(b);
      SameOrderSame(a[1..], b[1..]);
      assert a == [a[0]] + a[1..] && b == [b[0]] + b[1..];
    }
  }

  lemma TailIsOrdered(a: seq<RebuildableTarget>)
    requires a != [] && InDeclaredOrder(a)
    ensures InDeclaredOrder(a[1..])
  {
  }

  lemma TailHolds(a: seq<RebuildableTarget>, t: RebuildableTarget)
    requires a != [] && InDeclaredOrder(a)
    ensures t in a[1..] <==> t in a && t != a[0]
  {
    if t in a[1..] {
      var i :| 0 <= i < |a[1..]| && a[1..][i] == t;
      assert Ordinal(a[0]) < Ordinal(a[i + 1]);
    }
  }

  /** Which rebuildable audits may be stored before a mutation: of its step, dated, pending, with
      distinct caches in their fixed order, all four of them for P1:3. */
  lemma PendingRebuildableIff(a: Rebuildable, id: StepId)
    ensures a.IsValidPendingFor(id) <==>
              && a.outcome == PendingRebuild && a.step == id && a.capturedAt != ""
              && a.targets != [] && InDeclaredOrder(a.targets) && (id == StepId(One, 3) ==> |a.targets| == 4)
  {
    hide Keep, InDeclaredOrder;
    KeptInOrder(0, a.targets);
    assert P1_3_TARGETS[0..] == P1_3_TARGETS;
    AllFour(a.targets);
    if InDeclaredOrder(a.targets) { SameOrderSame(a.targets, Deduplicated(a.targets)); }
  }

  lemma AllFour(ts: seq<RebuildableTarget>)
    ensures InDeclaredOrder(P1_3_TARGETS)
    ensures InDeclaredOrder(ts) ==> (|ts| == 4 <==> ts == P1_3_TARGETS)
  {
    if InDeclaredOrder(ts) && |ts| == 4 {
      assert Ordinal(ts[0]) < Ordinal(ts[1]) < Ordinal(ts[2]) < Ordinal(ts[3]) < 4;
      forall i | 0 <= i < 4 ensures ts[i] == P1_3_TARGETS[i] {
        assert Ordinal(ts[i]) == i;
      }
    }
  }

  /** A pending record is stored exactly if it is valid and none stands for its step but itself, once;
      then it stands at the end, or where it stood. */
  lemma PersistedIff(entries: seq<Irreversible>, a: Irreversible)
    requires SinglePending(entries)
    ensures Persisted(entries, a).Some? <==>
              && a.IsValidPendingFor(if a.Manual? then ManualRecoveryAudit else Mixed, a.step)
              && forall e | e in entries && e.step == a.step && e.outcome.Pending? :: e == a
    ensures Persisted(entries, a).Some? ==> Persisted(entries, a).value == if a in entries then entries else entries + [a]
  {
    hide PendingOf, Irreversible.IsValidPendingFor;
    PendingIrreversibleIff(a, KindOf(a), a.step);
    PendingOfIs(entries, a.step);
    var pending := PendingOf(entries, a.step);
    if pending != [] {
      assert pending[0] in pending;
      OnlyOnePending(entries, pending[0], a.step);
    }
  }

  lemma OnlyOnePending(entries: seq<Irreversible>, p: Irreversible, id: StepId)
    requires SinglePending(entries) && p in entries && IsPendingOf(p, id)
    ensures forall e | e in entries && e.step == id && e.outcome.Pending? :: e == p
  {
    var k :| 0 <= k < |entries| && entries[k] == p;
    forall e | e in entries && e.step == id && e.outcome.Pending? ensures e == p {
      var i :| 0 <= i < |entries| && entries[i] == e;
      PendingIsUnique(entries, i, k);
    }
  }
}
