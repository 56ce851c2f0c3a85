/** Pending and closed recovery audits for mutations without a byte-exact undo. */
module Audit {
  import opened Catalog

  datatype RecoveryRequirement = LosslessBackup | RebuildableAudit | ManualRecoveryAudit | Mixed

  datatype RebuildableTarget = Cs2ShaderCache | NvidiaDxCache | NvidiaGlCache | DirectxD3dCache

  const P1_3_TARGETS: seq<RebuildableTarget> :=
    [Cs2ShaderCache, NvidiaDxCache, NvidiaGlCache, DirectxD3dCache]

  datatype RebuildableOutcome = PendingRebuild | VerifiedRebuild(finalizedAt: string)

  datatype Rebuildable = Rebuildable(
    step: StepId, capturedAt: string, targets: seq<RebuildableTarget>, outcome: RebuildableOutcome)
  {
    predicate IsValidPendingFor(id: StepId) {
      && outcome.PendingRebuild?
      && step == id
      && capturedAt != ""
      && targets != []
      && targets == Deduplicated(targets)
      && (id == StepId(One, 3) ==> targets == P1_3_TARGETS)
    }

    function Finalized(at: string): Rebuildable {
      this.(outcome := VerifiedRebuild(at))
    }
  }

  /** Sorted, duplicate-free listing, as collecting keys of an ordered map gives. */
  function Deduplicated(targets: seq<RebuildableTarget>): seq<RebuildableTarget> {
    Keep(P1_3_TARGETS, targets)
  }

  function Keep(order: seq<RebuildableTarget>, targets: seq<RebuildableTarget>): seq<RebuildableTarget> {
    if order == [] then []
    else (if order[0] in targets then [order[0]] else []) + Keep(order[1..], targets)
  }

  datatype ManualTarget = AppxRemovals | ExactDriverPackageRemoval | DriverInstallation

  datatype ManualOutcome = Pending | Verified(finalizedAt: string) | Failed(failedAt: string)

  datatype AppxSubject = Installed(fullName: string) | Provisioned(packageName: string)

  datatype Irreversible =
    | Manual(step: StepId, capturedAt: string, target: ManualTarget, outcome: ManualOutcome)
    | MixedAudit(step: StepId, capturedAt: string, target: ManualTarget,
                 subjects: seq<AppxSubject>, outcome: ManualOutcome)
  {
    predicate IsValidPendingFor(requirement: RecoveryRequirement, id: StepId) {
      && requirement == (if Manual? then ManualRecoveryAudit else Mixed)
      && step == id
      && capturedAt != ""
      && outcome == Pending
      && HasManualTarget(id)
      && target == ExpectedManualTarget(id)
      && (MixedAudit? && id == StepId(One, 13) ==> SubjectsAreValid(subjects))
    }

    function Finalize(at: string): Irreversible {
      this.(outcome := Verified(at))
    }

    function Fail(at: string): Irreversible {
      this.(outcome := Failed(at))
    }
  }

  predicate HasManualTarget(id: StepId) {
    id == StepId(One, 13) || id == DRIVER_CLEANUP || id == DRIVER_INSTALL
  }

  function ExpectedManualTarget(id: StepId): ManualTarget
    requires HasManualTarget(id)
  {
    if id == StepId(One, 13) then AppxRemovals
    else if id == DRIVER_CLEANUP then ExactDriverPackageRemoval
    else DriverInstallation
  }

  function SubjectName(s: AppxSubject): string {
    match s
    case Installed(n) => n
    case Provisioned(n) => n
  }

  predicate StringBefore(a: string, b: string)
  {
    if b == "" then false
    else if a == "" then true
    else if a[0] != b[0] then a[0] < b[0]
    else StringBefore(a[1..], b[1..])
  }

  predicate SubjectBefore(a: AppxSubject, b: AppxSubject) {
    match (a, b)
    case (Installed(_), Provisioned(_)) => true
    case (Provisioned(_), Installed(_)) => false
    case (_, _) => StringBefore(SubjectName(a), SubjectName(b))
  }

  predicate SubjectsAreValid(subjects: seq<AppxSubject>) {
    && (forall i | 0 <= i < |subjects| :: 1 <= |SubjectName(subjects[i])| <= 1024)
    && (forall i | 0 <= i < |subjects| - 1 :: SubjectBefore(subjects[i], subjects[i + 1]))
  }
}
