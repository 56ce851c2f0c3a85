/** Capturing, checking and restoring a CFG transaction. */
module CfgBackup {
  import opened Wrappers
  import opened Sequences
  import opened CfgTargets
  import opened CfgFiles
  import opened Cs2Config

  const MAX_FILE_BYTES := 1024 * 1024
  const MAX_TOTAL_BYTES := 8 * 1024 * 1024

  /** A decoded snapshot need not be consistent. */
  datatype StoredSnapshot = StoredSnapshot(
    target: Target, existed: bool, original: Option<Bytes>, digest: Option<string>, unknownFields: bool)

  datatype Kind = Request34 | OptionalOnly

  /** `installMatches` stands for the comparison of install fingerprints. */
  datatype Entry = Entry(kind: Kind, installMatches: bool, targets: seq<StoredSnapshot>, unknownFields: bool)

  datatype BackupError =
    | Config(error: ConfigError)
    | ReadFailed(target: Target)
    | FileTooLarge(target: Target)
    | TotalTooLarge
    | WrongStep
    | DuplicateTarget(target: Target)
    | MissingTarget(target: Target)
    | UnexpectedTarget(target: Target)
    | TargetOrderMismatch
    | AbsentTargetHasBytes(target: Target)
    | ExistingTargetMissingBytes(target: Target)
    | MissingDigest(target: Target)
    | DigestMismatch(target: Target)
    | InstallMismatch
    | UnknownFields

  function Size(original: Option<Bytes>): nat { if original.Some? then |original.value| else 0 }

  function TotalSize(snapshots: seq<StoredSnapshot>): nat {
    if snapshots == [] then 0
    else TotalSize(snapshots[..|snapshots| - 1]) + Size(snapshots[|snapshots| - 1].original)
  }

  function Taken(files: Files, target: Target, content: Content): StoredSnapshot {
    var original := Lookup(files, FileName(target));
    StoredSnapshot(target, original.Some?, original,
                   if original.Some? then Some(content.sha256(original.value)) else None, false)
  }

  function TakenAll(files: Files, targets: seq<Target>, content: Content): (r: seq<StoredSnapshot>)
    ensures |r| == |targets| && forall i | 0 <= i < |r| :: r[i] == Taken(files, targets[i], content)
  {
    seq(|targets|, i requires 0 <= i < |targets| => Taken(files, targets[i], content))
  }

  /** At most one mebibyte a file and eight in all. */
  predicate WithinLimits(snapshots: seq<StoredSnapshot>) {
    && TotalSize(snapshots) <= 8388608
    && forall s | s in snapshots :: Size(s.original) <= 1048576
  }

  /** One snapshot carries bytes and their digest exactly if its file existed. */
  predicate Consistent(s: StoredSnapshot, content: Content) {
    && s.existed == s.original.Some? == s.digest.Some?
    && (s.existed ==> s.digest.value == content.sha256(s.original.value))
  }

  function TargetsOf(snapshots: seq<StoredSnapshot>): (r: seq<Target>)
    ensures |r| == |snapshots| && forall i | 0 <= i < |r| :: r[i] == snapshots[i].target
  {
    seq(|snapshots|, i requires 0 <= i < |snapshots| => snapshots[i].target)
  }

  ghost predicate Valid(snapshots: seq<StoredSnapshot>, expected: seq<Target>, content: Content) {
    && TargetsOf(snapshots) == expected
    && WithinLimits(snapshots)
    && forall s | s in snapshots :: Consistent(s, content)
  }

  lemma {:induction false} TotalSizeGrows(snapshots: seq<StoredSnapshot>, n: nat)
    requires n <= |snapshots|
    ensures TotalSize(snapshots[..n]) <= TotalSize(snapshots)
  {
    if n < |snapshots| {
      var rest := snapshots[..|snapshots| - 1];
      TotalSizeGrows(rest, n);
      assert rest[..n] == snapshots[..n];
    } else {
      assert snapshots[..n] == snapshots;
    }
  }

  lemma EmptySize()
    ensures TotalSize([]) == 0
  {
  }

  lemma TotalSizeStep(snapshots: seq<StoredSnapshot>, i: nat)
    requires i < |snapshots|
    ensures TotalSize(snapshots[..i + 1]) == TotalSize(snapshots[..i]) + Size(snapshots[i].original)
  {
    assert snapshots[..i + 1][..i] == snapshots[..i];
  }

  method Capture(dir: Directory, targets: seq<Target>, content: Content)
    returns (r: Result<seq<StoredSnapshot>, BackupError>)
    modifies dir`calls
    ensures r.Ok? ==> r.value == TakenAll(dir.files, targets, content) && WithinLimits(r.value)
    ensures r.Err? && r.error != TotalTooLarge ==>
              || (r.error.ReadFailed? && !old(AllHealthy(dir)))
              || (r.error.FileTooLarge? && Size(Lookup(dir.files, FileName(r.error.target))) > MAX_FILE_BYTES)
    ensures r == Err(TotalTooLarge) ==> TotalSize(TakenAll(dir.files, targets, content)) > MAX_TOTAL_BYTES
    ensures old(AllHealthy(dir)) && WithinLimits(TakenAll(dir.files, targets, content)) ==> r.Ok?
  {
    hide FileName;
    ghost var all := TakenAll(dir.files, targets, content);
    var total := 0;
    var snapshots: seq<StoredSnapshot> := [];
    var i := 0;
    while i < |targets|
      invariant 0 <= i <= |targets| && |snapshots| == i
      invariant snapshots == all[..i]
      invariant total == TotalSize(snapshots) <= MAX_TOTAL_BYTES
      invariant forall s | s in snapshots :: Size(s.original) <= MAX_FILE_BYTES
      invariant old(AllHealthy(dir)) ==> AllHealthy(dir)
    {
      var target := targets[i];
      var bytes := dir.Read(FileName(target));
      var next := Taken(dir.files, target, content);
      assert all[..i + 1] == all[..i] + [all[i]] && all[i] == next && all[i] in all;
      assert (snapshots + [next])[..i] == snapshots;
      match bytes {
        case Ok(content') =>
          if |content'| > MAX_FILE_BYTES { return Err(FileTooLarge(target)); }
          total := total + |content'|;
          if total > MAX_TOTAL_BYTES {
            TotalSizeGrows(all, i + 1);
            return Err(TotalTooLarge);
          }
          snapshots := snapshots + [StoredSnapshot(target, true, Some(content'), Some(content.sha256(content')), false)];
        case Err(NotFound) =>
          snapshots := snapshots + [StoredSnapshot(target, false, None, None, false)];
        case Err(_) => return Err(ReadFailed(target));
      }
      i := i + 1;
    }
    assert all[..i] == all;
    return Ok(snapshots);
  }

  predicate IsAboutBytes(error: BackupError) {
    || error.AbsentTargetHasBytes? || error.ExistingTargetMissingBytes? || error.FileTooLarge?
    || error.TotalTooLarge? || error.MissingDigest? || error.DigestMismatch?
  }

  method ValidateBytes(s: StoredSnapshot, total: nat, content: Content)
    returns (r: Result<nat, BackupError>)
    ensures r.Ok? ==> r.value == total + Size(s.original)
    ensures r.Ok? <==>
              && Consistent(s, content) && Size(s.original) <= MAX_FILE_BYTES
              && (s.original.Some? ==> total + Size(s.original) <= MAX_TOTAL_BYTES)
    ensures r.Err? ==> IsAboutBytes(r.error)
    ensures r.Err? && r.error.AbsentTargetHasBytes? ==> !s.existed && (s.original.Some? || s.digest.Some?)
    ensures r.Err? && r.error.ExistingTargetMissingBytes? ==> s.existed && s.original.None?
    ensures r.Err? && r.error.DigestMismatch? ==>
              s.original.Some? && s.digest.Some? && s.digest.value != content.sha256(s.original.value)
  {
    if s.original.None? && s.digest.None? && !s.existed { return Ok(total); }
    if !s.existed { return Err(AbsentTargetHasBytes(s.target)); }
    if s.original.None? { return Err(ExistingTargetMissingBytes(s.target)); }
    var bytes := s.original.value;
    if |bytes| > MAX_FILE_BYTES { return Err(FileTooLarge(s.target)); }
    if total + |bytes| > MAX_TOTAL_BYTES { return Err(TotalTooLarge); }
    if s.digest.None? { return Err(MissingDigest(s.target)); }
    if s.digest.value != content.sha256(bytes) { return Err(DigestMismatch(s.target)); }
    return Ok(total + |bytes|);
  }

  ghost predicate Scanned(snapshots: seq<StoredSnapshot>, expected: seq<Target>, content: Content) {
    && WithinLimits(snapshots)
    && (forall s | s in snapshots :: Consistent(s, content))
    && Distinct(TargetsOf(snapshots))
    && (forall t | t in TargetsOf(snapshots) :: t in expected)
  }

  method ScanTargets(snapshots: seq<StoredSnapshot>, expected: seq<Target>, content: Content)
    returns (r: Result<set<Target>, BackupError>)
    ensures r.Ok? ==> Scanned(snapshots, expected, content) && forall t :: t in r.value <==> t in TargetsOf(snapshots)
    ensures r.Err? ==> !Scanned(snapshots, expected, content)
    ensures r.Err? && r.error.DuplicateTarget? ==> !Distinct(TargetsOf(snapshots)) && r.error.target in TargetsOf(snapshots)
    ensures r.Err? && r.error.UnexpectedTarget? ==> r.error.target in TargetsOf(snapshots) && r.error.target !in expected
    ensures r.Err? ==> !r.error.MissingTarget? && !r.error.TargetOrderMismatch?
  {
    hide Consistent, TotalSize;
    EmptySize();
    var named := TargetsOf(snapshots);
    var seen: set<Target> := {};
    var total := 0;
    var i := 0;
    while i < |snapshots|
      invariant 0 <= i <= |snapshots|
      invariant forall t :: t in seen <==> t in named[..i]
      invariant Distinct(named[..i])
      invariant forall t | t in seen :: t in expected
      invariant forall s | s in snapshots[..i] :: Consistent(s, content) && Size(s.original) <= MAX_FILE_BYTES
      invariant total == TotalSize(snapshots[..i]) <= MAX_TOTAL_BYTES
    {
      var s := snapshots[i];
      assert named[..i + 1] == named[..i] + [s.target] && named[i] == s.target;
      assert snapshots[..i + 1] == snapshots[..i] + [s];
      if s.target in seen { return Err(DuplicateTarget(s.target)); }
      seen := seen + {s.target};
      if s.target !in expected { return Err(UnexpectedTarget(s.target)); }
      var bytes := ValidateBytes(s, total, content);
      TotalSizeGrows(snapshots, i + 1);
      TotalSizeStep(snapshots, i);
      if bytes.Err? { return Err(bytes.error); }
      total := bytes.value;
      i := i + 1;
    }
    assert named[..i] == named && snapshots[..i] == snapshots;
    return Ok(seen);
  }

  /** Accepts exactly the complete, ordered, consistent transactions. */
  method ValidateTargets(snapshots: seq<StoredSnapshot>, expected: seq<Target>, content: Content)
    returns (r: Result<(), BackupError>)
    requires Distinct(expected)
    ensures r.Ok? <==> Valid(snapshots, expected, content)
    ensures r.Err? && r.error.DuplicateTarget? ==> !Distinct(TargetsOf(snapshots)) && r.error.target in TargetsOf(snapshots)
    ensures r.Err? && r.error.UnexpectedTarget? ==> r.error.target in TargetsOf(snapshots) && r.error.target !in expected
    ensures r.Err? && r.error.MissingTarget? ==> r.error.target in expected && r.error.target !in TargetsOf(snapshots)
    ensures r.Err? && r.error.TargetOrderMismatch? ==>
              multiset(TargetsOf(snapshots)) == multiset(expected) && TargetsOf(snapshots) != expected
  {
    hide WithinLimits, Consistent, TotalSize;
    var named := TargetsOf(snapshots);
    var seen := ScanTargets(snapshots, expected, content);
    if seen.Err? { return Err(seen.error); }
    var j := 0;
    while j < |expected|
      invariant 0 <= j <= |expected|
      invariant forall k | 0 <= k < j :: expected[k] in named
    {
      if expected[j] !in seen.value { return Err(MissingTarget(expected[j])); }
      j := j + 1;
    }
    if named != expected {
      SameElements(named, expected);
      return Err(TargetOrderMismatch);
    }
    return Ok(());
  }

  // The transactions

  function Plain(targets: seq<StoredSnapshot>): (r: seq<Snapshot>)
    ensures |r| == |targets| && forall i | 0 <= i < |r| :: r[i] == (targets[i].target, targets[i].original)
  {
    seq(|targets|, i requires 0 <= i < |targets| => (targets[i].target, targets[i].original))
  }

  predicate HasUnknownFields(entry: Entry) {
    entry.unknownFields || exists s | s in entry.targets :: s.unknownFields
  }

  /** The assets that an optional transaction names. */
  function AssetsOf(targets: seq<StoredSnapshot>): Result<set<Asset>, BackupError> {
    if exists s | s in targets :: !s.target.Optional? then Err(UnexpectedTarget(FirstFixed(targets)))
    else Ok(set s | s in targets :: s.target.asset)
  }

  function FirstFixed(targets: seq<StoredSnapshot>): Target
    requires exists s | s in targets :: !s.target.Optional?
  {
    if !targets[0].target.Optional? then targets[0].target else FirstFixed(targets[1..])
  }

  ghost predicate Accepts(entry: Entry, kind: Kind, expected: seq<Target>, content: Content) {
    entry.kind == kind && entry.installMatches && Valid(entry.targets, expected, content)
  }

  method Validate(entry: Entry, kind: Kind, expected: seq<Target>, content: Content) returns (r: Result<(), BackupError>)
    requires Distinct(expected)
    ensures r.Ok? <==> Accepts(entry, kind, expected, content)
  {
    if entry.kind != kind { return Err(WrongStep); }
    if !entry.installMatches { return Err(InstallMismatch); }
    r := ValidateTargets(entry.targets, expected, content);
  }

  method CaptureEntry(dir: Directory, kind: Kind, targets: seq<Target>, content: Content)
    returns (r: Result<Entry, BackupError>)
    requires Distinct(targets)
    modifies dir`calls
    ensures r.Ok? ==>
              && r.value == Entry(kind, true, TakenAll(dir.files, targets, content), false)
              && Accepts(r.value, kind, targets, content) && !HasUnknownFields(r.value)
    ensures old(AllHealthy(dir)) && WithinLimits(TakenAll(dir.files, targets, content)) ==> r.Ok?
  {
    hide TakenAll, WithinLimits, Valid;
    var snapshots := Capture(dir, targets, content);
    if snapshots.Err? { return Err(snapshots.error); }
    TakenIsValid(dir.files, targets, content);
    var entry := Entry(kind, true, snapshots.value, false);
    var valid := Validate(entry, kind, targets, content);
    if valid.Err? { return Err(valid.error); }
    return Ok(entry);
  }

  lemma TakenIsValid(files: Files, targets: seq<Target>, content: Content)
    ensures var all := TakenAll(files, targets, content);
            && (WithinLimits(all) <==> Valid(all, targets, content))
            && forall s | s in all :: !s.unknownFields
  {
    hide FileName, TotalSize;
  }

  lemma RequestTargetsAreDistinct(request: Request)
    ensures Distinct(ForRequest(request))
  {
    SortedIsTheSet(request.assets);
  }

  method RestoreRequest(entry: Entry, request: Request, dir: Directory, content: Content)
    returns (r: Result<(), BackupError>, ghost done: nat)
    modifies dir
    ensures done <= |entry.targets| && dir.files == Restored(old(dir.files), Plain(entry.targets)[..done])
    ensures done > 0 || r.Ok? ==> Accepts(entry, Request34, ForRequest(request), content) && !HasUnknownFields(entry)
    ensures r.Ok? ==> done == |entry.targets|
    ensures old(AllHealthy(dir)) && Accepts(entry, Request34, ForRequest(request), content) && !HasUnknownFields(entry)
            ==> r.Ok?
  {
    hide Restored, TotalSize;
    var snapshots := Plain(entry.targets);
    assert snapshots[..0] == [];
    RestoredNone(dir.files);
    RequestTargetsAreDistinct(request);
    done := 0;
    r := Validate(entry, Request34, ForRequest(request), content);
    if r.Err? { return; }
    if HasUnknownFields(entry) { return Err(UnknownFields), 0; }
    var restored;
    restored, done := RestoreTargets(dir, ForRequest(request), snapshots);
    r := if restored.Ok? then Ok(()) else Err(Config(restored.error));
  }

  lemma RestoredNone(files: Files)
    ensures Restored(files, []) == files
  {
  }

  ghost predicate AcceptsOptional(entry: Entry, content: Content) {
    && AssetsOf(entry.targets).Ok?
    && Accepts(entry, OptionalOnly, OptionalTargets(Sorted(AssetsOf(entry.targets).value)), content)
    && !HasUnknownFields(entry)
  }

  lemma OptionalTargetsAreDistinct(assets: set<Asset>)
    ensures Distinct(OptionalTargets(Sorted(assets)))
  {
    SortedIsTheSet(assets);
  }

  /** An optional transaction is its own request: it names the assets. */
  method ValidateOptional(entry: Entry, content: Content) returns (r: Result<set<Asset>, BackupError>)
    ensures r.Ok? <==> AcceptsOptional(entry, content)
    ensures r.Ok? ==> r.value == AssetsOf(entry.targets).value
  {
    var assets := AssetsOf(entry.targets);
    if assets.Err? { return Err(assets.error); }
    OptionalTargetsAreDistinct(assets.value);
    var valid := Validate(entry, OptionalOnly, OptionalTargets(Sorted(assets.value)), content);
    if valid.Err? { return Err(valid.error); }
    if HasUnknownFields(entry) { return Err(UnknownFields); }
    return Ok(assets.value);
  }

  method RestoreOptional(entry: Entry, dir: Directory, content: Content)
    returns (r: Result<(), BackupError>, ghost done: nat)
    modifies dir
    ensures done <= |entry.targets| && dir.files == Restored(old(dir.files), Plain(entry.targets)[..done])
    ensures done > 0 || r.Ok? ==> AcceptsOptional(entry, content)
    ensures r.Ok? ==> done == |entry.targets| > 0
    ensures old(AllHealthy(dir)) && AcceptsOptional(entry, content) && entry.targets != [] ==> r.Ok?
  {
    hide Restored, WithinLimits, Consistent, Sorted;
    var snapshots := Plain(entry.targets);
    assert snapshots[..0] == [];
    RestoredNone(dir.files);
    done := 0;
    var assets := ValidateOptional(entry, content);
    if assets.Err? { return Err(assets.error), 0; }
    assert entry.targets != [] ==> entry.targets[0] in entry.targets;
    assert entry.targets != [] ==> entry.targets[0].target.asset in assets.value;
    if assets.value == {} { return Err(Config(EmptySelection)), 0; }
    var restored;
    restored, done := RestoreTargets(dir, OptionalTargets(Sorted(assets.value)), snapshots);
    r := if restored.Ok? then Ok(()) else Err(Config(restored.error));
  }

  method ApplyOptional(entry: Entry, dir: Directory, content: Content)
    returns (r: Result<seq<string>, BackupError>, ghost done: nat)
    modifies dir
    ensures !AcceptsOptional(entry, content) ==> r.Err? && done == 0 && dir.files == old(dir.files)
    ensures AcceptsOptional(entry, content) ==>
              && Performed(old(dir.files), AssetWrites(Sorted(AssetsOf(entry.targets).value), content), done, dir.files)
              && done <= |entry.targets|
              && (forall i | 0 <= i < done :: Unchanged(old(dir.files), Plain(entry.targets)[i]))
              && (r.Ok? ==> done == |entry.targets| > 0)
  {
    hide Performed, TotalSize, Accepts, Sorted;
    done := 0;
    var assets := ValidateOptional(entry, content);
    if assets.Err? { return Err(assets.error), 0; }
    var names;
    names, done := ApplyOptionalIfUnchanged(dir, assets.value, Plain(entry.targets), content);
    r := if names.Ok? then Ok(names.value) else Err(Config(names.error));
  }
}
