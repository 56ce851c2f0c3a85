/** The controller that writes, checks and restores the CFG files. */
module Cs2Config {
  import opened Wrappers
  import opened Sequences
  import opened CfgTargets
  import opened CfgFiles
  import Autoexec

  datatype Request = Request(generatedAt: string, assets: set<Asset>, bootstrap: bool)

  /** The texts the program writes, and the library functions it uses: UTF-8 and SHA-256. */
  datatype Content = Content(
    render: string -> Bytes, asset: Asset -> Bytes, comment: string,
    decode: Bytes -> Option<string>, encode: string -> Bytes, sha256: Bytes -> string)
  {
    /** UTF-8 decoding inverts encoding, and accepts no other bytes. */
    ghost predicate IsUtf8() {
      && (forall s :: decode(encode(s)) == Some(s))
      && (forall b :: decode(b).Some? ==> encode(decode(b).value) == b)
    }
  }

  datatype ConfigError =
    | EmptySelection
    | InvalidBinding
    | PreconditionMismatch(name: string)
    | NotUtf8
    | Io(error: IoError)
    | Mutation(recovery: Option<string>)
    | ReadbackMismatch(name: string, recovery: Option<string>)

  datatype Sidecar = Created | Retained | NotNeeded

  datatype Report = Report(optimization: Sidecar, autoexec: Sidecar, autoexecUpdated: bool, assets: seq<string>)

  type Snapshot = (Target, Option<Bytes>)

  function ForRequest(request: Request): seq<Target> {
    [Optimization] + (if request.bootstrap then [AutoexecCfg] else []) + OptionalTargets(Sorted(request.assets))
  }

  // What an apply writes

  function SidecarWrites(name: string, original: Option<Bytes>): seq<Write> {
    if original.Some? then [Create(name, original.value)] else []
  }

  function OptimizationWrites(files: Files, request: Request, content: Content): seq<Write> {
    SidecarWrites(OPTIMIZATION_BACKUP, Lookup(files, FileName(Optimization)))
    + [Replace(FileName(Optimization), content.render(request.generatedAt))]
  }

  predicate Decodes(original: Option<Bytes>, content: Content) {
    original.Some? ==> content.decode(original.value).Some?
  }

  function Bootstrapped(original: Option<Bytes>, content: Content): Bytes
    requires Decodes(original, content)
  {
    content.encode(Autoexec.Ensured(if original.Some? then content.decode(original.value).value else "", content.comment))
  }

  function AutoexecWrites(original: Option<Bytes>, content: Content): seq<Write>
    requires Decodes(original, content)
  {
    var expected := Bootstrapped(original, content);
    if original == Some(expected) then []
    else SidecarWrites(AUTOEXEC_BACKUP, original) + [Replace(FileName(AutoexecCfg), expected)]
  }

  function AssetWrites(assets: seq<Asset>, content: Content): (r: seq<Write>)
    ensures |r| == |assets|
    ensures forall i | 0 <= i < |r| :: r[i] == Replace(AssetName(assets[i]), content.asset(assets[i]))
  {
    seq(|assets|, i requires 0 <= i < |assets| => Replace(AssetName(assets[i]), content.asset(assets[i])))
  }

  /** The autoexec.cfg that a request reads: none unless it bootstraps. */
  function AutoexecInput(files: Files, request: Request): Option<Bytes> {
    if request.bootstrap then Lookup(files, FileName(AutoexecCfg)) else None
  }

  predicate CanApply(files: Files, request: Request, content: Content) {
    Decodes(AutoexecInput(files, request), content)
  }

  /** Every write of an apply, in order. All of them are decided by the files it starts from. */
  function Writes(files: Files, request: Request, content: Content): seq<Write>
    requires CanApply(files, request, content)
  {
    OptimizationWrites(files, request, content)
    + (if request.bootstrap then AutoexecWrites(AutoexecInput(files, request), content) else [])
    + AssetWrites(Sorted(request.assets), content)
  }

  function Applied(files: Files, request: Request, content: Content): Files
    requires CanApply(files, request, content)
  {
    DoneAll(files, Writes(files, request, content))
  }

  predicate Verified(files: Files, request: Request, content: Content) {
    && Lookup(files, FileName(Optimization)) == Some(content.render(request.generatedAt))
    && (request.bootstrap ==>
          && FileName(AutoexecCfg) in files
          && content.decode(files[FileName(AutoexecCfg)]).Some?
          && Autoexec.HasExec(content.decode(files[FileName(AutoexecCfg)]).value))
    && forall a | a in Sorted(request.assets) :: Lookup(files, AssetName(a)) == Some(content.asset(a))
  }

  // Restoring

  function RestoredOne(files: Files, s: Snapshot): Files {
    if s.1.Some? then files[FileName(s.0) := s.1.value] else files - {FileName(s.0)}
  }

  function Restored(files: Files, snapshots: seq<Snapshot>): Files {
    if snapshots == [] then files
    else RestoredOne(Restored(files, snapshots[..|snapshots| - 1]), snapshots[|snapshots| - 1])
  }

  ghost predicate AllHealthy(dir: Directory)
    reads dir
  {
    forall k | k >= dir.calls :: dir.health(k).Healthy?
  }

  // The operations

  method WriteAndVerify(dir: Directory, name: string, expected: Bytes, recovery: Option<string>)
    returns (r: Result<(), ConfigError>, ghost written: bool)
    modifies dir
    ensures dir.files == if written then Done(old(dir.files), Replace(name, expected)) else old(dir.files)
    ensures r.Ok? ==> written
    ensures r.Err? ==> r.error == Mutation(recovery)
    ensures old(AllHealthy(dir)) ==> r.Ok? && AllHealthy(dir)
    ensures dir.calls >= old(dir.calls)
  {
    written := !dir.health(dir.calls).Refused?;
    var replaced := dir.Replace(name, expected);
    if replaced.Err? { return Err(Mutation(recovery)), written; }
    var actual := dir.Read(name);
    if actual.Err? { return Err(Mutation(recovery)), written; }
    if actual.value != expected {
      r := Err(ReadbackMismatch(name, recovery));
      assert false;
    }
    r := Ok(());
  }

  method ReadOptional(dir: Directory, name: string) returns (r: Result<Option<Bytes>, ConfigError>)
    modifies dir`calls
    ensures r == Ok(Lookup(dir.files, name)) || r == Err(Io(IoError.Fault))
    ensures old(AllHealthy(dir)) ==> r.Ok? && AllHealthy(dir)
    ensures dir.calls >= old(dir.calls)
  {
    var bytes := dir.Read(name);
    match bytes
    case Ok(b) => r := Ok(Some(b));
    case Err(NotFound) => r := Ok(None);
    case Err(error) => r := Err(Io(error));
  }

  /** Keeps the first original in a sidecar file. */
  method BackUpOnce(dir: Directory, name: string, original: Option<Bytes>)
    returns (r: Result<Sidecar, ConfigError>, ghost done: nat)
    modifies dir
    ensures Performed(old(dir.files), SidecarWrites(name, original), done, dir.files)
    ensures r.Ok? ==> done == |SidecarWrites(name, original)|
    ensures r == Ok(Kept(old(dir.files), name, original)) || r == Err(Mutation(None))
    ensures old(AllHealthy(dir)) ==> r.Ok? && AllHealthy(dir)
    ensures dir.calls >= old(dir.calls)
  {
    ghost var writes := SidecarWrites(name, original);
    PerformedStart(dir.files, writes);
    if original.None? { return Ok(NotNeeded), 0; }
    ghost var before := dir.files;
    done := if dir.health(dir.calls).Refused? then 0 else 1;
    var made := dir.Create(name, original.value);
    if done == 1 { PerformedStep(before, writes, 0, before, dir.files); }
    match made {
      case Ok(_) =>
        var readback := dir.Read(name);
        if readback.Err? { return Err(Mutation(None)), done; }
        if readback.value != original.value {
          assert false;
          r := Err(ReadbackMismatch(name, None));
        } else {
          r := Ok(Created);
        }
      case Err(AlreadyExists) => r := Ok(Retained);
      case Err(_) => r := Err(Mutation(None));
    }
  }

  function Kept(files: Files, name: string, original: Option<Bytes>): Sidecar {
    if original.None? then NotNeeded else if name in files then Retained else Created
  }

  /** Replaces a file after its first original went to a sidecar. */
  method ReplaceKeepingOriginal(
    dir: Directory, sidecar: string, original: Option<Bytes>, name: string, expected: Bytes, recovery: Option<string>)
    returns (r: Result<Sidecar, ConfigError>, ghost done: nat)
    modifies dir
    ensures Performed(old(dir.files), SidecarWrites(sidecar, original) + [Replace(name, expected)], done, dir.files)
    ensures r.Ok? ==> done == |SidecarWrites(sidecar, original)| + 1
    ensures r == Ok(Kept(old(dir.files), sidecar, original)) || r == Err(Mutation(None)) || r == Err(Mutation(recovery))
    ensures old(AllHealthy(dir)) ==> r.Ok? && AllHealthy(dir)
    ensures dir.calls >= old(dir.calls)
  {
    hide Performed;
    ghost var before := dir.files;
    ghost var kept, last := SidecarWrites(sidecar, original), [Replace(name, expected)];
    r, done := BackUpOnce(dir, sidecar, original);
    PerformedFirst(before, kept, last, done, dir.files);
    if r.Err? { return; }
    ghost var middle := dir.files;
    var wrote;
    ghost var took;
    wrote, took := WriteAndVerify(dir, name, expected, recovery);
    if took {
      PerformedStart(middle, last);
      PerformedStep(middle, last, 0, middle, dir.files);
      PerformedSecond(before, kept, middle, last, 1, dir.files);
      done := |kept| + 1;
    }
    if wrote.Err? { r := Err(wrote.error); }
  }

  method DeployAssets(dir: Directory, assets: seq<Asset>, content: Content, recovery: Option<string>)
    returns (r: Result<seq<string>, ConfigError>, ghost done: nat)
    modifies dir
    ensures Performed(old(dir.files), AssetWrites(assets, content), done, dir.files)
    ensures r.Ok? ==> done == |assets| && r.value == AssetNames(assets)
    ensures r.Err? ==> r.error == Mutation(recovery)
    ensures old(AllHealthy(dir)) ==> r.Ok? && AllHealthy(dir)
    ensures dir.calls >= old(dir.calls)
  {
    hide Performed;
    var names := [];
    var i := 0;
    ghost var writes := AssetWrites(assets, content);
    PerformedStart(dir.files, writes);
    while i < |assets|
      invariant 0 <= i <= |assets|
      invariant Performed(old(dir.files), writes, i, dir.files)
      invariant names == AssetNames(assets)[..i]
      invariant old(AllHealthy(dir)) ==> AllHealthy(dir)
      invariant dir.calls >= old(dir.calls)
    {
      ghost var middle := dir.files;
      var wrote;
      ghost var took;
      wrote, took := WriteAndVerify(dir, AssetName(assets[i]), content.asset(assets[i]), recovery);
      if took { PerformedStep(old(dir.files), writes, i, middle, dir.files); }
      if wrote.Err? { return Err(wrote.error), if took then i + 1 else i; }
      names := names + [AssetName(assets[i])];
      i := i + 1;
    }
    return Ok(names), i;
  }

  function AssetNames(assets: seq<Asset>): seq<string> {
    seq(|assets|, i requires 0 <= i < |assets| => AssetName(assets[i]))
  }

  function Reported(files: Files, request: Request, content: Content): Report
    requires CanApply(files, request, content)
  {
    var original := AutoexecInput(files, request);
    var updated := request.bootstrap && AutoexecWrites(original, content) != [];
    Report(Kept(files, OPTIMIZATION_BACKUP, Lookup(files, FileName(Optimization))),
           if updated then Kept(files, AUTOEXEC_BACKUP, original) else NotNeeded,
           updated,
           AssetNames(Sorted(request.assets)))
  }

  /** The two inputs of an apply. */
  method ReadInputs(dir: Directory, request: Request, content: Content)
    returns (r: Result<(Option<Bytes>, Option<Bytes>), ConfigError>)
    modifies dir`calls
    ensures r.Ok? ==>
              && CanApply(dir.files, request, content)
              && r.value == (Lookup(dir.files, FileName(Optimization)), AutoexecInput(dir.files, request))
    ensures old(AllHealthy(dir)) ==> AllHealthy(dir) && (CanApply(dir.files, request, content) ==> r.Ok?)
    ensures dir.calls >= old(dir.calls)
  {
    var made := dir.MakeDirectory();
    if made.Err? { return Err(Io(made.error)); }
    var optimization := ReadOptional(dir, FileName(Optimization));
    if optimization.Err? { return Err(optimization.error); }
    if !request.bootstrap { return Ok((optimization.value, None)); }
    var autoexec := ReadOptional(dir, FileName(AutoexecCfg));
    if autoexec.Err? { return Err(autoexec.error); }
    if autoexec.value.Some? && content.decode(autoexec.value.value).None? { return Err(NotUtf8); }
    return Ok((optimization.value, autoexec.value));
  }

  method BootstrapAutoexec(
    dir: Directory, bootstrap: bool, original: Option<Bytes>, content: Content, recovery: Option<string>)
    returns (r: Result<(Sidecar, bool), ConfigError>, ghost done: nat)
    requires Decodes(original, content)
    modifies dir
    ensures var writes := if bootstrap then AutoexecWrites(original, content) else [];
            && Performed(old(dir.files), writes, done, dir.files)
            && (r.Ok? ==>
                  && done == |writes|
                  && r.value == (if writes != [] then Kept(old(dir.files), AUTOEXEC_BACKUP, original) else NotNeeded,
                                 writes != []))
    ensures old(AllHealthy(dir)) ==> r.Ok? && AllHealthy(dir)
    ensures dir.calls >= old(dir.calls)
  {
    hide Performed;
    PerformedStart(dir.files, if bootstrap then AutoexecWrites(original, content) else []);
    if !bootstrap { return Ok((NotNeeded, false)), 0; }
    var expected := Bootstrapped(original, content);
    if original == Some(expected) { return Ok((NotNeeded, false)), 0; }
    var kept;
    kept, done := ReplaceKeepingOriginal(dir, AUTOEXEC_BACKUP, original, FileName(AutoexecCfg), expected, recovery);
    r := if kept.Ok? then Ok((kept.value, true)) else Err(kept.error);
  }

  lemma OptimizationKeepsOthers(files: Files, request: Request, content: Content, done: nat, after: Files)
    requires Performed(files, OptimizationWrites(files, request, content), done, after)
    ensures AUTOEXEC_BACKUP in after <==> AUTOEXEC_BACKUP in files
  {
    FileNamesDiffer(Optimization, Optimization);
    var writes := OptimizationWrites(files, request, content);
    assert OPTIMIZATION_BACKUP != AUTOEXEC_BACKUP;
    UnnamedIsUntouched(files, writes[..done], AUTOEXEC_BACKUP);
  }

  method Apply(dir: Directory, request: Request, content: Content)
    returns (r: Result<Report, ConfigError>, ghost done: nat)
    modifies dir
    ensures !old(CanApply(dir.files, request, content)) ==> r.Err? && dir.files == old(dir.files)
    ensures old(CanApply(dir.files, request, content)) ==>
              var writes := Writes(old(dir.files), request, content);
              && Performed(old(dir.files), writes, done, dir.files)
              && (r.Ok? ==> done == |writes| && r.value == Reported(old(dir.files), request, content))
              && (old(AllHealthy(dir)) ==> r.Ok?)
  {
    hide Performed, FileName, AssetName, AutoexecWrites, Autoexec.Ensured, Sorted;
    ghost var before := dir.files;
    if CanApply(before, request, content) {
      PerformedStart(before, Writes(before, request, content));
    }
    done := 0;
    var inputs := ReadInputs(dir, request, content);
    if inputs.Err? { return Err(inputs.error), 0; }
    var optimization, autoexec := inputs.value.0, inputs.value.1;
    var assets := Sorted(request.assets);
    ghost var first := OptimizationWrites(before, request, content);
    ghost var second := if request.bootstrap then AutoexecWrites(autoexec, content) else [];
    ghost var third := AssetWrites(assets, content);

    var recovery := if optimization.None? then None else Some(OPTIMIZATION_BACKUP);
    var optimizationBackup;
    optimizationBackup, done := ReplaceKeepingOriginal(
      dir, OPTIMIZATION_BACKUP, optimization, FileName(Optimization), content.render(request.generatedAt), recovery);
    PerformedFirst(before, first, second, done, dir.files);
    PerformedFirst(before, first + second, third, done, dir.files);
    if optimizationBackup.Err? { return Err(optimizationBackup.error), done; }
    OptimizationKeepsOthers(before, request, content, done, dir.files);

    ghost var middle := dir.files;
    var bootstrapped;
    ghost var n;
    bootstrapped, n := BootstrapAutoexec(dir, request.bootstrap, autoexec, content, recovery);
    PerformedSecond(before, first, middle, second, n, dir.files);
    PerformedFirst(before, first + second, third, |first| + n, dir.files);
    done := |first| + n;
    if bootstrapped.Err? { return Err(bootstrapped.error), done; }

    middle := dir.files;
    var deployed;
    deployed, n := DeployAssets(dir, assets, content, recovery);
    PerformedSecond(before, first + second, middle, third, n, dir.files);
    done := |first + second| + n;
    if deployed.Err? { return Err(deployed.error), done; }
    r := Ok(Report(optimizationBackup.value, bootstrapped.value.0, bootstrapped.value.1, deployed.value));
  }

  method VerifyBytes(dir: Directory, name: string, expected: Bytes) returns (r: Result<(), ConfigError>)
    modifies dir`calls
    ensures r.Ok? ==> Lookup(dir.files, name) == Some(expected)
    ensures old(AllHealthy(dir)) ==> AllHealthy(dir) && (Lookup(dir.files, name) == Some(expected) ==> r.Ok?)
    ensures dir.calls >= old(dir.calls)
  {
    var actual := dir.Read(name);
    if actual.Err? { return Err(Io(actual.error)); }
    return if actual.value == expected then Ok(()) else Err(ReadbackMismatch(name, None));
  }

  method Verify(dir: Directory, request: Request, content: Content) returns (r: Result<(), ConfigError>)
    modifies dir`calls
    ensures r.Ok? ==> Verified(dir.files, request, content)
    ensures old(AllHealthy(dir)) ==> (r.Ok? <==> Verified(dir.files, request, content))
  {
    hide FileName, AssetName, Autoexec.HasExec, Sorted;
    r := VerifyBytes(dir, FileName(Optimization), content.render(request.generatedAt));
    if r.Err? { return; }
    if request.bootstrap {
      var bytes := dir.Read(FileName(AutoexecCfg));
      if bytes.Err? { return Err(Io(bytes.error)); }
      var text := content.decode(bytes.value);
      if text.None? { return Err(NotUtf8); }
      var ensured := Autoexec.EnsureLine(text.value, content.comment);
      if ensured != text.value { return Err(ReadbackMismatch(FileName(AutoexecCfg), None)); }
    }
    var assets := Sorted(request.assets);
    var i := 0;
    while i < |assets|
      invariant 0 <= i <= |assets|
      invariant forall k | 0 <= k < i :: Lookup(dir.files, AssetName(assets[k])) == Some(content.asset(assets[k]))
      invariant old(AllHealthy(dir)) ==> AllHealthy(dir)
    {
      r := VerifyBytes(dir, AssetName(assets[i]), content.asset(assets[i]));
      if r.Err? { return; }
      i := i + 1;
    }
    r := Ok(());
  }

  predicate SameTargets(targets: seq<Target>, snapshots: seq<Snapshot>) {
    && |targets| == |snapshots|
    && forall i | 0 <= i < |targets| :: targets[i] == snapshots[i].0
  }

  predicate Unchanged(files: Files, s: Snapshot) { Lookup(files, FileName(s.0)) == s.1 }

  predicate Intact(files: Files, snapshots: seq<Snapshot>) {
    forall i | 0 <= i < |snapshots| :: Unchanged(files, snapshots[i])
  }

  method ReplaceIfUnchanged(dir: Directory, name: string, original: Option<Bytes>, expected: Bytes)
    returns (r: Result<(), ConfigError>, ghost written: bool)
    modifies dir
    ensures dir.files == if written then Done(old(dir.files), Replace(name, expected)) else old(dir.files)
    ensures r.Ok? ==> written
    ensures written ==> Lookup(old(dir.files), name) == original
    ensures r.Err? && r.error.PreconditionMismatch? ==> r.error.name == name && Lookup(dir.files, name) != original && !written
    ensures old(AllHealthy(dir)) ==> AllHealthy(dir) && (Lookup(old(dir.files), name) == original ==> r.Ok?)
  {
    written := false;
    var current := ReadOptional(dir, name);
    if current.Err? { return Err(current.error), false; }
    if current.value != original { return Err(PreconditionMismatch(name)), false; }
    r, written := WriteAndVerify(dir, name, expected, None);
  }

  method DeployUnchanged(dir: Directory, order: seq<Asset>, snapshots: seq<Snapshot>, content: Content)
    returns (r: Result<seq<string>, ConfigError>, ghost done: nat)
    requires SameTargets(OptionalTargets(order), snapshots) && Distinct(order)
    modifies dir
    ensures Performed(old(dir.files), AssetWrites(order, content), done, dir.files)
    ensures done <= |snapshots| && forall i | 0 <= i < done :: Unchanged(old(dir.files), snapshots[i])
    ensures r.Ok? ==> done == |snapshots| && r.value == AssetNames(order)
    ensures r.Err? && r.error.PreconditionMismatch? ==> StoppedAt(old(dir.files), snapshots, done, r.error.name)
    ensures old(AllHealthy(dir)) && Intact(old(dir.files), snapshots) ==> r.Ok?
  {
    hide Performed, AssetName;
    ghost var before := dir.files;
    ghost var writes := AssetWrites(order, content);
    PerformedStart(before, writes);
    var names := [];
    var i := 0;
    while i < |order|
      invariant 0 <= i <= |order|
      invariant Performed(before, writes, i, dir.files)
      invariant names == AssetNames(order)[..i]
      invariant forall k | 0 <= k < i :: Unchanged(before, snapshots[k])
      invariant old(AllHealthy(dir)) ==> AllHealthy(dir)
    {
      var name := AssetName(order[i]);
      AssetNotYetWritten(before, order, content, i, dir.files);
      assert FileName(snapshots[i].0) == name;
      ghost var middle := dir.files;
      var wrote;
      ghost var took;
      wrote, took := ReplaceIfUnchanged(dir, name, snapshots[i].1, content.asset(order[i]));
      if took { PerformedStep(before, writes, i, middle, dir.files); }
      if wrote.Err? { return Err(wrote.error), if took then i + 1 else i; }
      names := names + [name];
      i := i + 1;
    }
    return Ok(names), i;
  }

  /** Deployment stopped at the first target that no longer is as captured. */
  predicate StoppedAt(files: Files, snapshots: seq<Snapshot>, at: nat, name: string) {
    at < |snapshots| && !Unchanged(files, snapshots[at]) && name == FileName(snapshots[at].0)
  }

  /** Deploys the captured assets, each only while its file is as captured. */
  method ApplyOptionalIfUnchanged(dir: Directory, assets: set<Asset>, snapshots: seq<Snapshot>, content: Content)
    returns (r: Result<seq<string>, ConfigError>, ghost done: nat)
    modifies dir
    ensures Performed(old(dir.files), AssetWrites(Sorted(assets), content), done, dir.files)
    ensures !SameTargets(OptionalTargets(Sorted(assets)), snapshots) ==> r.Err? && done == 0
    ensures done <= |snapshots| && forall i | 0 <= i < done :: Unchanged(old(dir.files), snapshots[i])
    ensures r.Ok? ==> done == |snapshots| == |Sorted(assets)| > 0 && r.value == AssetNames(Sorted(assets))
    ensures r.Err? && r.error.PreconditionMismatch? ==> StoppedAt(old(dir.files), snapshots, done, r.error.name)
    ensures old(AllHealthy(dir)) && assets != {} && Intact(old(dir.files), snapshots) ==>
              SameTargets(OptionalTargets(Sorted(assets)), snapshots) ==> r.Ok?
  {
    hide Performed, AssetName, Sorted, Unchanged, Intact, FileName;
    var order := Sorted(assets);
    SortedIsTheSet(assets);
    PerformedStart(dir.files, AssetWrites(order, content));
    if assets == {} { return Err(EmptySelection), 0; }
    var made := dir.MakeDirectory();
    if made.Err? { return Err(Io(made.error)), 0; }
    if !SameTargets(OptionalTargets(order), snapshots) { return Err(InvalidBinding), 0; }
    var a :| a in assets;
    assert a in order;
    r, done := DeployUnchanged(dir, order, snapshots, content);
  }

  lemma AssetNotYetWritten(before: Files, assets: seq<Asset>, content: Content, i: nat, middle: Files)
    requires i < |assets| && Distinct(assets) && Performed(before, AssetWrites(assets, content), i, middle)
    ensures Lookup(middle, AssetName(assets[i])) == Lookup(before, AssetName(assets[i]))
  {
    hide AssetName;
    var writes := AssetWrites(assets, content)[..i];
    forall w | w in writes ensures w.name != AssetName(assets[i]) {
      var k :| 0 <= k < i && writes[k] == w;
      FileNamesDiffer(Optional(assets[k]), Optional(assets[i]));
    }
    UnnamedIsUntouched(before, writes, AssetName(assets[i]));
  }

  method RestoreTargets(dir: Directory, targets: seq<Target>, snapshots: seq<Snapshot>)
    returns (r: Result<(), ConfigError>, ghost done: nat)
    modifies dir
    ensures done <= |snapshots| && dir.files == Restored(old(dir.files), snapshots[..done])
    ensures r.Ok? ==> done == |snapshots|
    ensures !SameTargets(targets, snapshots) ==> r == Err(InvalidBinding) && done == 0
    ensures old(AllHealthy(dir)) && SameTargets(targets, snapshots) ==> r.Ok?
  {
    hide FileName;
    assert snapshots[..0] == [];
    if !SameTargets(targets, snapshots) { return Err(InvalidBinding), 0; }
    var i := 0;
    while i < |targets|
      invariant 0 <= i <= |targets|
      invariant dir.files == Restored(old(dir.files), snapshots[..i])
      invariant old(AllHealthy(dir)) ==> AllHealthy(dir)
    {
      var name := FileName(targets[i]);
      assert snapshots[..i + 1][..i] == snapshots[..i];
      match snapshots[i].1 {
        case Some(bytes) =>
          var wrote;
          ghost var took;
          wrote, took := WriteAndVerify(dir, name, bytes, None);
          if wrote.Err? { return wrote, if took then i + 1 else i; }
        case None =>
          ghost var took := !dir.health(dir.calls).Refused?;
          var removed := dir.Remove(name);
          if removed.Err? && removed.error != NotFound {
            return Err(Mutation(None)), if took then i + 1 else i;
          }
          var left := ReadOptional(dir, name);
          done := i + 1;
          if left.Err? { return Err(left.error), done; }
          if left.value.Some? {
            assert false;
            return Err(ReadbackMismatch(name, None)), done;
          }
      }
      i := i + 1;
    }
    assert snapshots[..i] == snapshots;
    return Ok(()), i;
  }
}
