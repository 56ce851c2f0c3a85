/** Exact undo, and what an apply establishes. */
module CfgProofs {
  import opened Wrappers
  import opened Sequences
  import opened CfgTargets
  import opened CfgFiles
  import opened Cs2Config
  import opened CfgBackup
  import Autoexec

  predicate Names(targets: seq<Target>, name: string) {
    exists t | t in targets :: FileName(t) == name
  }

  // Restoring

  /** Restoring gives the captured files back and touches nothing else. */
  lemma {:induction false} RestoredLookup(files: Files, earlier: Files, targets: seq<Target>, content: Content, n: nat, name: string)
    requires n <= |targets|
    ensures Lookup(Restored(files, Plain(TakenAll(earlier, targets, content))[..n]), name)
         == Lookup(if Names(targets[..n], name) then earlier else files, name)
  {
    hide FileName;
    var snapshots := Plain(TakenAll(earlier, targets, content));
    if n > 0 {
      RestoredLookup(files, earlier, targets, content, n - 1, name);
      assert snapshots[..n][..n - 1] == snapshots[..n - 1];
      assert targets[..n] == targets[..n - 1] + [targets[n - 1]];
      assert Names(targets[..n], name) <==> Names(targets[..n - 1], name) || FileName(targets[n - 1]) == name;
    }
  }

  /** Whatever happened to the target files, restoring undoes it exactly,
      absent files included, as long as no other file changed. */
  lemma RestoreUndoes(earlier: Files, now: Files, targets: seq<Target>, content: Content)
    requires forall name: string :: !Names(targets, name) ==> Lookup(now, name) == Lookup(earlier, name)
    ensures Restored(now, Plain(TakenAll(earlier, targets, content))) == earlier
  {
    var snapshots := Plain(TakenAll(earlier, targets, content));
    assert snapshots[..|targets|] == snapshots && targets[..|targets|] == targets;
    forall name: string ensures Lookup(Restored(now, snapshots), name) == Lookup(earlier, name) {
      RestoredLookup(now, earlier, targets, content, |targets|, name);
    }
    SameLookups(Restored(now, snapshots), earlier);
  }

  /** A restore that stopped early can be repeated. */
  lemma InterruptedRestoreConverges(files: Files, earlier: Files, targets: seq<Target>, content: Content, done: nat)
    requires done <= |targets|
    ensures var snapshots := Plain(TakenAll(earlier, targets, content));
            Restored(Restored(files, snapshots[..done]), snapshots) == Restored(files, snapshots)
  {
    hide FileName;
    var snapshots := Plain(TakenAll(earlier, targets, content));
    var n := |targets|;
    var partial := Restored(files, snapshots[..done]);
    assert snapshots[..n] == snapshots && targets[..n] == targets;
    forall name: string ensures Lookup(Restored(partial, snapshots), name) == Lookup(Restored(files, snapshots), name) {
      RestoredLookup(files, earlier, targets, content, done, name);
      RestoredLookup(partial, earlier, targets, content, n, name);
      RestoredLookup(files, earlier, targets, content, n, name);
    }
    SameLookups(Restored(partial, snapshots), Restored(files, snapshots));
  }

  // Optional assets

  /** Capture, any prefix of a deployment, restore: the original files exactly. */
  lemma OptionalUndo(before: Files, after: Files, assets: set<Asset>, content: Content, done: nat)
    requires Performed(before, AssetWrites(Sorted(assets), content), done, after)
    ensures Restored(after, Plain(TakenAll(before, OptionalTargets(Sorted(assets)), content))) == before
  {
    var order := Sorted(assets);
    var targets := OptionalTargets(order);
    var writes := AssetWrites(order, content)[..done];
    forall name: string | !Names(targets, name) ensures Lookup(after, name) == Lookup(before, name) {
      forall w | w in writes ensures w.name != name {
        var i :| 0 <= i < |writes| && writes[i] == w;
        assert targets[i] in targets && FileName(targets[i]) == AssetName(order[i]);
      }
      UnnamedIsUntouched(before, writes, name);
    }
    RestoreUndoes(before, after, targets, content);
  }

  /** A file that changed after the capture keeps its change. */
  lemma ChangedTargetIsKept(
    before: Files, after: Files, entry: Entry, assets: seq<Asset>, content: Content, done: nat, i: nat)
    requires Performed(before, AssetWrites(assets, content), done, after) && Distinct(assets)
    requires |entry.targets| == |assets| && forall k | 0 <= k < |assets| :: entry.targets[k].target == Optional(assets[k])
    requires forall k | 0 <= k < done :: Unchanged(before, Plain(entry.targets)[k])
    requires i < |assets| && !Unchanged(before, Plain(entry.targets)[i])
    ensures Lookup(after, AssetName(assets[i])) == Lookup(before, AssetName(assets[i]))
  {
    hide AssetName;
    var writes := AssetWrites(assets, content)[..done];
    forall w | w in writes ensures w.name != AssetName(assets[i]) {
      var k :| 0 <= k < |writes| && writes[k] == w;
      FileNamesDiffer(Optional(assets[k]), Optional(assets[i]));
    }
    UnnamedIsUntouched(before, writes, AssetName(assets[i]));
  }

  // P1:34

  function Creates(writes: seq<Write>): seq<Write> {
    if writes == [] then []
    else
      Creates(writes[..|writes| - 1])
      + (if writes[|writes| - 1].Create? then [writes[|writes| - 1]] else [])
  }

  lemma {:induction false} CreatesDecide(files: Files, writes: seq<Write>, name: string)
    requires forall w | w in writes && w.name == name :: w.Create?
    ensures Lookup(DoneAll(files, writes), name) == Lookup(DoneAll(files, Creates(writes)), name)
  {
    if writes != [] {
      var rest := writes[..|writes| - 1];
      var last := writes[|writes| - 1];
      CreatesDecide(files, rest, name);
      if last.Create? {
        assert Creates(writes) == Creates(rest) + [last];
        assert (Creates(rest) + [last])[..|Creates(rest)|] == Creates(rest);
        assert DoneAll(files, Creates(writes)) == Done(DoneAll(files, Creates(rest)), last);
      } else {
        assert Creates(writes) == Creates(rest);
      }
    }
  }

  lemma {:induction false} CreatesAreCreates(writes: seq<Write>)
    ensures forall w | w in Creates(writes) :: w.Create? && w in writes
  {
    if writes != [] {
      CreatesAreCreates(writes[..|writes| - 1]);
    }
  }

  /** Replaced files are targets, created files are sidecars. */
  lemma WritesStayInside(files: Files, request: Request, content: Content, w: Write)
    requires CanApply(files, request, content) && w in Writes(files, request, content)
    ensures if w.Create? then IsSidecar(w.name) else Names(ForRequest(request), w.name)
  {
    hide Autoexec.Ensured;
    var targets := ForRequest(request);
    var order := Sorted(request.assets);
    assert targets[0] == Optimization;
    if w in AssetWrites(order, content) {
      var i :| 0 <= i < |order| && AssetWrites(order, content)[i] == w;
      assert OptionalTargets(order)[i] in targets;
    } else if request.bootstrap {
      assert targets[1] == AutoexecCfg;
    }
  }

  lemma SidecarIsNoTarget(targets: seq<Target>, name: string)
    requires IsSidecar(name)
    ensures !Names(targets, name)
  {
    forall t | t in targets ensures FileName(t) != name {
      FileNamesDiffer(t, t);
    }
  }

  /** Capture, any prefix of an apply, restore: the original files, plus the
      sidecars that the prefix created and that restoring deliberately leaves. */
  lemma ApplyUndo(before: Files, after: Files, request: Request, content: Content, done: nat)
    requires CanApply(before, request, content) && Performed(before, Writes(before, request, content), done, after)
    ensures Restored(after, Plain(TakenAll(before, ForRequest(request), content)))
         == DoneAll(before, Creates(Writes(before, request, content)[..done]))
  {
    hide FileName, IsSidecar, Writes, ForRequest;
    var targets := ForRequest(request);
    var snapshots := Plain(TakenAll(before, targets, content));
    var writes := Writes(before, request, content)[..done];
    var left := DoneAll(before, Creates(writes));
    assert snapshots[..|targets|] == snapshots && targets[..|targets|] == targets;
    CreatesAreCreates(writes);
    forall name: string ensures Lookup(Restored(after, snapshots), name) == Lookup(left, name) {
      RestoredLookup(after, before, targets, content, |targets|, name);
      forall w | w in writes ensures w.Create? ==> !Names(targets, w.name)
                             ensures w.Replace? ==> Names(targets, w.name) {
        WritesStayInside(before, request, content, w);
        if w.Create? { SidecarIsNoTarget(targets, w.name); }
      }
      if Names(targets, name) {
        UnnamedIsUntouched(before, Creates(writes), name);
      } else {
        CreatesDecide(before, writes, name);
      }
    }
    SameLookups(Restored(after, snapshots), left);
  }

  /** Undo is exact if and only if the prefix created no sidecar. */
  lemma {:induction false} CreatesChangeNothingIff(files: Files, writes: seq<Write>)
    ensures DoneAll(files, Creates(writes)) == files <==> forall w | w in Creates(writes) :: w.name in files
  {
    var creates := Creates(writes);
    CreatesAreCreates(writes);
    if forall w | w in creates :: w.name in files {
      forall name: string ensures Lookup(DoneAll(files, creates), name) == Lookup(files, name) {
        if name in files {
          ExistingIsNotRecreated(files, creates, name);
        } else {
          UnnamedIsUntouched(files, creates, name);
        }
      }
      SameLookups(DoneAll(files, creates), files);
    } else {
      var w :| w in creates && w.name !in files;
      WrittenExists(files, creates, w);
    }
  }

  lemma {:induction false} WrittenExists(files: Files, writes: seq<Write>, w: Write)
    requires w in writes
    ensures w.name in DoneAll(files, writes)
  {
    if w != writes[|writes| - 1] {
      WrittenExists(files, writes[..|writes| - 1], w);
    }
  }

  /** A sidecar keeps the first original for ever, and no file outside the closed set changes. */
  lemma OthersAreUntouched(before: Files, after: Files, request: Request, content: Content, done: nat, name: string)
    requires CanApply(before, request, content) && Performed(before, Writes(before, request, content), done, after)
    requires !Names(ForRequest(request), name) && (IsSidecar(name) ==> name in before)
    ensures Lookup(after, name) == Lookup(before, name)
  {
    hide IsSidecar, Writes, ForRequest;
    var writes := Writes(before, request, content)[..done];
    forall w | w in writes && w.name == name ensures w.Create? && name in before {
      WritesStayInside(before, request, content, w);
    }
    if name in before {
      ExistingIsNotRecreated(before, writes, name);
    } else {
      UnnamedIsUntouched(before, writes, name);
    }
  }

  /** A replaced original is in its sidecar first: once `name` is replaced, the
      sidecar written before it exists, with the original if it is new. */
  lemma SidecarComesFirst(
    before: Files, after: Files, writes: seq<Write>, done: nat, i: nat, name: string)
    requires Performed(before, writes, done, after) && DistinctNames(writes)
    requires i + 1 < |writes| && writes[i].Create? && writes[i + 1].Replace? && writes[i + 1].name == name
    requires Lookup(after, name) != Lookup(before, name)
    ensures writes[i].name in after
    ensures writes[i].name !in before ==> after[writes[i].name] == writes[i].content
  {
    var made := writes[..done];
    if done <= i + 1 {
      forall w | w in made ensures w.name != name {
        var j :| 0 <= j < done && writes[j] == w;
        assert writes[j].name != writes[i + 1].name;
      }
      UnnamedIsUntouched(before, made, name);
    } else {
      assert made[i] == writes[i];
      WrittenExists(before, made, writes[i]);
      OnlyWriteDecides(before, made, i);
    }
  }

  /** Whenever an apply has changed a file that existed, on success or on any
      failure, the original is still there: in its sidecar, unless that already
      held an older one. */
  lemma OriginalsAreKept(before: Files, after: Files, request: Request, content: Content, done: nat)
    requires CanApply(before, request, content) && Performed(before, Writes(before, request, content), done, after)
    ensures StaysRecoverable(before, after, FileName(Optimization), OPTIMIZATION_BACKUP)
    ensures request.bootstrap ==> StaysRecoverable(before, after, FileName(AutoexecCfg), AUTOEXEC_BACKUP)
  {
    hide FileName, AssetName, Bootstrapped, Sorted;
    var writes := Writes(before, request, content);
    WritesHaveDistinctNames(before, request, content);
    var a := OptimizationWrites(before, request, content);
    if FileName(Optimization) in before && Lookup(after, FileName(Optimization)) != Lookup(before, FileName(Optimization)) {
      assert writes[0] == a[0] && writes[1] == a[1];
      SidecarComesFirst(before, after, writes, done, 0, FileName(Optimization));
    }
    if request.bootstrap && FileName(AutoexecCfg) in before
       && Lookup(after, FileName(AutoexecCfg)) != Lookup(before, FileName(AutoexecCfg)) {
      var b := AutoexecWrites(AutoexecInput(before, request), content);
      if b == [] {
        AutoexecIsUnnamed(before, request, content, writes[..done]);
        UnnamedPrefix(before, after, writes, done, FileName(AutoexecCfg));
      } else {
        assert writes[|a|] == b[0] && writes[|a| + 1] == b[1];
        SidecarComesFirst(before, after, writes, done, |a|, FileName(AutoexecCfg));
      }
    }
  }

  predicate StaysRecoverable(before: Files, after: Files, name: string, sidecar: string) {
    name in before && Lookup(after, name) != Lookup(before, name) ==>
      sidecar in after && (sidecar !in before ==> after[sidecar] == before[name])
  }

  lemma UnnamedPrefix(before: Files, after: Files, writes: seq<Write>, done: nat, name: string)
    requires Performed(before, writes, done, after) && forall w | w in writes[..done] :: w.name != name
    ensures Lookup(after, name) == Lookup(before, name)
  {
    UnnamedIsUntouched(before, writes[..done], name);
  }

  /** An autoexec.cfg that needs no change is not written. */
  lemma AutoexecIsUnnamed(files: Files, request: Request, content: Content, writes: seq<Write>)
    requires CanApply(files, request, content) && request.bootstrap
    requires AutoexecWrites(AutoexecInput(files, request), content) == []
    requires forall w | w in writes :: w in Writes(files, request, content)
    ensures forall w | w in writes :: w.name != FileName(AutoexecCfg)
  {
    hide FileName, AssetName, Bootstrapped, Sorted;
    forall w | w in writes ensures w.name != FileName(AutoexecCfg) {
      FileNamesDiffer(AutoexecCfg, Optimization);
      if w in AssetWrites(Sorted(request.assets), content) {
        var i :| 0 <= i < |Sorted(request.assets)| && AssetWrites(Sorted(request.assets), content)[i] == w;
        AssetFile(Sorted(request.assets)[i]);
        FileNamesDiffer(AutoexecCfg, Optional(Sorted(request.assets)[i]));
      }
    }
  }

  // Applying and verifying

  ghost predicate DistinctNames(writes: seq<Write>) {
    forall i, j | 0 <= i < j < |writes| :: writes[i].name != writes[j].name
  }

  lemma DistinctNamesAppend(a: seq<Write>, b: seq<Write>)
    requires DistinctNames(a) && DistinctNames(b) && forall v, w | v in a && w in b :: v.name != w.name
    ensures DistinctNames(a + b)
  {
  }

  /** No file is written twice. */
  lemma {:induction false} WritesHaveDistinctNames(files: Files, request: Request, content: Content)
    requires CanApply(files, request, content)
    ensures DistinctNames(Writes(files, request, content))
  {
    hide FileName, AssetName, Bootstrapped, Sorted;
    var a := OptimizationWrites(files, request, content);
    var b := if request.bootstrap then AutoexecWrites(AutoexecInput(files, request), content) else [];
    var order := Sorted(request.assets);
    var c := AssetWrites(order, content);
    FileNamesDiffer(Optimization, AutoexecCfg);
    FileNamesDiffer(AutoexecCfg, Optimization);
    DistinctNamesAppend(a, b);
    SortedIsTheSet(request.assets);
    forall i, j | 0 <= i < j < |c| ensures c[i].name != c[j].name {
      assert order[i] != order[j];
      AssetFile(order[i]);
      AssetFile(order[j]);
      FileNamesDiffer(Optional(order[i]), Optional(order[j]));
    }
    forall v: Write, w: Write | v in a + b && w in c ensures v.name != w.name {
      var i :| 0 <= i < |c| && c[i] == w;
      AssetFile(order[i]);
      FileNamesDiffer(Optional(order[i]), Optimization);
      FileNamesDiffer(Optional(order[i]), AutoexecCfg);
    }
    DistinctNamesAppend(a + b, c);
  }

  lemma AssetFile(asset: Asset)
    ensures FileName(Optional(asset)) == AssetName(asset)
  {
  }

  /** Each replaced file ends up with what was written to it. */
  lemma AppliedHolds(files: Files, request: Request, content: Content, i: nat)
    requires CanApply(files, request, content) && i < |Writes(files, request, content)|
    requires Writes(files, request, content)[i].Replace?
    ensures var w := Writes(files, request, content)[i];
            Lookup(Applied(files, request, content), w.name) == Some(w.content)
  {
    hide Writes;
    WritesHaveDistinctNames(files, request, content);
    OnlyWriteDecides(files, Writes(files, request, content), i);
  }

  lemma AppliedAutoexec(files: Files, request: Request, content: Content)
    requires CanApply(files, request, content) && request.bootstrap
    ensures Lookup(Applied(files, request, content), FileName(AutoexecCfg))
         == Some(Bootstrapped(AutoexecInput(files, request), content))
  {
    hide FileName, AssetName, Bootstrapped, Sorted;
    var original := AutoexecInput(files, request);
    var a := OptimizationWrites(files, request, content);
    var b := AutoexecWrites(original, content);
    if b == [] {
      AutoexecIsUnnamed(files, request, content, Writes(files, request, content));
      UnnamedIsUntouched(files, Writes(files, request, content), FileName(AutoexecCfg));
    } else {
      var i := |a| + |b| - 1;
      assert Writes(files, request, content)[i] == b[|b| - 1];
      AppliedHolds(files, request, content, i);
    }
  }

  lemma BootstrappedHasExec(original: Option<Bytes>, content: Content)
    requires content.IsUtf8() && Decodes(original, content)
    ensures var bytes := Bootstrapped(original, content);
            && content.decode(bytes).Some? && Autoexec.HasExec(content.decode(bytes).value)
  {
    var text := if original.Some? then content.decode(original.value).value else "";
    Autoexec.EnsuredHasExec(text, content.comment);
    assert content.decode(content.encode(Autoexec.Ensured(text, content.comment))) == Some(Autoexec.Ensured(text, content.comment));
  }

  /** After a complete apply the verification succeeds. */
  lemma {:induction false} ApplyEstablishesVerify(files: Files, request: Request, content: Content)
    requires content.IsUtf8() && CanApply(files, request, content)
    ensures Verified(Applied(files, request, content), request, content)
  {
    hide FileName, AssetName, Bootstrapped, Autoexec.HasExec, Applied;
    var writes := Writes(files, request, content);
    var a := OptimizationWrites(files, request, content);
    assert writes[|a| - 1] == Replace(FileName(Optimization), content.render(request.generatedAt));
    AppliedHolds(files, request, content, |a| - 1);
    if request.bootstrap {
      AppliedAutoexec(files, request, content);
      BootstrappedHasExec(AutoexecInput(files, request), content);
    }
    var order := Sorted(request.assets);
    forall asset | asset in order
      ensures Lookup(Applied(files, request, content), AssetName(asset)) == Some(content.asset(asset))
    {
      var k :| 0 <= k < |order| && order[k] == asset;
      var i := |writes| - |order| + k;
      assert writes[i] == AssetWrites(order, content)[k];
      AppliedHolds(files, request, content, i);
    }
  }

  lemma {:induction false} IdleWrites(files: Files, writes: seq<Write>)
    requires forall w | w in writes :: w.Replace? && Lookup(files, w.name) == Some(w.content)
    ensures DoneAll(files, writes) == files
  {
    if writes != [] {
      IdleWrites(files, writes[..|writes| - 1]);
    }
  }

  lemma VerifiedAutoexecIsKept(files: Files, request: Request, content: Content)
    requires content.IsUtf8() && Verified(files, request, content)
    ensures CanApply(files, request, content)
    ensures request.bootstrap ==> AutoexecWrites(AutoexecInput(files, request), content) == []
  {
    hide FileName, Autoexec.HasExec;
    if request.bootstrap {
      var bytes := files[FileName(AutoexecCfg)];
      assert content.encode(content.decode(bytes).value) == bytes;
    }
  }

  /** Applying to verified files changes nothing but a missing sidecar of optimization.cfg. */
  lemma VerifiedApply(files: Files, request: Request, content: Content)
    requires content.IsUtf8() && Verified(files, request, content)
    ensures CanApply(files, request, content)
    ensures Applied(files, request, content)
         == Done(files, Create(OPTIMIZATION_BACKUP, content.render(request.generatedAt)))
  {
    hide FileName, AssetName, Bootstrapped, Autoexec.HasExec, AutoexecWrites, Sorted;
    VerifiedAutoexecIsKept(files, request, content);
    var writes := Writes(files, request, content);
    var create := Create(OPTIMIZATION_BACKUP, content.render(request.generatedAt));
    var order := Sorted(request.assets);
    var others := [Replace(FileName(Optimization), content.render(request.generatedAt))] + AssetWrites(order, content);
    assert writes == [create] + others;
    DoneAllAppend(files, [create], others);
    assert DoneAll(files, [create]) == Done(DoneAll(files, []), create) by { assert [create][..0] == []; }
    var middle := Done(files, create);
    forall w | w in others ensures Lookup(middle, w.name) == Some(w.content) {
      FileNamesDiffer(Optimization, Optimization);
      if w in AssetWrites(order, content) {
        var i :| 0 <= i < |order| && AssetWrites(order, content)[i] == w;
        AssetFile(order[i]);
        FileNamesDiffer(Optional(order[i]), Optimization);
        assert order[i] in order;
      }
    }
    IdleWrites(middle, others);
  }

  /** A second apply leaves every file alone if and only if optimization.cfg or
      its sidecar was there before the first; a third always does. */
  lemma ReapplyChangesNothingIff(files: Files, request: Request, content: Content)
    requires content.IsUtf8() && CanApply(files, request, content)
    ensures var once := Applied(files, request, content);
            && CanApply(once, request, content)
            && var twice := Applied(once, request, content);
            && (forall name: string :: name != OPTIMIZATION_BACKUP ==> Lookup(twice, name) == Lookup(once, name))
            && (twice == once <==> FileName(Optimization) in files || OPTIMIZATION_BACKUP in files)
            && CanApply(twice, request, content)
            && Applied(twice, request, content) == twice
  {
    hide Applied, FileName, Verified, CanApply;
    var once := Applied(files, request, content);
    ApplyEstablishesVerify(files, request, content);
    VerifiedApply(once, request, content);
    var twice := Applied(once, request, content);
    ApplyEstablishesVerify(once, request, content);
    VerifiedApply(twice, request, content);
    AppliedSidecar(files, request, content);
  }

  lemma AppliedSidecar(files: Files, request: Request, content: Content)
    requires CanApply(files, request, content)
    ensures OPTIMIZATION_BACKUP in Applied(files, request, content)
       <==> FileName(Optimization) in files || OPTIMIZATION_BACKUP in files
  {
    hide FileName, AssetName, AutoexecWrites, Sorted;
    var writes := Writes(files, request, content);
    if FileName(Optimization) in files {
      WrittenExists(files, writes, writes[0]);
    } else if OPTIMIZATION_BACKUP in files {
      forall w | w in writes && w.name == OPTIMIZATION_BACKUP ensures w.Create? {
        WritesStayInside(files, request, content, w);
        SidecarIsNoTarget(ForRequest(request), w.name);
      }
      ExistingIsNotRecreated(files, writes, OPTIMIZATION_BACKUP);
    } else {
      forall w | w in writes ensures w.name != OPTIMIZATION_BACKUP {
        NoSidecarWrite(files, request, content, w);
      }
      UnnamedIsUntouched(files, writes, OPTIMIZATION_BACKUP);
    }
  }

  lemma NoSidecarWrite(files: Files, request: Request, content: Content, w: Write)
    requires CanApply(files, request, content) && w in Writes(files, request, content)
    requires FileName(Optimization) !in files
    ensures w.name != OPTIMIZATION_BACKUP
  {
    hide FileName, AssetName, Bootstrapped, Sorted;
    WritesStayInside(files, request, content, w);
    if w.Replace? && w.name == OPTIMIZATION_BACKUP {
      SidecarIsNoTarget(ForRequest(request), w.name);
    }
  }

  // The whole effect of an apply, file by file

  /** What a bootstrapped autoexec.cfg holds: the old text, or none, with its bootstrap line ensured. */
  function WithExec(files: Files, content: Content): Bytes
    requires Decodes(Lookup(files, FileName(AutoexecCfg)), content)
  {
    var present := Lookup(files, FileName(AutoexecCfg));
    content.encode(Autoexec.Ensured(match present { case None => "" case Some(b) => content.decode(b).value }, content.comment))
  }

  /** The sidecar of a file keeps what it holds, and otherwise takes the file's old content. */
  function KeptIn(files: Files, sidecar: string, name: string): Option<Bytes> {
    if sidecar in files then Some(files[sidecar]) else Lookup(files, name)
  }

  lemma AppliedOptimization(files: Files, request: Request, content: Content)
    requires CanApply(files, request, content)
    ensures Lookup(Applied(files, request, content), FileName(Optimization)) == Some(content.render(request.generatedAt))
  {
    hide FileName, AssetName, Bootstrapped, Applied, Sorted;
    var a := OptimizationWrites(files, request, content);
    assert Writes(files, request, content)[|a| - 1] == Replace(FileName(Optimization), content.render(request.generatedAt));
    AppliedHolds(files, request, content, |a| - 1);
  }

  lemma AppliedAsset(files: Files, request: Request, content: Content, asset: Asset)
    requires CanApply(files, request, content) && asset in request.assets
    ensures Lookup(Applied(files, request, content), AssetName(asset)) == Some(content.asset(asset))
  {
    hide FileName, AssetName, Bootstrapped, Applied, Sorted;
    SortedIsTheSet(request.assets);
    var writes, order := Writes(files, request, content), Sorted(request.assets);
    assert asset in order;
    var k :| 0 <= k < |order| && order[k] == asset;
    var i := |writes| - |order| + k;
    assert writes[i] == AssetWrites(order, content)[k];
    AppliedHolds(files, request, content, i);
  }

  lemma SidecarIsWritten(files: Files, request: Request, content: Content, i: nat, sidecar: string)
    requires CanApply(files, request, content) && i < |Writes(files, request, content)|
    requires Writes(files, request, content)[i].Create? && Writes(files, request, content)[i].name == sidecar
    ensures Lookup(Applied(files, request, content), sidecar) ==
            if sidecar in files then Some(files[sidecar]) else Some(Writes(files, request, content)[i].content)
  {
    hide Writes;
    WritesHaveDistinctNames(files, request, content);
    OnlyWriteDecides(files, Writes(files, request, content), i);
  }

  lemma AppliedFirstSidecar(files: Files, request: Request, content: Content)
    requires CanApply(files, request, content)
    ensures Lookup(Applied(files, request, content), OPTIMIZATION_BACKUP) ==
            KeptIn(files, OPTIMIZATION_BACKUP, FileName(Optimization))
  {
    hide FileName, AssetName, AutoexecWrites, Sorted, Applied;
    if FileName(Optimization) in files {
      SidecarIsWritten(files, request, content, 0, OPTIMIZATION_BACKUP);
    } else {
      FirstSidecarIsUntouched(files, request, content);
    }
  }

  lemma FirstSidecarIsUntouched(files: Files, request: Request, content: Content)
    requires CanApply(files, request, content) && FileName(Optimization) !in files
    ensures Lookup(Applied(files, request, content), OPTIMIZATION_BACKUP) == Lookup(files, OPTIMIZATION_BACKUP)
  {
    hide FileName, Writes;
    var writes := Writes(files, request, content);
    forall w | w in writes ensures w.name != OPTIMIZATION_BACKUP {
      NoSidecarWrite(files, request, content, w);
    }
    UnnamedIsUntouched(files, writes, OPTIMIZATION_BACKUP);
  }

  lemma SecondSidecarIsUntouched(files: Files, request: Request, content: Content)
    requires CanApply(files, request, content)
    requires request.bootstrap ==>
               AUTOEXEC_BACKUP !in AutoexecNames(files, request, content)
    ensures Lookup(Applied(files, request, content), AUTOEXEC_BACKUP) == Lookup(files, AUTOEXEC_BACKUP)
  {
    hide FileName, AssetName, Bootstrapped, Sorted, AutoexecWrites;
    var writes := Writes(files, request, content);
    forall w | w in writes ensures w.name != AUTOEXEC_BACKUP {
      NotSecondSidecar(files, request, content, w);
    }
    UnnamedIsUntouched(files, writes, AUTOEXEC_BACKUP);
  }

  function AutoexecNames(files: Files, request: Request, content: Content): set<string>
    requires CanApply(files, request, content)
  {
    set w | w in AutoexecWrites(AutoexecInput(files, request), content) :: w.name
  }

  lemma NotSecondSidecar(files: Files, request: Request, content: Content, w: Write)
    requires CanApply(files, request, content) && w in Writes(files, request, content)
    requires request.bootstrap ==> AUTOEXEC_BACKUP !in AutoexecNames(files, request, content)
    ensures w.name != AUTOEXEC_BACKUP
  {
    hide FileName, AssetName, Bootstrapped, Sorted;
    FileNamesDiffer(Optimization, AutoexecCfg);
    BackupsDiffer();
    var order := Sorted(request.assets);
    if w in AssetWrites(order, content) {
      var k :| 0 <= k < |order| && AssetWrites(order, content)[k] == w;
      AssetFile(order[k]);
      FileNamesDiffer(Optional(order[k]), Optimization);
    }
  }

  lemma BackupsDiffer()
    ensures OPTIMIZATION_BACKUP != AUTOEXEC_BACKUP
  {
    assert |OPTIMIZATION_BACKUP| == 20 && |AUTOEXEC_BACKUP| == 16;
  }

  lemma AppliedSecondSidecar(files: Files, request: Request, content: Content)
    requires CanApply(files, request, content)
    ensures Lookup(Applied(files, request, content), AUTOEXEC_BACKUP) ==
            if request.bootstrap && Lookup(files, FileName(AutoexecCfg)) != Some(WithExec(files, content))
            then KeptIn(files, AUTOEXEC_BACKUP, FileName(AutoexecCfg)) else Lookup(files, AUTOEXEC_BACKUP)
  {
    hide FileName, AssetName, Sorted, Applied;
    var original := AutoexecInput(files, request);
    if request.bootstrap && original.Some? && original != Some(WithExec(files, content)) {
      var a := OptimizationWrites(files, request, content);
      var b := AutoexecWrites(original, content);
      assert b[0] == Create(AUTOEXEC_BACKUP, original.value);
      assert Writes(files, request, content)[|a|] == b[0];
      SidecarIsWritten(files, request, content, |a|, AUTOEXEC_BACKUP);
    } else {
      if request.bootstrap { NoAutoexecSidecar(files, request, content); }
      SecondSidecarIsUntouched(files, request, content);
    }
  }

  lemma NoAutoexecSidecar(files: Files, request: Request, content: Content)
    requires CanApply(files, request, content) && request.bootstrap
    requires var original := AutoexecInput(files, request); original.None? || original == Some(WithExec(files, content))
    ensures AUTOEXEC_BACKUP !in AutoexecNames(files, request, content)
  {
    hide FileName;
    FileNamesDiffer(AutoexecCfg, Optimization);
  }

  lemma UnbootstrappedAutoexec(files: Files, request: Request, content: Content)
    requires CanApply(files, request, content) && !request.bootstrap
    ensures Lookup(Applied(files, request, content), FileName(AutoexecCfg)) == Lookup(files, FileName(AutoexecCfg))
  {
    hide FileName, AssetName, Sorted;
    var writes, order := Writes(files, request, content), Sorted(request.assets);
    FileNamesDiffer(Optimization, AutoexecCfg);
    FileNamesDiffer(AutoexecCfg, Optimization);
    forall w | w in writes ensures w.name != FileName(AutoexecCfg) {
      if w in AssetWrites(order, content) {
        var k :| 0 <= k < |order| && AssetWrites(order, content)[k] == w;
        AssetFile(order[k]);
        FileNamesDiffer(Optional(order[k]), AutoexecCfg);
      }
    }
    UnnamedIsUntouched(files, writes, FileName(AutoexecCfg));
  }

  /** What every file of the directory holds after a complete apply. */
  lemma ApplyIs(files: Files, request: Request, content: Content, name: string)
    requires CanApply(files, request, content)
    ensures var after := Applied(files, request, content);
            && Lookup(after, FileName(Optimization)) == Some(content.render(request.generatedAt))
            && Lookup(after, FileName(AutoexecCfg)) ==
                 (if request.bootstrap then Some(WithExec(files, content)) else Lookup(files, FileName(AutoexecCfg)))
            && (forall a | a in request.assets :: Lookup(after, AssetName(a)) == Some(content.asset(a)))
            && Lookup(after, OPTIMIZATION_BACKUP) == KeptIn(files, OPTIMIZATION_BACKUP, FileName(Optimization))
            && Lookup(after, AUTOEXEC_BACKUP) ==
                 (if request.bootstrap && Lookup(files, FileName(AutoexecCfg)) != Some(WithExec(files, content))
                  then KeptIn(files, AUTOEXEC_BACKUP, FileName(AutoexecCfg)) else Lookup(files, AUTOEXEC_BACKUP))
            && (name != FileName(Optimization) && name != FileName(AutoexecCfg) && !IsSidecar(name)
                && (forall a | a in request.assets :: name != AssetName(a)) ==>
                  Lookup(after, name) == Lookup(files, name))
  {
    hide FileName, AssetName, Sorted, Writes, Applied, WithExec, KeptIn;
    AppliedOptimization(files, request, content);
    if request.bootstrap {
      AppliedAutoexec(files, request, content);
      WithExecIs(files, request, content);
    } else {
      UnbootstrappedAutoexec(files, request, content);
    }
    forall a | a in request.assets ensures Lookup(Applied(files, request, content), AssetName(a)) == Some(content.asset(a)) {
      AppliedAsset(files, request, content, a);
    }
    AppliedFirstSidecar(files, request, content);
    AppliedSecondSidecar(files, request, content);
    if name != FileName(Optimization) && name != FileName(AutoexecCfg) && !IsSidecar(name)
       && forall a | a in request.assets :: name != AssetName(a) {
      UnnamedByRequest(files, request, content, name);
    }
  }

  lemma WithExecIs(files: Files, request: Request, content: Content)
    requires CanApply(files, request, content) && request.bootstrap
    ensures Bootstrapped(AutoexecInput(files, request), content) == WithExec(files, content)
  {
    hide FileName;
  }

  lemma UnnamedByRequest(files: Files, request: Request, content: Content, name: string)
    requires CanApply(files, request, content)
    requires name != FileName(Optimization) && name != FileName(AutoexecCfg) && !IsSidecar(name)
    requires forall a | a in request.assets :: name != AssetName(a)
    ensures Lookup(Applied(files, request, content), name) == Lookup(files, name)
  {
    hide FileName, AssetName, Sorted, Bootstrapped;
    SortedIsTheSet(request.assets);
    var writes, order := Writes(files, request, content), Sorted(request.assets);
    forall w | w in writes ensures w.name != name {
      if w in AssetWrites(order, content) {
        var k :| 0 <= k < |order| && AssetWrites(order, content)[k] == w;
        assert order[k] in request.assets;
      }
    }
    UnnamedIsUntouched(files, writes, name);
  }
}
