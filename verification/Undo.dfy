/** Failed attempts, crashes and retries, joined with the restore: whatever the
    live sessions did, restoring gives every setting its original value. */
module Undo {
  import opened Wrappers
  import opened Catalog
  import opened ProgressRecord
  import opened Audit
  import opened Backup
  import opened EngineModel
  import opened WriteAhead
  import opened Restore

  /** Assumed of a backend: what a captured entry saves is decided by its kind and its subject,
      and exists. */
  ghost predicate NamesResources(o: Oracle, settings: Settings, known: set<Resource>) {
    && CaseBlind(settings)
    && (forall t :: NamedBy(o.captured(t), settings) && NamesKnown(o.captured(t), known))
  }

  ghost predicate NamesKnown(entries: seq<BackupEntry>, known: set<Resource>) {
    forall e | e in entries && !NeverRepeats(e.kind) :: e.saved.Keys <= known
  }

  /** Restoring now would reproduce `original`. */
  ghost predicate Undoable(w: World, original: Resources, settings: Settings) {
    && w.resources.Keys == original.Keys
    && RestoreAll(w.backups, w.resources) == original
    && NamedBy(w.backups, settings)
  }

  /** Whatever an apply may write now is stored. */
  ghost predicate WritesAreStored(w: World) { w.authority * w.resources.Keys <= Covered(w.backups) }

  lemma SnapshotFits(es: seq<BackupEntry>, now: Resources, settings: Settings)
    requires NamedBy(es, settings) && NamesKnown(es, now.Keys)
    ensures NamedBy(Snapshot(es, now), settings)
    ensures forall e | e in Snapshot(es, now) :: Current(e, now)
  {
    hide NeverRepeats;
    var ss := Snapshot(es, now);
    forall e | e in ss && !NeverRepeats(e.kind)
      ensures e.saved.Keys == settings(e.kind, e.subject)
    {
      var i :| 0 <= i < |ss| && ss[i] == e;
      assert es[i] in es;
      assert es[i].saved.Keys <= now.Keys;
      assert e.saved.Keys == es[i].saved.Keys;
    }
  }

  /** Storing what was captured keeps the undo. */
  lemma PersistKeepsUndo(
    o: Oracle, start: nat, w: World, c: Call, original: Resources, settings: Settings)
    requires Undoable(w, original, settings) && Allowed(o, start, w, c) && !c.Apply?
    requires NamesResources(o, settings, original.Keys)
    ensures Undoable(Do(o, w, c), original, settings)
  {
    hide MayApply, InVisitOrder;
    if c.PersistBackups? {
      var es := c.entries;
      SnapshotFits(o.captured(w.trace), w.resources, settings);
      PushKeepsRestore(w.backups, es, w.resources);
      PushCovers(w.backups, es, settings);
    }
  }

  function With(o: Oracle, writes: seq<Call> -> Resources): Oracle { o.(writes := writes) }

  lemma StoredWritesKeepUndo(o: Oracle, w: World, id: StepId, original: Resources, settings: Settings)
    requires Undoable(w, original, settings) && WritesAreStored(w)
    ensures Undoable(Do(o, w, Apply(id)), original, settings)
  {
    var next := Do(o, w, Apply(id));
    assert next.resources.Keys == w.resources.Keys;
    RestoreForgetsCovered(w.backups, w.resources, next.resources);
  }

  lemma UnstoredWriteLosesUndo(
    o: Oracle, w: World, id: StepId, original: Resources, settings: Settings, r: Resource)
    returns (writes: seq<Call> -> Resources)
    requires Undoable(w, original, settings)
    requires r in w.authority && r in w.resources && r !in Covered(w.backups)
    ensures !Undoable(Do(With(o, writes), w, Apply(id)), original, settings)
  {
    var v := if w.resources[r].Missing? then Present("") else Missing;
    writes := _ => map[r := v];
    var next := Do(With(o, writes), w, Apply(id));
    assert next.resources[r] == v;
    FirstSavedIffCovered(w.backups, r);
    RestoreAllIsFirstSaved(w.backups, w.resources, r);
    RestoreAllIsFirstSaved(w.backups, next.resources, r);
  }

  /** An apply keeps the undo whatever it writes, if and only if all it may write is stored. A
      capture alone, which is all the gate asks for, is not enough. */
  lemma ApplyKeepsUndoIff(o: Oracle, w: World, id: StepId, original: Resources, settings: Settings)
    requires Undoable(w, original, settings)
    ensures WritesAreStored(w) <==>
            forall writes: seq<Call> -> Resources :: Undoable(Do(With(o, writes), w, Apply(id)), original, settings)
  {
    hide Undoable, Do;
    if WritesAreStored(w) {
      forall writes: seq<Call> -> Resources
        ensures Undoable(Do(With(o, writes), w, Apply(id)), original, settings)
      {
        StoredWritesKeepUndo(With(o, writes), w, id, original, settings);
      }
    } else {
      var r :| r in w.authority * w.resources.Keys && r !in Covered(w.backups);
      var writes := UnstoredWriteLosesUndo(o, w, id, original, settings, r);
    }
  }

  /** Right after a batch was captured and stored, all that may be written is stored. */
  lemma BackupStoresWrites(
    o: Oracle, w: World, calls: seq<Call>, id: StepId, original: Resources, settings: Settings)
    requires Disciplined(o, w, calls) && w.authority == {}
    requires |calls| >= 3 && JustBackedUp(o, |w.trace|, w.trace + calls, id)
    requires Undoable(Replay(o, w, calls[..|calls| - 1]), original, settings)
    requires NamesResources(o, settings, original.Keys)
    ensures WritesAreStored(Replay(o, w, calls))
  {
    hide Disciplined, JustBackedUp, Replay, Snapshot, Covered, PushedAll;
    var n := |calls|;
    var before, now := Replay(o, w, calls[..n - 1]), Replay(o, w, calls);
    var captured := o.captured(w.trace + calls[..n - 1]);
    BackupCovers(o, w, calls, id);
    LastReplayed(o, w, calls);
    SnapshotFits(captured, now.resources, settings);
    PushCovers(before.backups, calls[n - 1].entries, settings);
    SnapshotCovers(captured, now.resources);
  }

  lemma SnapshotCovers(es: seq<BackupEntry>, now: Resources)
    ensures Covered(es) * now.Keys <= Covered(Snapshot(es, now))
  {
    forall r | r in Covered(es) * now.Keys ensures r in Covered(Snapshot(es, now)) {
      SnapshotHolds(es, now, r);
    }
  }

  /** The engine's order joins the capture gate to the restore: in every process, under every
      fault, all that an apply may write is in the backup file before it. */
  lemma {:induction false} AppliesAreStored(
    o: Oracle, w: World, calls: seq<Call>, id: StepId, original: Resources, settings: Settings)
    requires Undoable(w, original, settings) && Disciplined(o, w, calls) && w.authority == {}
    requires NamesResources(o, settings, original.Keys)
    requires MayApply(o, |w.trace|, w.trace + calls, id)
    ensures WritesAreStored(Replay(o, w, calls))
    decreases |calls|
  {
    hide Undoable, NamesResources, Disciplined, Replay, JustBackedUp, JustAudited, JustInspected, MayApply;
    var n, t := |calls|, w.trace + calls;
    MayApplyShape(o, |w.trace|, t, id);
    if o.recovery(id) == LosslessBackup {
      DisciplinedAt(o, w, calls, n - 1);
      ReplayKeepsUndo(o, w, calls[..n - 1], original, settings);
      BackupStoresWrites(o, w, calls, id, original, settings);
    } else if o.recovery(id) == Mixed {
      assert t[..|t| - 2] == w.trace + calls[..n - 2];
      assert calls[..n - 2][..n - 3] == calls[..n - 3];
      DisciplinedAt(o, w, calls, n - 2);
      DisciplinedAt(o, w, calls, n - 3);
      ReplayKeepsUndo(o, w, calls[..n - 3], original, settings);
      BackupStoresWrites(o, w, calls[..n - 2], id, original, settings);
      AuditKeeps(o, w, calls, id);
    } else {
      AuditedWritesNothing(o, w, calls, id);
    }
  }

  /** No process, whatever fails in it and wherever it stops, loses the undo. */
  lemma {:induction false} ReplayKeepsUndo(
    o: Oracle, w: World, calls: seq<Call>, original: Resources, settings: Settings)
    requires Undoable(w, original, settings) && Disciplined(o, w, calls) && w.authority == {}
    requires NamesResources(o, settings, original.Keys)
    ensures Undoable(Replay(o, w, calls), original, settings)
    decreases |calls|
  {
    hide Undoable, NamesResources, MayApply, Do;
    if calls != [] {
      var n := |calls| - 1;
      var before := Replay(o, w, calls[..n]);
      ReplayKeepsUndo(o, w, calls[..n], original, settings);
      if calls[n].Apply? {
        LastReplayed(o, w, calls);
        AppliesAreStored(o, w, calls[..n], calls[n].id, original, settings);
        StoredWritesKeepUndo(o, before, calls[n].id, original, settings);
      } else {
        PersistKeepsUndo(o, |w.trace|, before, calls[n], original, settings);
      }
    }
  }

  /** One engine process: a fresh engine over the stored progress, with nothing captured, which
      dies after `calls` backend calls if it gets that far. */
  datatype Session = Session(oracle: Oracle, steps: seq<Step>, profile: Profile, calls: nat)

  function Begun(w: World): World { w.(authority := {}) }

  ghost function CallsOf(w: World, s: Session): seq<Call> {
    var t := Run(s.oracle, St(Begun(w), w.saved, EmptyReport()), s.steps, s.profile).st.world.trace;
    var made := if |w.trace| <= |t| then t[|w.trace|..] else [];
    if s.calls < |made| then made[..s.calls] else made
  }

  /** What happens to the machine: live sessions, and runs of the restore command. */
  datatype Event = Live(session: Session) | Restoring(round: Round)

  ghost function AfterEvent(w: World, e: Event): World {
    match e
    case Live(s) => Replay(s.oracle, Begun(w), CallsOf(w, s))
    case Restoring(round) =>
      var after := AfterRound(w.backups, w.resources, round);
      w.(backups := after.0, resources := after.1)
  }

  ghost function After(w: World, events: seq<Event>): World {
    if events == [] then w
    else AfterEvent(After(w, events[..|events| - 1]), events[|events| - 1])
  }

  /** A restore that writes the file keeps no entry of a resource whose oldest entry
      it has released, unless both saved the same value. */
  ghost predicate KeepsFirsts(w: World, e: Event) {
    e.Restoring? && e.round.persisted ==> FirstsKept(w.backups, AfterEvent(w, e).backups)
  }

  lemma {:induction false} SessionKeepsUndo(
    w: World, s: Session, original: Resources, settings: Settings)
    requires Undoable(w, original, settings) && NamesResources(s.oracle, settings, original.Keys)
    ensures Undoable(AfterEvent(w, Live(s)), original, settings)
  {
    hide NamesResources, Run, RestoreAll;
    var st := St(Begun(w), w.saved, EmptyReport());
    RunsAreSound(s.oracle, st, s.steps, s.profile);
    var made := Run(s.oracle, st, s.steps, s.profile).st.world.trace[|w.trace|..];
    if s.calls < |made| {
      DisciplinedAt(s.oracle, Begun(w), made, s.calls);
    }
    ReplayKeepsUndo(s.oracle, Begun(w), CallsOf(w, s), original, settings);
  }

  /** One run of the restore command keeps the undo exactly if it keeps the oldest values. */
  lemma RestoreKeepsUndoIff(w: World, round: Round, original: Resources, settings: Settings)
    requires Undoable(w, original, settings)
    ensures Undoable(AfterEvent(w, Restoring(round)), original, settings) <==> KeepsFirsts(w, Restoring(round))
  {
    hide Pass, Covered, FirstsKept;
    var attempts := round.Attempts(|w.backups|);
    RoundConvergesIff(w.backups, w.resources, round);
    PassRetainsMembers(w.backups, attempts, w.resources);
    MembersAreCovered(w.backups, Pass(w.backups, attempts, w.resources).0);
    PassKeepsKeys(w.backups, attempts, w.resources);
    PassOnlyAdds(w.backups, attempts, w.resources);
    RestoreAllIsFirstSaved(w.backups, w.resources, Resource(""));
  }

  lemma {:induction false} EventsKeepUndo(
    w: World, events: seq<Event>, original: Resources, settings: Settings)
    requires Undoable(w, original, settings)
    requires forall e | e in events && e.Live? :: NamesResources(e.session.oracle, settings, original.Keys)
    requires forall i | 0 <= i < |events| :: KeepsFirsts(After(w, events[..i]), events[i])
    ensures Undoable(After(w, events), original, settings)
  {
    hide Undoable, NamesResources, AfterEvent, KeepsFirsts;
    if events != [] {
      var n := |events| - 1;
      var e := events[n];
      assert e in events;
      assert forall i | 0 <= i < n :: events[..n][..i] == events[..i];
      EventsKeepUndo(w, events[..n], original, settings);
      assert KeepsFirsts(After(w, events[..n]), e);
      match e
      case Live(s) => SessionKeepsUndo(After(w, events[..n]), s, original, settings);
      case Restoring(round) => RestoreKeepsUndoIff(After(w, events[..n]), round, original, settings);
    }
  }

  /** From a machine without backups, after any number of live sessions that fail, crash
      and retry anywhere, with partial, failing, crashing and unwritten restores between
      them that keep the oldest values, one clean restore gives back the machine exactly
      and leaves no entry behind. More such restores before it are harmless, whatever
      fails in them, exactly if the entries that share a resource agree. */
  lemma {:induction false} RetriedSessionsAreUndone(
    w: World, events: seq<Event>, settings: Settings, attempts: seq<Attempt>)
    requires w.backups == []
    requires forall e | e in events && e.Live? :: NamesResources(e.session.oracle, settings, w.resources.Keys)
    requires forall i | 0 <= i < |events| :: KeepsFirsts(After(w, events[..i]), events[i])
    requires var now := After(w, events);
             |attempts| == |now.backups| && forall i | 0 <= i < |attempts| :: attempts[i].Restored?
    ensures var now := After(w, events);
            && Pass(now.backups, attempts, now.resources) == ([], w.resources)
            && (Agreeing(now.backups) <==> forall rounds: seq<Round> :: RestoresTo(now, rounds, w.resources))
  {
    hide Agreeing, NamesResources, KeepsFirsts;
    EventsKeepUndo(w, events, w.resources, settings);
    var now := After(w, events);
    CleanPassRestoresAll(now.backups, attempts, now.resources);
    RetriedRestoresConvergeIff(now.backups, now.resources);
    assert forall rounds: seq<Round> ::
        RestoresTo(now, rounds, w.resources) <==> RoundsConverge(now.backups, now.resources, rounds);
  }

  /** After these restores a clean one gives the original settings. */
  ghost predicate RestoresTo(now: World, rounds: seq<Round>, original: Resources) {
    var after := AfterRounds(now.backups, now.resources, rounds);
    RestoreAll(after.0, after.1) == original
  }

  /** A session that does not crash is the engine's run from the stored progress. */
  lemma {:induction false} CompletedSessionIsTheRun(w: World, s: Session)
    requires var st := St(Begun(w), w.saved, EmptyReport());
             s.calls >= |Run(s.oracle, st, s.steps, s.profile).st.world.trace|
    ensures AfterEvent(w, Live(s)) ==
            Run(s.oracle, St(Begun(w), w.saved, EmptyReport()), s.steps, s.profile).st.world
  {
    RunsAreSound(s.oracle, St(Begun(w), w.saved, EmptyReport()), s.steps, s.profile);
  }
}
