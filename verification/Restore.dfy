/** The restore command: reverse pass, failed entries retained for a later retry. */
module Restore {
  import opened Wrappers
  import opened Backup

  /** What happens to one entry in one pass. A failed restore may leave any of
      the entry's own resources with any value. */
  datatype Attempt = Unselected | Restored | Failed(left: Resources)

  function Touched(e: BackupEntry, a: Attempt, now: Resources): Resources {
    match a
    case Unselected => now
    case Restored => now + e.saved
    case Failed(left) => now + (map r | r in left && r in e.saved :: left[r])
  }

  function Kept(e: BackupEntry, a: Attempt): seq<BackupEntry> {
    if a.Restored? then [] else [e]
  }

  function Pass(entries: seq<BackupEntry>, attempts: seq<Attempt>, now: Resources): (seq<BackupEntry>, Resources)
    requires |attempts| == |entries|
  {
    if entries == [] then ([], now)
    else
      var n := |entries| - 1;
      var rest := Pass(entries[..n], attempts[..n], Touched(entries[n], attempts[n], now));
      (rest.0 + Kept(entries[n], attempts[n]), rest.1)
  }

  lemma PassStep(entries: seq<BackupEntry>, attempts: seq<Attempt>, i: nat, now: Resources)
    requires |attempts| == |entries| && 0 < i <= |entries|
    ensures var rest := Pass(entries[..i - 1], attempts[..i - 1], Touched(entries[i - 1], attempts[i - 1], now));
            Pass(entries[..i], attempts[..i], now) == (rest.0 + Kept(entries[i - 1], attempts[i - 1]), rest.1)
  {
    assert entries[..i][..i - 1] == entries[..i - 1];
    assert attempts[..i][..i - 1] == attempts[..i - 1];
  }

  function Reversed<T>(s: seq<T>): seq<T> {
    if s == [] then [] else Reversed(s[1..]) + [s[0]]
  }

  lemma {:induction false} ReversedSnoc<T>(s: seq<T>, x: T)
    ensures Reversed(s + [x]) == [x] + Reversed(s)
  {
    if s == [] {
      assert s + [x] == [x];
    } else {
      assert (s + [x])[1..] == s[1..] + [x];
      ReversedSnoc(s[1..], x);
    }
  }

  lemma ReversedKept(retained: seq<BackupEntry>, e: BackupEntry, a: Attempt, rest: seq<BackupEntry>)
    ensures (rest + Kept(e, a)) + Reversed(retained) ==
            rest + Reversed(if a.Restored? then retained else retained + [e])
  {
    ReversedSnoc(retained, e);
  }

  lemma EmptyPass(now: Resources)
    ensures Pass([], [], now) == ([], now) && Reversed<BackupEntry>([]) == []
  {
  }

  class RestoreStore {
    var file: seq<BackupEntry>
    var resources: Resources

    constructor (entries: seq<BackupEntry>, now: Resources)
      ensures file == entries && resources == now
    {
      file, resources := entries, now;
    }

    /** One pass over the file; `persisted` is whether the final rewrite succeeds. */
    method RestoreMatching(attempts: seq<Attempt>, persisted: bool) returns (ok: bool)
      requires |attempts| == |file|
      modifies this
      ensures resources == Pass(old(file), attempts, old(resources)).1
      ensures file == if persisted then Pass(old(file), attempts, old(resources)).0 else old(file)
      ensures ok <==> persisted && forall i | 0 <= i < |attempts| :: !attempts[i].Failed?
    {
      hide Pass, Reversed;
      var retained: seq<BackupEntry> := [];
      var failures := 0;
      var i := |file|;
      assert file[..i] == file && attempts[..i] == attempts;
      EmptyPass(resources);
      while i > 0
        invariant 0 <= i <= |file| && file == old(file)
        invariant Pass(file, attempts, old(resources)).0 ==
                  Pass(file[..i], attempts[..i], resources).0 + Reversed(retained)
        invariant Pass(file, attempts, old(resources)).1 == Pass(file[..i], attempts[..i], resources).1
        invariant failures == 0 <==> forall j | i <= j < |attempts| :: !attempts[j].Failed?
      {
        PassStep(file, attempts, i, resources);
        i := i - 1;
        var e := file[i];
        ghost var later := retained;
        match attempts[i] {
          case Unselected =>
            retained := retained + [e];
          case Restored =>
            resources := resources + e.saved;
          case Failed(left) =>
            resources := resources + (map r | r in left && r in e.saved :: left[r]);
            retained := retained + [e];
            failures := failures + 1;
        }
        ReversedKept(later, e, attempts[i], Pass(file[..i], attempts[..i], resources).0);
      }
      assert file[..0] == [] && attempts[..0] == [];
      EmptyPass(resources);
      if persisted {
        file := Reversed(retained);
      }
      ok := persisted && failures == 0;
    }
  }

  // What a pass comes to, read from the oldest entry on

  function NotRestored(entries: seq<BackupEntry>, attempts: seq<Attempt>): seq<BackupEntry>
    requires |attempts| == |entries|
  {
    if entries == [] then []
    else if attempts[0].Restored? then NotRestored(entries[1..], attempts[1..])
    else [entries[0]] + NotRestored(entries[1..], attempts[1..])
  }

  /** What an attempt writes to a resource: the saved value, or whatever a failed restore left there. */
  function WrittenBy(e: BackupEntry, a: Attempt, r: Resource): Option<Value> {
    if a.Restored? && r in e.saved then Some(e.saved[r])
    else if a.Failed? && r in a.left && r in e.saved then Some(a.left[r])
    else None
  }

  /** The write of the oldest entry that writes the resource. */
  function OldestWrite(entries: seq<BackupEntry>, attempts: seq<Attempt>, r: Resource): Option<Value>
    requires |attempts| == |entries|
  {
    if entries == [] then None
    else
      var first := WrittenBy(entries[0], attempts[0], r);
      if first.Some? then first else OldestWrite(entries[1..], attempts[1..], r)
  }

  lemma {:induction false} NotRestoredSnoc(entries: seq<BackupEntry>, attempts: seq<Attempt>, e: BackupEntry, a: Attempt)
    requires |attempts| == |entries|
    ensures NotRestored(entries + [e], attempts + [a]) ==
            NotRestored(entries, attempts) + if a.Restored? then [] else [e]
  {
    if entries == [] {
      assert entries + [e] == [e] && attempts + [a] == [a];
    } else {
      assert (entries + [e])[1..] == entries[1..] + [e] && (attempts + [a])[1..] == attempts[1..] + [a];
      NotRestoredSnoc(entries[1..], attempts[1..], e, a);
    }
  }

  lemma {:induction false} OldestWriteSnoc(
    entries: seq<BackupEntry>, attempts: seq<Attempt>, e: BackupEntry, a: Attempt, r: Resource)
    requires |attempts| == |entries|
    ensures OldestWrite(entries + [e], attempts + [a], r) ==
            if OldestWrite(entries, attempts, r).Some? then OldestWrite(entries, attempts, r) else WrittenBy(e, a, r)
  {
    hide WrittenBy;
    if entries == [] {
      assert entries + [e] == [e] && attempts + [a] == [a];
    } else {
      assert (entries + [e])[1..] == entries[1..] + [e] && (attempts + [a])[1..] == attempts[1..] + [a];
      OldestWriteSnoc(entries[1..], attempts[1..], e, a, r);
    }
  }

  /** A pass keeps exactly the entries it did not restore, in their order. */
  lemma {:induction false} PassRetains(entries: seq<BackupEntry>, attempts: seq<Attempt>, now: Resources)
    requires |attempts| == |entries|
    ensures Pass(entries, attempts, now).0 == NotRestored(entries, attempts)
  {
    hide Touched;
    if entries != [] {
      var n := |entries| - 1;
      PassRetains(entries[..n], attempts[..n], Touched(entries[n], attempts[n], now));
      NotRestoredSnoc(entries[..n], attempts[..n], entries[n], attempts[n]);
      assert entries == entries[..n] + [entries[n]] && attempts == attempts[..n] + [attempts[n]];
    }
  }

  /** A pass leaves each resource with the write of the oldest entry that writes it, or as it was. */
  lemma {:induction false} PassLeaves(entries: seq<BackupEntry>, attempts: seq<Attempt>, now: Resources, r: Resource)
    requires |attempts| == |entries|
    ensures var after, write := Pass(entries, attempts, now).1, OldestWrite(entries, attempts, r);
            && (r in after <==> r in now || write.Some?)
            && (r in after ==> after[r] == if write.Some? then write.value else now[r])
  {
    hide NotRestored;
    if entries != [] {
      var n := |entries| - 1;
      PassLeaves(entries[..n], attempts[..n], Touched(entries[n], attempts[n], now), r);
      OldestWriteSnoc(entries[..n], attempts[..n], entries[n], attempts[n], r);
      assert entries == entries[..n] + [entries[n]] && attempts == attempts[..n] + [attempts[n]];
    }
  }

  lemma {:induction false} CleanPassRestoresAll(entries: seq<BackupEntry>, attempts: seq<Attempt>, now: Resources)
    requires |attempts| == |entries|
    requires forall i | 0 <= i < |attempts| :: attempts[i].Restored?
    ensures Pass(entries, attempts, now) == ([], RestoreAll(entries, now))
  {
    if entries != [] {
      var n := |entries| - 1;
      CleanPassRestoresAll(entries[..n], attempts[..n], now + entries[n].saved);
      assert Pass(entries, attempts, now).0 == [];
    }
  }

  /** Every entry naming a resource saves the value that the oldest one saves. */
  ghost predicate Agreeing(entries: seq<BackupEntry>) {
    forall e, r | e in entries && r in e.saved :: FirstSaved(entries, r) == Some(e.saved[r])
  }

  lemma CoveredParts(a: seq<BackupEntry>, b: seq<BackupEntry>)
    ensures Covered(a + b) == Covered(a) + Covered(b)
  {
  }

  lemma {:induction false} PassRetainsMembers(entries: seq<BackupEntry>, attempts: seq<Attempt>, now: Resources)
    requires |attempts| == |entries|
    ensures forall e | e in Pass(entries, attempts, now).0 :: e in entries
  {
    if entries != [] {
      var n := |entries| - 1;
      PassRetainsMembers(entries[..n], attempts[..n], Touched(entries[n], attempts[n], now));
    }
  }

  lemma CoveredLast(entries: seq<BackupEntry>)
    requires entries != []
    ensures var n := |entries| - 1; Covered(entries) == Covered(entries[..n]) + entries[n].saved.Keys
  {
    var n := |entries| - 1;
    assert entries == entries[..n] + [entries[n]];
    CoveredParts(entries[..n], [entries[n]]);
    assert Covered([entries[n]]) == entries[n].saved.Keys;
  }

  lemma TouchedKeys(e: BackupEntry, a: Attempt, now: Resources)
    ensures Touched(e, a, now).Keys + Covered(Kept(e, a)) == now.Keys + e.saved.Keys
  {
    if !a.Restored? {
      assert Covered(Kept(e, a)) == e.saved.Keys;
    }
  }

  lemma {:induction false} PassKeepsKeys(entries: seq<BackupEntry>, attempts: seq<Attempt>, now: Resources)
    requires |attempts| == |entries|
    ensures var p := Pass(entries, attempts, now);
            p.1.Keys + Covered(p.0) == now.Keys + Covered(entries)
  {
    hide Covered, Touched, Kept;
    if entries != [] {
      var n := |entries| - 1;
      var e, a := entries[n], attempts[n];
      var mid := Touched(e, a, now);
      PassKeepsKeys(entries[..n], attempts[..n], mid);
      TouchedKeys(e, a, now);
      CoveredLast(entries);
      CoveredParts(Pass(entries[..n], attempts[..n], mid).0, Kept(e, a));
    }
  }

  lemma {:induction false} PassOnlyAdds(entries: seq<BackupEntry>, attempts: seq<Attempt>, now: Resources)
    requires |attempts| == |entries|
    ensures now.Keys <= Pass(entries, attempts, now).1.Keys
  {
    if entries != [] {
      var n := |entries| - 1;
      PassOnlyAdds(entries[..n], attempts[..n], Touched(entries[n], attempts[n], now));
    }
  }

  /** A pass never touches a resource that no entry names. */
  lemma {:induction false} PassSparesUncovered(
    entries: seq<BackupEntry>, attempts: seq<Attempt>, now: Resources, r: Resource)
    requires |attempts| == |entries|
    requires r in now && r !in Covered(entries)
    ensures r in Pass(entries, attempts, now).1 && Pass(entries, attempts, now).1[r] == now[r]
  {
    if entries != [] {
      var n := |entries| - 1;
      assert entries[n] in entries;
      PassSparesUncovered(entries[..n], attempts[..n], Touched(entries[n], attempts[n], now), r);
    }
  }

  /** A resource that no retained entry names has the oldest value saved for it. */
  lemma {:induction false} PassRestoresReleased(
    entries: seq<BackupEntry>, attempts: seq<Attempt>, now: Resources, r: Resource)
    requires |attempts| == |entries|
    requires r in Covered(entries) && r !in Covered(Pass(entries, attempts, now).0)
    ensures var p := Pass(entries, attempts, now);
            r in p.1 && Some(p.1[r]) == FirstSaved(entries, r)
  {
    var n := |entries| - 1;
    var e, a := entries[n], attempts[n];
    var mid := Touched(e, a, now);
    assert entries == entries[..n] + [e];
    FirstSavedSnoc(entries[..n], e, r);
    FirstSavedIffCovered(entries[..n], r);
    CoveredParts(Pass(entries[..n], attempts[..n], mid).0, Kept(e, a));
    if r in Covered(entries[..n]) {
      PassRestoresReleased(entries[..n], attempts[..n], mid, r);
    } else {
      CoveredLast(entries);
      assert e in [e];
      assert a.Restored?;
      PassSparesUncovered(entries[..n], attempts[..n], mid, r);
    }
  }

  lemma {:induction false} FirstSavedIsMember(entries: seq<BackupEntry>, r: Resource)
    requires FirstSaved(entries, r).Some?
    ensures exists e :: e in entries && r in e.saved && FirstSaved(entries, r).value == e.saved[r]
  {
    if r in entries[0].saved {
      assert entries[0] in entries;
    } else {
      FirstSavedIsMember(entries[1..], r);
    }
  }

  lemma {:induction false} RetainsOnly(entries: seq<BackupEntry>, attempts: seq<Attempt>, now: Resources, j: nat)
    requires |attempts| == |entries| && j < |entries|
    requires forall i | 0 <= i < |attempts| :: attempts[i].Restored? <==> i != j
    ensures Pass(entries, attempts, now).0 == [entries[j]]
  {
    var n := |entries| - 1;
    var mid := Touched(entries[n], attempts[n], now);
    if j == n {
      CleanPassRestoresAll(entries[..n], attempts[..n], mid);
    } else {
      RetainsOnly(entries[..n], attempts[..n], mid, j);
    }
  }

  /** A pass followed by a retry of what it retained gives what one clean pass gives. */
  ghost predicate RetryConverges(entries: seq<BackupEntry>, attempts: seq<Attempt>, now: Resources)
    requires |attempts| == |entries|
  {
    var p := Pass(entries, attempts, now);
    RestoreAll(p.0, p.1) == RestoreAll(entries, now)
  }

  /** No resource has its oldest entry released while a younger one with another value is kept. */
  ghost predicate FirstsKept(entries: seq<BackupEntry>, kept: seq<BackupEntry>) {
    forall r | r in Covered(kept) :: FirstSaved(kept, r) == FirstSaved(entries, r)
  }

  lemma MembersAreCovered(entries: seq<BackupEntry>, kept: seq<BackupEntry>)
    requires forall e | e in kept :: e in entries
    ensures Covered(kept) <= Covered(entries)
  {
  }

  lemma ConvergesAt(entries: seq<BackupEntry>, attempts: seq<Attempt>, now: Resources, r: Resource)
    requires |attempts| == |entries| && r in now.Keys + Covered(entries)
    ensures var p := Pass(entries, attempts, now);
            && RestoreAll(p.0, p.1).Keys == RestoreAll(entries, now).Keys == now.Keys + Covered(entries)
            && (RestoreAll(p.0, p.1)[r] == RestoreAll(entries, now)[r]
                <==> (r in Covered(p.0) ==> FirstSaved(p.0, r) == FirstSaved(entries, r)))
  {
    hide Pass, Covered, RestoreAll, FirstSaved;
    var p := Pass(entries, attempts, now);
    PassKeepsKeys(entries, attempts, now);
    PassRetainsMembers(entries, attempts, now);
    MembersAreCovered(entries, p.0);
    RestoreAllIsFirstSaved(p.0, p.1, r);
    RestoreAllIsFirstSaved(entries, now, r);
    FirstSavedIffCovered(p.0, r);
    FirstSavedIffCovered(entries, r);
    if r in Covered(entries) && r !in Covered(p.0) {
      PassRestoresReleased(entries, attempts, now, r);
    } else if r !in Covered(entries) {
      PassSparesUncovered(entries, attempts, now, r);
    }
  }

  /** Retrying what one partial pass retained gives what a clean pass gives, exactly
      when no oldest value is released before a younger, different one. */
  lemma RetryConvergesIff(entries: seq<BackupEntry>, attempts: seq<Attempt>, now: Resources)
    requires |attempts| == |entries|
    ensures RetryConverges(entries, attempts, now) <==> FirstsKept(entries, Pass(entries, attempts, now).0)
  {
    hide Pass, Covered, RestoreAll, FirstSaved;
    var p := Pass(entries, attempts, now);
    PassKeepsKeys(entries, attempts, now);
    PassRetainsMembers(entries, attempts, now);
    MembersAreCovered(entries, p.0);
    RestoreAllIsFirstSaved(p.0, p.1, Resource(""));
    RestoreAllIsFirstSaved(entries, now, Resource(""));
    forall r | r in now.Keys + Covered(entries)
      ensures RestoreAll(p.0, p.1)[r] == RestoreAll(entries, now)[r]
              <==> (r in Covered(p.0) ==> FirstSaved(p.0, r) == FirstSaved(entries, r))
    {
      ConvergesAt(entries, attempts, now, r);
    }
  }

  lemma AgreeingKeepsFirsts(entries: seq<BackupEntry>, kept: seq<BackupEntry>)
    requires Agreeing(entries) && forall e | e in kept :: e in entries
    ensures FirstsKept(entries, kept) && Agreeing(kept)
  {
    forall r | r in Covered(kept) ensures FirstSaved(kept, r) == FirstSaved(entries, r) {
      FirstSavedIffCovered(kept, r);
      FirstSavedIsMember(kept, r);
    }
    forall e, r | e in kept && r in e.saved ensures FirstSaved(kept, r) == Some(e.saved[r]) {
      assert r in Covered(kept);
    }
  }

  /** One run of the restore command: what happens to each entry it still finds, and
      whether the file is written at the end. A run that crashes inside the loop is
      one that leaves the older entries unselected and does not write. */
  datatype Round = Round(outcome: nat -> Attempt, persisted: bool) {
    function Attempts(n: nat): seq<Attempt> { seq(n, i requires 0 <= i < n => outcome(i)) }
  }

  function AfterRound(entries: seq<BackupEntry>, now: Resources, round: Round): (seq<BackupEntry>, Resources) {
    var p := Pass(entries, round.Attempts(|entries|), now);
    (if round.persisted then p.0 else entries, p.1)
  }

  function AfterRounds(entries: seq<BackupEntry>, now: Resources, rounds: seq<Round>): (seq<BackupEntry>, Resources) {
    if rounds == [] then (entries, now)
    else
      var before := AfterRounds(entries, now, rounds[..|rounds| - 1]);
      AfterRound(before.0, before.1, rounds[|rounds| - 1])
  }

  /** A pass whose result is not written to the file loses nothing. */
  lemma UnwrittenPassConverges(entries: seq<BackupEntry>, attempts: seq<Attempt>, now: Resources)
    requires |attempts| == |entries|
    ensures RestoreAll(entries, Pass(entries, attempts, now).1) == RestoreAll(entries, now)
  {
    hide Pass, Covered, RestoreAll;
    var p := Pass(entries, attempts, now);
    PassKeepsKeys(entries, attempts, now);
    PassRetainsMembers(entries, attempts, now);
    MembersAreCovered(entries, p.0);
    forall r | r in now && r !in Covered(entries) ensures r in p.1 && now[r] == p.1[r] {
      PassSparesUncovered(entries, attempts, now, r);
    }
    RestoreForgetsCovered(entries, now, p.1);
  }

  /** One run of the command keeps what a later clean restore gives, exactly when it
      does not write the file or releases no oldest value early. */
  lemma RoundConvergesIff(entries: seq<BackupEntry>, now: Resources, round: Round)
    ensures var after := AfterRound(entries, now, round);
            RestoreAll(after.0, after.1) == RestoreAll(entries, now)
            <==> !round.persisted || FirstsKept(entries, after.0)
  {
    hide Pass, RestoreAll, FirstsKept;
    RetryConvergesIff(entries, round.Attempts(|entries|), now);
    UnwrittenPassConverges(entries, round.Attempts(|entries|), now);
  }

  /** A clean restore after these rounds gives what a clean restore at once gives. */
  ghost predicate RoundsConverge(entries: seq<BackupEntry>, now: Resources, rounds: seq<Round>) {
    var after := AfterRounds(entries, now, rounds);
    RestoreAll(after.0, after.1) == RestoreAll(entries, now)
  }

  lemma {:induction false} AgreeingRoundsConverge(entries: seq<BackupEntry>, now: Resources, rounds: seq<Round>)
    requires Agreeing(entries)
    ensures Agreeing(AfterRounds(entries, now, rounds).0) && RoundsConverge(entries, now, rounds)
  {
    hide Pass, RestoreAll, FirstsKept, Agreeing;
    if rounds != [] {
      var n := |rounds| - 1;
      AgreeingRoundsConverge(entries, now, rounds[..n]);
      var before := AfterRounds(entries, now, rounds[..n]);
      AgreeingKeepsFirsts(before.0, before.0);
      PassRetainsMembers(before.0, rounds[n].Attempts(|before.0|), before.1);
      AgreeingKeepsFirsts(before.0, AfterRound(before.0, before.1, rounds[n]).0);
      RoundConvergesIff(before.0, before.1, rounds[n]);
    }
  }

  /** Any number of partial, failing, crashing or unwritten restores before a clean one
      are harmless, for every failure pattern, exactly when entries that share a
      resource saved the same value for it. */
  lemma RetriedRestoresConvergeIff(entries: seq<BackupEntry>, now: Resources)
    ensures Agreeing(entries) <==>
            forall rounds: seq<Round> :: RoundsConverge(entries, now, rounds)
  {
    hide RestoreAll, Agreeing;
    if Agreeing(entries) {
      forall rounds: seq<Round>
        ensures RoundsConverge(entries, now, rounds)
      {
        AgreeingRoundsConverge(entries, now, rounds);
      }
    } else {
      var round := DisagreementShows(entries, now);
      var rounds := [round];
      assert rounds[..|rounds| - 1] == [];
      assert AfterRounds(entries, now, []) == (entries, now);
      var after := AfterRounds(entries, now, rounds);
      assert after == AfterRound(entries, now, round);
      assert !RoundsConverge(entries, now, rounds);
    }
  }

  /** If entries disagree, some single pass that keeps a younger entry loses the oldest value. */
  lemma DisagreementShows(entries: seq<BackupEntry>, now: Resources) returns (round: Round)
    requires !Agreeing(entries)
    ensures round.persisted
    ensures var after := AfterRound(entries, now, round); RestoreAll(after.0, after.1) != RestoreAll(entries, now)
  {
    var e, r :| e in entries && r in e.saved && FirstSaved(entries, r) != Some(e.saved[r]);
    var j :| 0 <= j < |entries| && entries[j] == e;
    round := Round(i => if i == j then Unselected else Restored, true);
    RetainsOnly(entries, round.Attempts(|entries|), now, j);
    assert r in Covered([e]);
    assert FirstSaved([e], r) == Some(e.saved[r]);
    RoundConvergesIff(entries, now, round);
  }
}
