/** The backup file: first-value deduplication and reverse-order restore. */
module Backup {
  import opened Wrappers
  import opened Catalog

  /** One restorable setting: a registry value, a service, a CFG file, ... */
  datatype Resource = Resource(name: string)

  datatype Value = Missing | Present(data: string)

  type Resources = map<Resource, Value>

  datatype Kind =
    | Registry | Hags | Service | Powerplan | Bootconfig | Scheduledtask | NicAdapter
    | Dns | InterruptPolicy | NetworkStack | PagefileTransaction | Cs2Config
    | QosUro | Defender | Pagefile | Drs | Unknown

  datatype BackupEntry = BackupEntry(step: StepId, kind: Kind, subject: string, saved: Resources)

  datatype Identity = Identity(step: StepId, kind: Kind, subject: string)

  function Lower(s: string): string {
    seq(|s|, i requires 0 <= i < |s| => if 'A' <= s[i] <= 'Z' then s[i] + 32 as char else s[i])
  }

  function DedupeIdentity(e: BackupEntry): Option<Identity> {
    match e.kind
    case Hags => Some(Identity(e.step, e.kind, ""))
    case PagefileTransaction => Some(Identity(e.step, e.kind, ""))
    case QosUro => None
    case Defender => None
    case Pagefile => None
    case Drs => None
    case Unknown => None
    case _ => Some(Identity(e.step, e.kind, Lower(e.subject)))
  }

  predicate Known(entries: seq<BackupEntry>, e: BackupEntry) {
    exists i | 0 <= i < |entries| :: DedupeIdentity(entries[i]) == DedupeIdentity(e)
  }

  function Pushed(entries: seq<BackupEntry>, e: BackupEntry): seq<BackupEntry> {
    if DedupeIdentity(e).None? || !Known(entries, e) then entries + [e] else entries
  }

  function PushedAll(entries: seq<BackupEntry>, es: seq<BackupEntry>): seq<BackupEntry> {
    if es == [] then entries
    else Pushed(PushedAll(entries, es[..|es| - 1]), es[|es| - 1])
  }

  // When two entries are the same setting, without identities

  predicate SameLetter(x: char, y: char) {
    || x == y
    || ('A' <= x <= 'Z' && y as int == x as int + 32)
    || ('A' <= y <= 'Z' && x as int == y as int + 32)
  }

  predicate SameIgnoringCase(a: string, b: string) {
    |a| == |b| && forall i | 0 <= i < |a| :: SameLetter(a[i], b[i])
  }

  /** Kinds whose entries are never recognized as repeated. */
  predicate NeverRepeats(kind: Kind) {
    kind == QosUro || kind == Defender || kind == Pagefile || kind == Drs || kind == Unknown
  }

  /** Kinds of which a step has one setting only. */
  predicate HasOneSetting(kind: Kind) { kind == Hags || kind == PagefileTransaction }

  predicate SameSetting(kind: Kind, a: string, b: string) { HasOneSetting(kind) || SameIgnoringCase(a, b) }

  /** `e` is about the same setting of the same step as an older entry. */
  predicate Repeats(older: BackupEntry, e: BackupEntry) {
    && older.step == e.step && older.kind == e.kind && !NeverRepeats(e.kind)
    && SameSetting(e.kind, older.subject, e.subject)
  }

  lemma LowerIff(a: string, b: string)
    ensures Lower(a) == Lower(b) <==> SameIgnoringCase(a, b)
  {
    if SameIgnoringCase(a, b) {
      assert forall i | 0 <= i < |a| :: SameLetter(a[i], b[i]) && Lower(a)[i] == Lower(b)[i];
    } else if |a| == |b| {
      var i :| 0 <= i < |a| && !SameLetter(a[i], b[i]);
      assert Lower(a)[i] != Lower(b)[i];
    } else {
      assert |Lower(a)| != |Lower(b)|;
    }
  }

  lemma IdentityIff(older: BackupEntry, e: BackupEntry)
    ensures DedupeIdentity(e).Some? && DedupeIdentity(older) == DedupeIdentity(e) <==> Repeats(older, e)
    ensures DedupeIdentity(e).None? <==> NeverRepeats(e.kind)
  {
    hide Lower, SameIgnoringCase;
    LowerIff(older.subject, e.subject);
  }

  /** A push drops its entry exactly if an older one of the same step and kind is about the same
      setting: the only one of its kind, or one with the same subject up to case. */
  lemma PushDropsIff(entries: seq<BackupEntry>, e: BackupEntry)
    ensures Pushed(entries, e) ==
            if exists i | 0 <= i < |entries| :: Repeats(entries[i], e) then entries else entries + [e]
  {
    hide DedupeIdentity, Repeats, NeverRepeats;
    forall i | 0 <= i < |entries|
      ensures DedupeIdentity(e).Some? && DedupeIdentity(entries[i]) == DedupeIdentity(e) <==> Repeats(entries[i], e)
    {
      IdentityIff(entries[i], e);
    }
  }

  lemma PushKeeps(entries: seq<BackupEntry>, e: BackupEntry)
    ensures entries <= Pushed(entries, e)
    ensures exists kept :: kept in Pushed(entries, e) && (kept == e || Repeats(kept, e))
  {
    hide Repeats;
    PushDropsIff(entries, e);
    if i :| 0 <= i < |entries| && Repeats(entries[i], e) {
      assert entries[i] in Pushed(entries, e);
    } else {
      assert (entries + [e])[|entries|] == e;
      assert e in Pushed(entries, e);
    }
  }

  /** Storing a batch keeps every entry that was there, and each entry of the batch or an older
      one about the same setting. */
  lemma {:induction false} BatchIsKept(entries: seq<BackupEntry>, es: seq<BackupEntry>, k: nat)
    requires k < |es|
    ensures entries <= PushedAll(entries, es)
    ensures exists kept :: kept in PushedAll(entries, es) && (kept == es[k] || Repeats(kept, es[k]))
    decreases |es|
  {
    hide Repeats, Pushed;
    var n := |es| - 1;
    PushKeepsPrefix(entries, es);
    PushKeeps(PushedAll(entries, es[..n]), es[n]);
    if k < n {
      BatchIsKept(entries, es[..n], k);
      var kept :| kept in PushedAll(entries, es[..n]) && (kept == es[..n][k] || Repeats(kept, es[..n][k]));
      assert kept in PushedAll(entries, es);
    }
  }

  /** What a batch adds are entries of it, none about the same setting as an earlier one. */
  lemma {:induction false} BatchAddsNew(entries: seq<BackupEntry>, es: seq<BackupEntry>, j: nat)
    requires |entries| <= j < |PushedAll(entries, es)|
    ensures var stored := PushedAll(entries, es);
            stored[j] in es && forall i | 0 <= i < j :: !Repeats(stored[i], stored[j])
    decreases |es|
  {
    hide Repeats, Pushed;
    if es != [] {
      var n := |es| - 1;
      var before := PushedAll(entries, es[..n]);
      PushKeepsPrefix(entries, es[..n]);
      PushDropsIff(before, es[n]);
      if j < |before| { BatchAddsNew(entries, es[..n], j); }
    }
  }

  lemma {:induction false} PushKeepsPrefix(entries: seq<BackupEntry>, es: seq<BackupEntry>)
    ensures entries <= PushedAll(entries, es)
  {
    if es != [] { PushKeepsPrefix(entries, es[..|es| - 1]); }
  }

  class BackupFile {
    var entries: seq<BackupEntry>

    constructor (initial: seq<BackupEntry>)
      ensures entries == initial
    {
      entries := initial;
    }

    method PushFirstValue(e: BackupEntry)
      modifies this
      ensures entries == Pushed(old(entries), e)
      ensures entries == if exists i | 0 <= i < |old(entries)| :: Repeats(old(entries)[i], e) then old(entries)
                         else old(entries) + [e]
    {
      var found := false;
      for i := 0 to |entries|
        invariant entries == old(entries)
        invariant found <==> exists j | 0 <= j < i :: DedupeIdentity(entries[j]) == DedupeIdentity(e)
      {
        if DedupeIdentity(entries[i]) == DedupeIdentity(e) {
          found := true;
        }
      }
      if DedupeIdentity(e).None? || !found {
        entries := entries + [e];
      }
      PushDropsIff(old(entries), e);
    }

    method PushBatch(es: seq<BackupEntry>)
      modifies this
      ensures entries == PushedAll(old(entries), es)
    {
      for i := 0 to |es|
        invariant entries == PushedAll(old(entries), es[..i])
      {
        assert es[..i + 1][..i] == es[..i];
        PushFirstValue(es[i]);
      }
      assert es[..|es|] == es;
    }
  }

  /** Writing every entry back, last captured first. */
  function RestoreAll(entries: seq<BackupEntry>, now: Resources): Resources {
    if entries == [] then now
    else RestoreAll(entries[..|entries| - 1], now + entries[|entries| - 1].saved)
  }

  /** The value the oldest entry naming the resource holds. */
  function FirstSaved(entries: seq<BackupEntry>, r: Resource): Option<Value> {
    if entries == [] then None
    else if r in entries[0].saved then Some(entries[0].saved[r])
    else FirstSaved(entries[1..], r)
  }

  function Covered(entries: seq<BackupEntry>): set<Resource> {
    set e, r | e in entries && r in e.saved :: r
  }

  lemma {:induction false} FirstSavedSnoc(entries: seq<BackupEntry>, e: BackupEntry, r: Resource)
    ensures FirstSaved(entries + [e], r) ==
            if FirstSaved(entries, r).Some? then FirstSaved(entries, r)
            else if r in e.saved then Some(e.saved[r]) else None
  {
    if entries == [] {
      assert entries + [e] == [e];
    } else {
      assert (entries + [e])[1..] == entries[1..] + [e];
      FirstSavedSnoc(entries[1..], e, r);
    }
  }

  lemma {:induction false} FirstSavedIffCovered(entries: seq<BackupEntry>, r: Resource)
    ensures FirstSaved(entries, r).Some? <==> r in Covered(entries)
  {
    if entries != [] {
      assert entries == [entries[0]] + entries[1..];
      FirstSavedIffCovered(entries[1..], r);
    }
  }

  /** Restoring in reverse gives each resource its oldest saved value. */
  lemma {:induction false} RestoreAllIsFirstSaved(entries: seq<BackupEntry>, now: Resources, r: Resource)
    ensures RestoreAll(entries, now).Keys == now.Keys + Covered(entries)
    ensures FirstSaved(entries, r).Some? ==>
              r in RestoreAll(entries, now) && RestoreAll(entries, now)[r] == FirstSaved(entries, r).value
    ensures FirstSaved(entries, r).None? && r in now ==>
              r in RestoreAll(entries, now) && RestoreAll(entries, now)[r] == now[r]
  {
    if entries != [] {
      var n := |entries| - 1;
      assert entries == entries[..n] + [entries[n]];
      RestoreAllIsFirstSaved(entries[..n], now + entries[n].saved, r);
      FirstSavedSnoc(entries[..n], entries[n], r);
      assert Covered(entries) == Covered(entries[..n]) + entries[n].saved.Keys;
      FirstSavedIffCovered(entries[..n], r);
    }
  }

  /** Later writes to captured resources do not change what a restore produces. */
  lemma RestoreForgetsCovered(entries: seq<BackupEntry>, a: Resources, b: Resources)
    requires a.Keys + Covered(entries) == b.Keys + Covered(entries)
    requires forall r | r in a && r !in Covered(entries) :: r in b && a[r] == b[r]
    ensures RestoreAll(entries, a) == RestoreAll(entries, b)
  {
    var x, y := RestoreAll(entries, a), RestoreAll(entries, b);
    RestoreAllIsFirstSaved(entries, a, Resource(""));
    RestoreAllIsFirstSaved(entries, b, Resource(""));
    forall r | r in x ensures x[r] == y[r] {
      RestoreAllIsFirstSaved(entries, a, r);
      RestoreAllIsFirstSaved(entries, b, r);
      FirstSavedIffCovered(entries, r);
    }
  }

  /** Entries that hold current values restore to the present state, so pushing them loses nothing. */
  ghost predicate Current(e: BackupEntry, now: Resources) {
    forall r | r in e.saved :: r in now && now[r] == e.saved[r]
  }

  lemma {:induction false} PushKeepsRestore(entries: seq<BackupEntry>, es: seq<BackupEntry>, now: Resources)
    requires forall e | e in es :: Current(e, now)
    ensures RestoreAll(PushedAll(entries, es), now) == RestoreAll(entries, now)
  {
    if es != [] {
      var n := |es| - 1;
      PushKeepsRestore(entries, es[..n], now);
      var before := PushedAll(entries, es[..n]);
      assert (before + [es[n]])[..|before|] == before;
      assert Current(es[n], now);
      assert now + es[n].saved == now;
    }
  }

  /** Which settings an entry of a kind with a subject is about; the case of the subject, and the
      subject of a kind with one setting, do not matter. */
  type Settings = (Kind, string) -> set<Resource>

  ghost predicate CaseBlind(settings: Settings) {
    forall kind, a, b | SameSetting(kind, a, b) :: settings(kind, a) == settings(kind, b)
  }

  /** Each of these entries saves exactly the settings that its kind and subject name. */
  ghost predicate NamedBy(entries: seq<BackupEntry>, settings: Settings) {
    forall e | e in entries && !NeverRepeats(e.kind) :: e.saved.Keys == settings(e.kind, e.subject)
  }

  lemma PushOneCovers(entries: seq<BackupEntry>, e: BackupEntry, settings: Settings)
    requires CaseBlind(settings) && NamedBy(entries + [e], settings)
    ensures NamedBy(Pushed(entries, e), settings)
    ensures Covered(Pushed(entries, e)) == Covered(entries) + e.saved.Keys
  {
    hide Pushed, SameSetting, NeverRepeats;
    PushDropsIff(entries, e);
    if i :| 0 <= i < |entries| && Repeats(entries[i], e) {
      assert entries[i] in entries && (entries + [e])[i] in entries + [e] && (entries + [e])[|entries|] in entries + [e];
      assert entries[i].saved.Keys == e.saved.Keys;
    } else {
      CoveredSnoc(entries, e);
    }
  }

  lemma CoveredSnoc(entries: seq<BackupEntry>, e: BackupEntry)
    ensures Covered(entries + [e]) == Covered(entries) + e.saved.Keys
  {
  }

  /** After a push the whole batch is covered, by itself or by the older entries it repeats. */
  lemma {:induction false} PushCovers(entries: seq<BackupEntry>, es: seq<BackupEntry>, settings: Settings)
    requires CaseBlind(settings) && NamedBy(entries, settings) && NamedBy(es, settings)
    ensures NamedBy(PushedAll(entries, es), settings)
    ensures Covered(PushedAll(entries, es)) == Covered(entries) + Covered(es)
  {
    hide Pushed, CaseBlind, NeverRepeats, Covered;
    if es != [] {
      var n := |es| - 1;
      assert es == es[..n] + [es[n]];
      PushCovers(entries, es[..n], settings);
      PushOneCovers(PushedAll(entries, es[..n]), es[n], settings);
      CoveredSnoc(es[..n], es[n]);
    } else {
      assert Covered([]) == {} by { CoveredNone(); }
    }
  }

  lemma CoveredNone()
    ensures Covered([]) == {}
  {
  }
}
