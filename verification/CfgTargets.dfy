/** The closed set of CS2 CFG files. */
module CfgTargets {
  import opened Wrappers
  import opened Sequences

  datatype Asset =
    | NetStable | NetHighPing | NetUnstable | NetBad | DebugHud | DebugHudOff
    | AudioStable | AudioLowLatency025 | AudioLowLatency001
    | FrameBaseline400 | FrameRawUncapped
    | AudioEqCrisp | AudioEqSmooth | AudioLegacyLrIsolation | Competitive2026

  datatype Target = Optimization | AutoexecCfg | Optional(asset: Asset)

  const OPTIMIZATION_BACKUP := "optimization.cfg.bak"
  const AUTOEXEC_BACKUP := "autoexec.cfg.bak"

  /** The order in which a sorted set of assets is walked. */
  function Position(asset: Asset): nat {
    match asset
    case NetStable => 0
    case NetHighPing => 1
    case NetUnstable => 2
    case NetBad => 3
    case DebugHud => 4
    case DebugHudOff => 5
    case AudioStable => 6
    case AudioLowLatency025 => 7
    case AudioLowLatency001 => 8
    case FrameBaseline400 => 9
    case FrameRawUncapped => 10
    case AudioEqCrisp => 11
    case AudioEqSmooth => 12
    case AudioLegacyLrIsolation => 13
    case Competitive2026 => 14
  }

  function All(): (all: seq<Asset>)
    ensures |all| == 15
    ensures forall i | 0 <= i < 15 :: Position(all[i]) == i
  {
    [NetStable, NetHighPing, NetUnstable, NetBad, DebugHud, DebugHudOff,
     AudioStable, AudioLowLatency025, AudioLowLatency001,
     FrameBaseline400, FrameRawUncapped,
     AudioEqCrisp, AudioEqSmooth, AudioLegacyLrIsolation, Competitive2026]
  }

  lemma AllIsEverything(asset: Asset)
    ensures asset in All()
  {
    assert All()[Position(asset)] == asset;
  }

  function Chosen(assets: set<Asset>, among: seq<Asset>): (r: seq<Asset>)
    ensures forall a | a in r :: a in assets && a in among
    ensures forall a | a in among && a in assets :: a in r
  {
    if among == [] then []
    else (if among[0] in assets then [among[0]] else []) + Chosen(assets, among[1..])
  }

  /** The assets of a sorted set, in order. */
  function Sorted(assets: set<Asset>): seq<Asset> { Chosen(assets, All()) }

  function OptionalTargets(assets: seq<Asset>): (r: seq<Target>)
    ensures |r| == |assets| && forall i | 0 <= i < |r| :: r[i] == Optional(assets[i])
  {
    seq(|assets|, i requires 0 <= i < |assets| => Optional(assets[i]))
  }

  lemma {:induction false} ChosenIsDistinct(assets: set<Asset>, among: seq<Asset>)
    requires Distinct(among)
    ensures Distinct(Chosen(assets, among))
  {
    if among != [] {
      var rest := Chosen(assets, among[1..]);
      ChosenIsDistinct(assets, among[1..]);
      assert among[0] !in among[1..];
      if among[0] in assets {
        assert Chosen(assets, among) == [among[0]] + rest;
      } else {
        assert Chosen(assets, among) == rest;
      }
    }
  }

  ghost predicate InOrder(assets: seq<Asset>) {
    forall i, j | 0 <= i < j < |assets| :: Position(assets[i]) < Position(assets[j])
  }

  lemma {:induction false} ChosenIsInOrder(assets: set<Asset>, among: seq<Asset>)
    requires InOrder(among)
    ensures InOrder(Chosen(assets, among))
  {
    if among != [] {
      var rest, all := Chosen(assets, among[1..]), Chosen(assets, among);
      ChosenIsInOrder(assets, among[1..]);
      assert all == (if among[0] in assets then [among[0]] else []) + rest;
      forall i, j | 0 <= i < j < |all| ensures Position(all[i]) < Position(all[j]) {
        if among[0] in assets {
          assert all[j] == rest[j - 1] && rest[j - 1] in among[1..];
          if i > 0 { assert all[i] == rest[i - 1]; }
        } else {
          assert all == rest;
        }
      }
    }
  }

  /** Every asset of the set once, in the declared order. */
  lemma SortedIsTheSet(assets: set<Asset>)
    ensures Distinct(Sorted(assets)) && forall a: Asset :: a in Sorted(assets) <==> a in assets
    ensures InOrder(Sorted(assets))
  {
    hide All, Position;
    assert forall i, j | 0 <= i < j < 15 :: Position(All()[i]) != Position(All()[j]);
    ChosenIsDistinct(assets, All());
    assert InOrder(All());
    ChosenIsInOrder(assets, All());
    forall a: Asset ensures a in Sorted(assets) <==> a in assets {
      AllIsEverything(a);
    }
  }

  function AssetName(asset: Asset): string {
    match asset
    case NetStable => "net_stable.cfg"
    case NetHighPing => "net_highping.cfg"
    case NetUnstable => "net_unstable.cfg"
    case NetBad => "net_bad.cfg"
    case DebugHud => "debug_hud.cfg"
    case DebugHudOff => "debug_hud_off.cfg"
    case AudioStable => "audio_stable.cfg"
    case AudioLowLatency025 => "audio_lowlatency_025.cfg"
    case AudioLowLatency001 => "audio_lowlatency_001.cfg"
    case FrameBaseline400 => "frame_baseline_400.cfg"
    case FrameRawUncapped => "frame_raw_uncapped.cfg"
    case AudioEqCrisp => "audio_eq_crisp.cfg"
    case AudioEqSmooth => "audio_eq_smooth.cfg"
    case AudioLegacyLrIsolation => "audio_legacy_lr_isolation.cfg"
    case Competitive2026 => "competitive_2026.cfg"
  }

  function FileName(target: Target): string {
    match target
    case Optimization => "optimization.cfg"
    case AutoexecCfg => "autoexec.cfg"
    case Optional(asset) => AssetName(asset)
  }

  predicate IsSidecar(name: string) { name == OPTIMIZATION_BACKUP || name == AUTOEXEC_BACKUP }

  /** Length and a few characters tell every file of the closed set apart; None for the sidecars. */
  ghost function Recognized(name: string): Option<Target> {
    match |name|
    case 11 => Some(Optional(NetBad))
    case 12 => Some(AutoexecCfg)
    case 13 => Some(Optional(DebugHud))
    case 14 => Some(Optional(NetStable))
    case 16 =>
      if name[4] == 'm' then Some(Optimization)
      else if name[4] == 'h' then Some(Optional(NetHighPing))
      else if name[4] == 'u' then Some(Optional(NetUnstable))
      else if name[4] == 'o' then Some(Optional(AudioStable))
      else None
    case 17 => Some(Optional(DebugHudOff))
    case 18 => Some(Optional(AudioEqCrisp))
    case 19 => Some(Optional(AudioEqSmooth))
    case 20 => if name[0] == 'c' then Some(Optional(Competitive2026)) else None
    case 22 => if name[6] == 'b' then Some(Optional(FrameBaseline400)) else Some(Optional(FrameRawUncapped))
    case 24 => if name[18] == '2' then Some(Optional(AudioLowLatency025)) else Some(Optional(AudioLowLatency001))
    case 29 => Some(Optional(AudioLegacyLrIsolation))
    case _ => None
  }

  lemma AssetNameIsRecognized(asset: Asset)
    ensures Recognized(AssetName(asset)) == Some(Optional(asset))
  {
  }

  /** No two targets share a file, and no target is a sidecar. */
  lemma FileNamesDiffer(t: Target, u: Target)
    ensures t != u ==> FileName(t) != FileName(u)
    ensures !IsSidecar(FileName(t))
  {
    hide AssetName;
    assert Recognized(OPTIMIZATION_BACKUP) == None && Recognized(AUTOEXEC_BACKUP) == None;
    if t.Optional? { AssetNameIsRecognized(t.asset); }
    if u.Optional? { AssetNameIsRecognized(u.asset); }
    assert Recognized(FileName(t)) == Some(t) && Recognized(FileName(u)) == Some(u);
  }
}
