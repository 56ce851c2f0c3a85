/** What the walk and the topology mean. */
module SmbiosProofs {
  import opened Wrappers
  import opened Sequences
  import opened Smbios

  // The walk inverts the encoding of sections 6.1.2 and 6.1.3 of DMTF DSP0134

  datatype Encoded = Encoded(formatted: Bytes, strings: seq<Bytes>)

  ghost predicate IsText(t: Bytes) { t != [] && forall i | 0 <= i < |t| :: t[i] != 0 }

  ghost predicate WellFormed(e: Encoded) {
    && 4 <= |e.formatted| < 256
    && e.formatted[1] as nat == |e.formatted|
    && forall t | t in e.strings :: IsText(t)
  }

  function Terminated(strings: seq<Bytes>): Bytes {
    if strings == [] then [] else strings[0] + [0] + Terminated(strings[1..])
  }

  /** A structure without strings still ends in two NULs. */
  function StringSet(strings: seq<Bytes>): Bytes {
    if strings == [] then [0, 0] else Terminated(strings) + [0]
  }

  function Encode(e: Encoded): Bytes { e.formatted + StringSet(e.strings) }

  function EncodeAll(es: seq<Encoded>): Bytes {
    if es == [] then [] else Encode(es[0]) + EncodeAll(es[1..])
  }

  function Formatted(es: seq<Encoded>): (r: seq<Bytes>)
    ensures |r| == |es| && forall i | 0 <= i < |r| :: r[i] == es[i].formatted
  {
    seq(|es|, i requires 0 <= i < |es| => es[i].formatted)
  }

  lemma FirstDoubleNulIs(s: Bytes, i: nat)
    requires DoubleNulAt(s, i) && forall k | 0 <= k < i :: !DoubleNulAt(s, k)
    ensures FirstDoubleNul(s) == Some(i)
  {
    var r := FirstDoubleNul(s);
    assert r.None? ==> !DoubleNulAt(s, i);
  }

  /** Terminated strings hold no empty string, so no two NULs in a row. */
  lemma {:induction false} TerminatedHasNoDoubleNul(strings: seq<Bytes>)
    requires forall t | t in strings :: IsText(t)
    ensures forall k :: 0 <= k ==> !DoubleNulAt(Terminated(strings), k)
    ensures strings != [] ==> Terminated(strings) != [] && Terminated(strings)[0] != 0
    ensures strings != [] ==> Terminated(strings)[|Terminated(strings)| - 1] == 0
  {
    if strings != [] {
      var t := strings[0];
      var more := Terminated(strings[1..]);
      var all := Terminated(strings);
      TerminatedHasNoDoubleNul(strings[1..]);
      assert t in strings;
      assert all == t + ([0] + more);
      forall k | 0 <= k ensures !DoubleNulAt(all, k) {
        if k < |t| {
          assert all[k] == t[k];
        } else if k > |t| && k + 1 < |all| {
          assert all[k] == more[k - |t| - 1] && all[k + 1] == more[k - |t|];
          assert !DoubleNulAt(more, k - |t| - 1);
        }
      }
    }
  }

  /** A string set as the walk accepts it: the first two NULs in a row end it. */
  ghost predicate IsTail(t: Bytes) {
    |t| >= 2 && t[|t| - 2] == 0 && t[|t| - 1] == 0 && forall k | 0 <= k < |t| - 2 :: !(t[k] == 0 && t[k + 1] == 0)
  }

  lemma StringSetIsTail(strings: seq<Bytes>)
    requires forall t | t in strings :: IsText(t)
    ensures IsTail(StringSet(strings))
  {
    var body := Terminated(strings);
    var all := StringSet(strings);
    TerminatedHasNoDoubleNul(strings);
    forall k | 0 <= k < |all| - 2 ensures !(all[k] == 0 && all[k + 1] == 0) {
      assert all[k] == body[k] && all[k + 1] == body[k + 1];
      assert !DoubleNulAt(body, k);
    }
    assert strings != [] ==> all[|all| - 2] == body[|body| - 1];
  }

  ghost predicate IsFormatted(p: Bytes) { |p| >= 4 && p[1] as nat == |p| }

  lemma NextOf(piece: Bytes, tail: Bytes, rest: Bytes)
    requires IsFormatted(piece) && IsTail(tail)
    ensures Next(piece + tail + rest) == Ok(Step(piece, rest))
  {
    hide FirstDoubleNul;
    var s := piece + tail + rest;
    var strings := tail + rest;
    forall k | 0 <= k < |tail| - 2 ensures !DoubleNulAt(strings, k) {
      assert !(tail[k] == 0 && tail[k + 1] == 0);
    }
    FirstDoubleNulIs(strings, |tail| - 2);
    assert s[..|piece|] == piece && s[|piece|..] == strings;
    assert strings[|tail|..] == rest;
  }

  function Tiled(pieces: seq<Bytes>, tails: seq<Bytes>): Bytes
    requires |pieces| == |tails|
  {
    if pieces == [] then [] else pieces[0] + tails[0] + Tiled(pieces[1..], tails[1..])
  }

  ghost predicate Tiles(s: Bytes, pieces: seq<Bytes>, tails: seq<Bytes>) {
    && |pieces| == |tails|
    && (forall p | p in pieces :: IsFormatted(p))
    && (forall t | t in tails :: IsTail(t))
    && s == Tiled(pieces, tails)
  }

  lemma {:induction false} WalkOfTiles(pieces: seq<Bytes>, tails: seq<Bytes>)
    requires |pieces| == |tails| && Tiles(Tiled(pieces, tails), pieces, tails)
    ensures Walk(Tiled(pieces, tails)) == Ok(pieces)
  {
    if pieces != [] {
      hide Next;
      NextOf(pieces[0], tails[0], Tiled(pieces[1..], tails[1..]));
      assert pieces == [pieces[0]] + pieces[1..];
      WalkOfTiles(pieces[1..], tails[1..]);
    }
  }

  function StringSets(es: seq<Encoded>): (r: seq<Bytes>)
    ensures |r| == |es| && forall i | 0 <= i < |r| :: r[i] == StringSet(es[i].strings)
  {
    seq(|es|, i requires 0 <= i < |es| => StringSet(es[i].strings))
  }

  lemma {:induction false} EncodedIsTiled(es: seq<Encoded>)
    ensures EncodeAll(es) == Tiled(Formatted(es), StringSets(es))
  {
    if es != [] {
      EncodedIsTiled(es[1..]);
      assert Formatted(es)[1..] == Formatted(es[1..]) && StringSets(es)[1..] == StringSets(es[1..]);
    }
  }

  /** The walk over an encoded table yields exactly the formatted areas. */
  lemma WalkInvertsEncoding(es: seq<Encoded>)
    requires forall e | e in es :: WellFormed(e)
    ensures Walk(EncodeAll(es)) == Ok(Formatted(es))
  {
    hide StringSet, IsTail, Walk;
    var pieces, tails := Formatted(es), StringSets(es);
    forall t | t in tails ensures IsTail(t) {
      var i :| 0 <= i < |es| && tails[i] == t;
      assert WellFormed(es[i]);
      StringSetIsTail(es[i].strings);
    }
    forall p | p in pieces ensures IsFormatted(p) {
      var i :| 0 <= i < |es| && pieces[i] == p;
      assert WellFormed(es[i]);
    }
    EncodedIsTiled(es);
    WalkOfTiles(pieces, tails);
  }

  // On any bytes: the pieces and their string sets tile the table

  lemma NextTile(s: Bytes) returns (tail: Bytes)
    requires Next(s).Ok?
    ensures var step := Next(s).value;
            IsFormatted(step.formatted) && IsTail(tail) && s == step.formatted + tail + step.rest
  {
    var step := Next(s).value;
    var strings := s[|step.formatted|..];
    var i := FirstDoubleNul(strings).value;
    tail := strings[..i + 2];
    forall k | 0 <= k < i ensures !(tail[k] == 0 && tail[k + 1] == 0) {
      assert !DoubleNulAt(strings, k);
    }
    assert strings == tail + step.rest;
  }

  lemma {:induction false} Walked(s: Bytes) returns (tails: seq<Bytes>)
    requires Walk(s).Ok?
    ensures Tiles(s, Walk(s).value, tails)
    decreases |s|
  {
    if s == [] {
      tails := [];
    } else {
      hide Next, IsTail;
      var step := Next(s).value;
      var tail := NextTile(s);
      var more := Walked(step.rest);
      tails := [tail] + more;
      assert tails[1..] == more;
      assert Walk(s).value[1..] == Walk(step.rest).value;
    }
  }

  /** The walk succeeds exactly on the tables that its pieces and their string sets tile. */
  lemma WalkTilesIff(s: Bytes, pieces: seq<Structure>)
    ensures Walk(s) == Ok(pieces) <==> exists tails :: Tiles(s, pieces, tails)
  {
    hide Walk, Tiled;
    if Walk(s) == Ok(pieces) {
      var tails := Walked(s);
    }
    if tails :| Tiles(s, pieces, tails) {
      WalkOfTiles(pieces, tails);
    }
  }

  // Collecting, on the bytes of a structure: its handle in bytes 2 and 3, a device's size in bytes 12
  // and 13 and its extended size in 28 to 31, a channel's list from byte 6 on

  function Id(p: Structure): nat { p[2] as nat + 256 * p[3] as nat }

  function Size(p: Structure): nat
    requires |p| >= 14
  {
    p[12] as nat + 256 * p[13] as nat
  }

  /** The extended size stands in for the size 0x7FFF, and is not zero. */
  predicate SizeReadable(p: Structure) {
    |p| >= 14 && (Size(p) == 0x7FFF ==> |p| >= 32 && !(p[28] == 0 && p[29] == 0 && p[30] == 0 && p[31] == 0))
  }

  /** An installed module: the size is neither zero, an empty slot, nor 0xFFFF, unknown. */
  predicate HasModule(p: Structure) { SizeReadable(p) && Size(p) != 0 && Size(p) != 0xFFFF }

  predicate ListReadable(p: Structure) { |p| >= 7 && |p| >= 7 + 3 * p[6] as nat }

  /** The listed device handles, three bytes for each, the first of them its load. */
  function Listing(p: Structure): seq<nat>
    requires ListReadable(p)
  {
    seq(p[6] as nat, i requires 0 <= i < p[6] as nat => p[8 + 3 * i] as nat + 256 * p[9 + 3 * i] as nat)
  }

  function ChannelIn(p: Structure): Channel
    requires ListReadable(p)
  {
    Channel(Id(p), Listing(p))
  }

  lemma BytesAre(p: Structure)
    ensures Kind(p) == p[0] as nat && Handle(p) == Id(p)
    ensures Populated(p).Ok? <==> SizeReadable(p)
    ensures Populated(p) == Ok(true) <==> HasModule(p)
    ensures ParsedChannel(p).Ok? <==> ListReadable(p)
    ensures ParsedChannel(p).Ok? ==> ParsedChannel(p).value == ChannelIn(p)
  {
    if ListReadable(p) {
      assert ListedDevices(p) == Listing(p);
    }
  }

  function Select(pieces: seq<Structure>, kind: nat): seq<Structure> {
    if pieces == [] then []
    else (if pieces[0][0] as nat == kind then [pieces[0]] else []) + Select(pieces[1..], kind)
  }

  predicate IsSelected(p: Structure) { p[0] == 17 || p[0] == 37 }

  function Selected(pieces: seq<Structure>): seq<Structure> {
    if pieces == [] then []
    else (if IsSelected(pieces[0]) then [pieces[0]] else []) + Selected(pieces[1..])
  }

  predicate Readable(p: Structure) {
    && (p[0] == 17 ==> SizeReadable(p))
    && (p[0] == 37 ==> ListReadable(p))
  }

  ghost predicate DistinctHandles(ps: seq<Structure>) {
    forall i, j | 0 <= i < j < |ps| :: Id(ps[i]) != Id(ps[j])
  }

  /** No two devices or channels share a handle, and each can be read. */
  ghost predicate GoodPieces(pieces: seq<Structure>) {
    DistinctHandles(Selected(pieces)) && forall p | p in Selected(pieces) :: Readable(p)
  }

  function DeviceMap(devices: seq<Structure>): map<nat, bool> {
    if devices == [] then map[]
    else map[Id(devices[0]) := HasModule(devices[0])] + DeviceMap(devices[1..])
  }

  function ChannelsOf(channels: seq<Structure>): seq<Channel> {
    if channels == [] then []
    else
      (if ListReadable(channels[0]) then [ChannelIn(channels[0])] else []) + ChannelsOf(channels[1..])
  }

  function AddAll(found: Found, pieces: seq<Structure>): Result<Found, SmbiosError>
    decreases |pieces|
  {
    if pieces == [] then Ok(found)
    else
      match Add(found, pieces[0])
      case Err(e) => Err(e)
      case Ok(more) => AddAll(more, pieces[1..])
  }

  /** Reading while walking is reading what was walked. */
  lemma {:induction false} ScanIsWalk(s: Bytes, found: Found)
    ensures Scan(s, found).Ok? ==> Walk(s).Ok?
    ensures Walk(s).Ok? ==> Scan(s, found) == AddAll(found, Walk(s).value)
    decreases |s|
  {
    hide Next, Add;
    if s != [] && Next(s).Ok? {
      var step := Next(s).value;
      if Add(found, step.formatted).Ok? {
        ScanIsWalk(step.rest, Add(found, step.formatted).value);
      }
      if Walk(s).Ok? {
        assert Walk(s).value[1..] == Walk(step.rest).value;
      }
    }
  }

  ghost predicate GoodAfter(seen: set<nat>, ps: seq<Structure>)
    decreases |ps|
  {
    ps == [] || (Id(ps[0]) !in seen && Readable(ps[0]) && GoodAfter(seen + {Id(ps[0])}, ps[1..]))
  }

  lemma {:induction false} GoodAfterIff(seen: set<nat>, ps: seq<Structure>)
    ensures GoodAfter(seen, ps) <==> DistinctHandles(ps) && forall p | p in ps :: Readable(p) && Id(p) !in seen
    decreases |ps|
  {
    hide Id, Readable;
    if ps != [] {
      GoodAfterIff(seen + {Id(ps[0])}, ps[1..]);
      assert forall p | p in ps[1..] :: p in ps;
      assert forall p | p in ps :: p == ps[0] || p in ps[1..];
      if GoodAfter(seen, ps) {
        forall i, j | 0 <= i < j < |ps| ensures Id(ps[i]) != Id(ps[j]) {
          assert ps[j] in ps[1..];
          if i > 0 { assert ps[i] == ps[1..][i - 1] && ps[j] == ps[1..][j - 1]; }
        }
      } else if DistinctHandles(ps) {
        forall i, j | 0 <= i < j < |ps[1..]| ensures Id(ps[1..][i]) != Id(ps[1..][j]) {
          assert Id(ps[i + 1]) != Id(ps[j + 1]);
        }
        forall p | p in ps[1..] ensures Id(p) != Id(ps[0]) {
          var i :| 0 <= i < |ps[1..]| && ps[1..][i] == p;
          assert ps[i + 1] == p;
        }
      }
    }
  }

  function DeviceEntry(p: Structure): map<nat, bool> {
    if p[0] == 17 then map[Id(p) := HasModule(p)] else map[]
  }

  function ChannelEntry(p: Structure): seq<Channel> {
    if p[0] == 37 && ListReadable(p) then [ChannelIn(p)] else []
  }

  lemma AddFinds(found: Found, p: Structure)
    requires found.devices.Keys <= found.seen
    ensures Add(found, p).Ok? <==> !IsSelected(p) || (Id(p) !in found.seen && Readable(p))
    ensures Add(found, p).Ok? ==>
              && Add(found, p).value.devices == found.devices + DeviceEntry(p)
              && Add(found, p).value.channels == found.channels + ChannelEntry(p)
              && Add(found, p).value.seen == found.seen + (if IsSelected(p) then {Id(p)} else {})
  {
    hide Id, HasModule, SizeReadable, ListReadable, Listing, ChannelIn, Handle, Populated, ParsedChannel, Kind;
    BytesAre(p);
    assert found.channels + [] == found.channels;
    assert found.seen + {} == found.seen;
  }

  lemma SelectStep(p: Structure, rest: seq<Structure>)
    ensures Selected([p] + rest) == (if IsSelected(p) then [p] else []) + Selected(rest)
    ensures DeviceMap(Select([p] + rest, 17)) == DeviceEntry(p) + DeviceMap(Select(rest, 17))
    ensures ChannelsOf(Select([p] + rest, 37)) == ChannelEntry(p) + ChannelsOf(Select(rest, 37))
  {
    hide Id, HasModule, SizeReadable, ListReadable, Listing;
    assert ([p] + rest)[1..] == rest;
    var devices, channels := Select(rest, 17), Select(rest, 37);
    assert ([p] + devices)[1..] == devices && [] + devices == devices;
    assert ([p] + channels)[1..] == channels && [] + channels == channels;
    assert DeviceMap([p] + devices) == map[Id(p) := HasModule(p)] + DeviceMap(devices);
    assert ChannelsOf([p] + channels)
        == (if ListReadable(p) then [ChannelIn(p)] else []) + ChannelsOf(channels);
  }

  lemma {:induction false} AddAllSucceedsIff(found: Found, pieces: seq<Structure>)
    requires found.devices.Keys <= found.seen
    ensures AddAll(found, pieces).Ok? <==> GoodAfter(found.seen, Selected(pieces))
    decreases |pieces|
  {
    hide Add, Id, Readable, DeviceEntry, ChannelEntry;
    if pieces != [] {
      var p := pieces[0];
      assert pieces == [p] + pieces[1..];
      AddFinds(found, p);
      SelectStep(p, pieces[1..]);
      assert ([p] + Selected(pieces[1..]))[1..] == Selected(pieces[1..]);
      assert [] + Selected(pieces[1..]) == Selected(pieces[1..]);
      assert found.seen + {} == found.seen;
      if Add(found, p).Ok? {
        assert DeviceEntry(p).Keys <= Add(found, p).value.seen by { EntryKey(p); }
        AddAllSucceedsIff(Add(found, p).value, pieces[1..]);
      }
    }
  }

  lemma EntryKey(p: Structure)
    ensures DeviceEntry(p).Keys <= if IsSelected(p) then {Id(p)} else {}
  {
  }

  /** What reading the pieces finds. */
  lemma {:induction false} AddAllFinds(found: Found, pieces: seq<Structure>)
    requires found.devices.Keys <= found.seen && AddAll(found, pieces).Ok?
    ensures AddAll(found, pieces).value.channels == found.channels + ChannelsOf(Select(pieces, 37))
    ensures AddAll(found, pieces).value.devices == found.devices + DeviceMap(Select(pieces, 17))
    decreases |pieces|
  {
    hide Add, Id, Readable, DeviceEntry, ChannelEntry, Select, DeviceMap, ChannelsOf;
    if pieces == [] {
      NothingSelected();
      assert found.channels + [] == found.channels;
    } else {
      var p, rest := pieces[0], pieces[1..];
      assert pieces == [p] + rest;
      AddFinds(found, p);
      EntryKey(p);
      SelectStep(p, rest);
      AddAllFinds(Add(found, p).value, rest);
      var devices, channels := DeviceMap(Select(rest, 17)), ChannelsOf(Select(rest, 37));
      assert found.channels + ChannelEntry(p) + channels == found.channels + (ChannelEntry(p) + channels);
      assert found.devices + DeviceEntry(p) + devices == found.devices + (DeviceEntry(p) + devices);
    }
  }

  lemma NothingSelected()
    ensures DeviceMap(Select([], 17)) == map[] && ChannelsOf(Select([], 37)) == []
  {
  }

  /** Every key of the map is the handle of a device. */
  lemma {:induction false} DeviceOf(devices: seq<Structure>, h: nat) returns (p: Structure)
    requires h in DeviceMap(devices)
    ensures p in devices && Id(p) == h
  {
    hide Id, HasModule, SizeReadable;
    if h in DeviceMap(devices[1..]) {
      p := DeviceOf(devices[1..], h);
    } else {
      p := devices[0];
    }
  }

  /** Each device is in the map with its own size. */
  lemma {:induction false} DeviceEntryIs(devices: seq<Structure>, i: nat)
    requires DistinctHandles(devices) && i < |devices|
    ensures Id(devices[i]) in DeviceMap(devices)
    ensures DeviceMap(devices)[Id(devices[i])] <==> HasModule(devices[i])
  {
    hide Id, HasModule, SizeReadable;
    var rest := devices[1..];
    if i > 0 {
      assert forall j, k | 0 <= j < k < |rest| :: rest[j] == devices[j + 1] && rest[k] == devices[k + 1];
      DeviceEntryIs(rest, i - 1);
    } else {
      forall j | 0 <= j < |rest| ensures Id(rest[j]) != Id(devices[0]) {
        assert rest[j] == devices[j + 1];
      }
      assert Id(devices[0]) !in DeviceMap(rest) by {
        if Id(devices[0]) in DeviceMap(rest) {
          var q := DeviceOf(rest, Id(devices[0]));
        }
      }
    }
  }

  /** Nothing but the devices is in the map. */
  lemma DeviceMapHolds(devices: seq<Structure>)
    requires DistinctHandles(devices)
    ensures forall p | p in devices ::
              Id(p) in DeviceMap(devices) && (DeviceMap(devices)[Id(p)] <==> HasModule(p))
    ensures forall h | h in DeviceMap(devices) :: exists p | p in devices :: Id(p) == h
  {
    hide Id, HasModule, SizeReadable, DeviceMap;
    forall p | p in devices
      ensures Id(p) in DeviceMap(devices) && (DeviceMap(devices)[Id(p)] <==> HasModule(p))
    {
      var i :| 0 <= i < |devices| && devices[i] == p;
      DeviceEntryIs(devices, i);
    }
    forall h | h in DeviceMap(devices) ensures exists p | p in devices :: Id(p) == h {
      var p := DeviceOf(devices, h);
    }
  }

  lemma SameDevicesSameMap(a: seq<Structure>, b: seq<Structure>)
    requires DistinctHandles(a) && DistinctHandles(b)
    requires forall p: Structure :: p in a <==> p in b
    ensures DeviceMap(a) == DeviceMap(b)
  {
    hide Id, HasModule, SizeReadable, DeviceMap;
    DeviceMapHolds(a);
    DeviceMapHolds(b);
    forall h: nat ensures h in DeviceMap(a) <==> h in DeviceMap(b)
                  ensures h in DeviceMap(a) && h in DeviceMap(b) ==> DeviceMap(a)[h] == DeviceMap(b)[h] {
      if h in DeviceMap(a) {
        var p :| p in a && Id(p) == h;
      }
    }
  }

  // Resolving

  function Populations(listed: seq<nat>, devices: map<nat, bool>): seq<nat> {
    if listed == [] then []
    else
      (if listed[0] in devices && devices[listed[0]] then [listed[0]] else []) + Populations(listed[1..], devices)
  }

  function Elements(s: seq<nat>): set<nat> { set h | h in s }

  lemma {:induction false} ResolveDevicesIs(listed: seq<nat>, devices: map<nat, bool>, m: Members)
    ensures ResolveDevices(listed, devices, m).Ok?
       <==> Distinct(listed) && forall h | h in listed :: h in devices && h !in m.all
    ensures var r := ResolveDevices(listed, devices, m);
            r.Ok? ==> r.value == Members(m.populated + Populations(listed, devices), m.all + Elements(listed))
  {
    if listed == [] {
      assert m.populated + [] == m.populated && m.all + Elements([]) == m.all;
    } else {
      var h, rest := listed[0], listed[1..];
      assert listed == [h] + rest;
      assert Distinct(listed) <==> Distinct(rest) && h !in rest by { DistinctCons(h, rest); }
      if h in devices && h !in m.all {
        var entry := if devices[h] then [h] else [];
        var next := Members(m.populated + entry, m.all + {h});
        ResolveDevicesIs(rest, devices, next);
        assert next.populated + Populations(rest, devices) == m.populated + (entry + Populations(rest, devices));
        assert next.all + Elements(rest) == m.all + Elements(listed);
      }
    }
  }

  /** Every device handle that the channels list. */
  function Listed(channels: seq<Channel>): seq<nat> {
    if channels == [] then [] else channels[0].devices + Listed(channels[1..])
  }

  /** The channels that keep a populated device, in order, with those devices in order. */
  function PopulatedChannels(channels: seq<Channel>, devices: map<nat, bool>): seq<Channel> {
    if channels == [] then []
    else
      WithDevices(channels[0].handle, Populations(channels[0].devices, devices)) + PopulatedChannels(channels[1..], devices)
  }

  function WithDevices(handle: nat, listed: seq<nat>): seq<Channel> {
    if listed == [] then [] else [Channel(handle, listed)]
  }

  lemma {:induction false} ResolveChannelsIs(channels: seq<Channel>, devices: map<nat, bool>, r: Resolved)
    ensures ResolveChannels(channels, devices, r).Ok?
       <==> Distinct(Listed(channels)) && forall h | h in Listed(channels) :: h in devices && h !in r.all
    ensures var after := ResolveChannels(channels, devices, r);
            after.Ok? ==>
              && after.value.channels == r.channels + PopulatedChannels(channels, devices)
              && after.value.all == r.all + Elements(Listed(channels))
  {
    hide ResolveDevices, Populations;
    if channels == [] {
      assert r.channels + [] == r.channels && r.all + Elements([]) == r.all;
    } else {
      var first, rest := channels[0].devices, channels[1..];
      ResolveDevicesIs(first, devices, Members([], r.all));
      DistinctAppend(first, Listed(rest));
      if ResolveDevices(first, devices, Members([], r.all)).Ok? {
        var kept := WithDevices(channels[0].handle, Populations(first, devices));
        assert [] + Populations(first, devices) == Populations(first, devices);
        var next := Resolved(r.channels + kept, r.all + Elements(first));
        ResolveChannelsIs(rest, devices, next);
        assert next.channels + PopulatedChannels(rest, devices)
            == r.channels + (kept + PopulatedChannels(rest, devices));
        assert next.all + Elements(Listed(rest)) == r.all + Elements(Listed(channels));
      }
    }
  }

  // The topology

  function TopologyOf(pieces: seq<Structure>): Result<Option<Topology>, SmbiosError> {
    match AddAll(NOTHING, pieces)
    case Err(e) => Err(e)
    case Ok(found) => Resolve(found)
  }

  lemma ParsedIsTopologyOf(raw: Bytes)
    ensures Table(raw).Err? ==> ParsedTopology(raw).Err?
    ensures Table(raw).Ok? ==>
              if Walk(Table(raw).value).Ok? then ParsedTopology(raw) == TopologyOf(Walk(Table(raw).value).value)
              else ParsedTopology(raw).Err?
  {
    if Table(raw).Ok? {
      ScanIsWalk(Table(raw).value, NOTHING);
    }
  }

  function DevicesOf(pieces: seq<Structure>): map<nat, bool> { DeviceMap(Select(pieces, 17)) }

  function AllChannels(pieces: seq<Structure>): seq<Channel> { ChannelsOf(Select(pieces, 37)) }

  ghost predicate MembershipGood(pieces: seq<Structure>) {
    && Distinct(Listed(AllChannels(pieces)))
    && forall h | h in Listed(AllChannels(pieces)) :: h in DevicesOf(pieces)
  }

  ghost predicate EveryPopulatedIsListed(pieces: seq<Structure>) {
    forall h | h in DevicesOf(pieces) && DevicesOf(pieces)[h] :: h in Listed(AllChannels(pieces))
  }

  /** When the firmware tables give a usable topology. */
  ghost predicate Usable(pieces: seq<Structure>) {
    && GoodPieces(pieces)
    && 0 < |AllChannels(pieces)| < 0x10000
    && MembershipGood(pieces)
    && EveryPopulatedIsListed(pieces)
    && PopulatedChannels(AllChannels(pieces), DevicesOf(pieces)) != []
  }

  function Described(pieces: seq<Structure>): Topology {
    Topology(|AllChannels(pieces)|, PopulatedChannels(AllChannels(pieces), DevicesOf(pieces)))
  }

  lemma FoundIs(pieces: seq<Structure>)
    ensures AddAll(NOTHING, pieces).Ok? <==> GoodPieces(pieces)
    ensures AddAll(NOTHING, pieces).Ok? ==>
              && AddAll(NOTHING, pieces).value.devices == DevicesOf(pieces)
              && AddAll(NOTHING, pieces).value.channels == AllChannels(pieces)
  {
    AddAllSucceedsIff(NOTHING, pieces);
    GoodAfterIff({}, Selected(pieces));
    if AddAll(NOTHING, pieces).Ok? {
      AddAllFinds(NOTHING, pieces);
      assert [] + AllChannels(pieces) == AllChannels(pieces);
      assert map[] + DevicesOf(pieces) == DevicesOf(pieces);
    }
  }

  /** The tables are usable exactly under these conditions, and then the topology is the described one;
      without an error they are exactly when they hold no channel, or few enough with good membership. */
  lemma UsableIff(pieces: seq<Structure>, t: Topology)
    ensures TopologyOf(pieces) == Ok(Some(t)) <==> Usable(pieces) && t == Described(pieces)
    ensures TopologyOf(pieces).Ok? <==>
              && GoodPieces(pieces)
              && (AllChannels(pieces) == [] || (|AllChannels(pieces)| < 0x10000 && MembershipGood(pieces)))
  {
    hide AddAll, DevicesOf, AllChannels, ResolveChannels, GoodPieces, PopulatedChannels;
    FoundIs(pieces);
    var channels, devices := AllChannels(pieces), DevicesOf(pieces);
    ResolveChannelsIs(channels, devices, Resolved([], {}));
    assert [] + PopulatedChannels(channels, devices) == PopulatedChannels(channels, devices);
    assert {} + Elements(Listed(channels)) == Elements(Listed(channels));
  }

  /** An eight-byte header whose bytes 4 to 7 hold the length of the table after it. */
  predicate Framed(raw: Bytes) {
    && |raw| >= 8
    && raw[4] as nat + 256 * raw[5] as nat + 65536 * raw[6] as nat + 16777216 * raw[7] as nat == |raw| - 8
  }

  lemma TableIs(raw: Bytes)
    ensures Table(raw).Ok? <==> Framed(raw)
    ensures Table(raw).Ok? ==> Table(raw).value == raw[8..]
  {
  }

  /** The whole parser: a well-framed buffer, a table that structures and their string sets tile,
      and usable structures. */
  lemma ParsedTopologyIff(raw: Bytes, t: Topology)
    ensures ParsedTopology(raw) == Ok(Some(t))
       <==> && Framed(raw)
            && exists pieces: seq<Structure>, tails ::
                 Tiles(raw[8..], pieces, tails) && Usable(pieces) && t == Described(pieces)
  {
    hide Usable, Described, TopologyOf, ParsedTopology, Table, Walk, Tiles;
    ParsedIsTopologyOf(raw);
    TableIs(raw);
    if ParsedTopology(raw) == Ok(Some(t)) {
      var pieces := Walk(raw[8..]).value;
      UsableIff(pieces, t);
      WalkTilesIff(raw[8..], pieces);
    }
    if Framed(raw) {
      if pieces: seq<Structure>, tails :| Tiles(raw[8..], pieces, tails) && Usable(pieces) && t == Described(pieces) {
        WalkTilesIff(raw[8..], pieces);
        UsableIff(pieces, t);
      }
    }
  }

  ghost predicate IsPopulatedDevice(pieces: seq<Structure>, h: nat) {
    exists p | p in Select(pieces, 17) :: Id(p) == h && HasModule(p)
  }

  lemma {:induction false} PopulationsAppend(a: seq<nat>, b: seq<nat>, devices: map<nat, bool>)
    ensures Populations(a + b, devices) == Populations(a, devices) + Populations(b, devices)
  {
    if a == [] {
      assert a + b == b;
    } else {
      assert (a + b)[1..] == a[1..] + b;
      PopulationsAppend(a[1..], b, devices);
    }
  }

  lemma {:induction false} PopulationsIs(listed: seq<nat>, devices: map<nat, bool>)
    ensures forall h: nat :: h in Populations(listed, devices) <==> h in listed && h in devices && devices[h]
    ensures Distinct(listed) ==> Distinct(Populations(listed, devices))
  {
    if listed != [] {
      var h, rest := listed[0], listed[1..];
      assert listed == [h] + rest;
      PopulationsIs(rest, devices);
      DistinctCons(h, rest);
      DistinctCons(h, Populations(rest, devices));
      assert [] + Populations(rest, devices) == Populations(rest, devices);
    }
  }

  lemma {:induction false} ListedPopulated(channels: seq<Channel>, devices: map<nat, bool>)
    ensures Listed(PopulatedChannels(channels, devices)) == Populations(Listed(channels), devices)
  {
    if channels != [] {
      hide Populations;
      var c, rest := channels[0], channels[1..];
      ListedPopulated(rest, devices);
      PopulationsAppend(c.devices, Listed(rest), devices);
      ListedKept(c.handle, Populations(c.devices, devices), PopulatedChannels(rest, devices));
    } else {
      assert Populations([], devices) == [];
    }
  }

  lemma ListedKept(handle: nat, populated: seq<nat>, more: seq<Channel>)
    ensures Listed(WithDevices(handle, populated) + more) == populated + Listed(more)
  {
    var all := WithDevices(handle, populated) + more;
    if populated == [] {
      assert all == more;
    } else {
      assert all[1..] == more;
    }
  }

  ghost predicate IsKeptFrom(c: Channel, d: Channel, devices: map<nat, bool>) {
    c.devices != [] && c.handle == d.handle && c.devices == Populations(d.devices, devices)
  }

  lemma {:induction false} KeptFromChannels(channels: seq<Channel>, devices: map<nat, bool>, c: Channel) returns (d: Channel)
    requires c in PopulatedChannels(channels, devices)
    ensures d in channels && IsKeptFrom(c, d, devices)
  {
    hide Populations;
    if c in WithDevices(channels[0].handle, Populations(channels[0].devices, devices)) {
      d := channels[0];
    } else {
      d := KeptFromChannels(channels[1..], devices, c);
    }
  }

  lemma {:induction false} ReadableChannels(ps: seq<Structure>)
    requires forall p | p in ps :: ListReadable(p)
    ensures |ChannelsOf(ps)| == |ps|
    ensures forall c | c in ChannelsOf(ps) :: exists p | p in ps :: ListReadable(p) && ChannelIn(p) == c
  {
    if ps != [] {
      hide ListReadable, Listing;
      assert ps == [ps[0]] + ps[1..];
      ReadableChannels(ps[1..]);
    }
  }

  lemma {:induction false} SelectedAre(pieces: seq<Structure>)
    ensures multiset(Selected(pieces)) == multiset(Select(pieces, 17)) + multiset(Select(pieces, 37))
    ensures forall p: Structure | p in Select(pieces, 17) :: p[0] as nat == 17
    ensures forall p: Structure | p in Select(pieces, 37) :: p[0] as nat == 37
  {
    if pieces != [] {
      SelectedAre(pieces[1..]);
    }
  }

  lemma SelectedElements(pieces: seq<Structure>, p: Structure)
    ensures p in Selected(pieces) <==> p in Select(pieces, 17) || p in Select(pieces, 37)
  {
    SelectedAre(pieces);
    assert p in Selected(pieces) <==> p in multiset(Selected(pieces));
    assert p in Select(pieces, 17) <==> p in multiset(Select(pieces, 17));
    assert p in Select(pieces, 37) <==> p in multiset(Select(pieces, 37));
  }

  lemma TwiceCounted(s: seq<Structure>, i: nat, j: nat)
    requires i < j < |s| && s[i] == s[j]
    ensures multiset(s)[s[i]] >= 2
  {
    assert s == s[..j] + [s[j]] + s[j + 1..];
    assert s[i] in s[..j];
  }

  /** A part of structures with distinct handles has distinct handles. */
  lemma DistinctPart(whole: seq<Structure>, part: seq<Structure>)
    requires DistinctHandles(whole) && multiset(part) <= multiset(whole)
    ensures DistinctHandles(part)
  {
    hide Id;
    forall i, j | 0 <= i < j < |part| ensures Id(part[i]) != Id(part[j]) {
      assert part[i] in multiset(part) && part[j] in multiset(part);
      assert part[i] in whole && part[j] in whole;
      var k :| 0 <= k < |whole| && whole[k] == part[i];
      var l :| 0 <= l < |whole| && whole[l] == part[j];
      if part[i] == part[j] {
        TwiceCounted(part, i, j);
        assert Distinct(whole);
        CountDistinct(whole, part[i]);
      } else {
        assert k < l ==> Id(whole[k]) != Id(whole[l]);
        assert l < k ==> Id(whole[l]) != Id(whole[k]);
      }
    }
  }

  lemma GoodParts(pieces: seq<Structure>)
    requires GoodPieces(pieces)
    ensures DistinctHandles(Select(pieces, 17))
    ensures forall p | p in Select(pieces, 17) :: SizeReadable(p)
    ensures forall p | p in Select(pieces, 37) :: ListReadable(p)
  {
    hide HasModule, SizeReadable, ListReadable, Listing, Id, DistinctHandles;
    SelectedAre(pieces);
    DistinctPart(Selected(pieces), Select(pieces, 17));
    forall p | p in Select(pieces, 17) ensures SizeReadable(p) {
      SelectedElements(pieces, p);
      assert Readable(p);
    }
    forall p | p in Select(pieces, 37) ensures ListReadable(p) {
      SelectedElements(pieces, p);
      assert Readable(p);
    }
  }

  /** A usable topology counts every Type 37 structure; its lists are nonempty,
      never name a device twice, and together name exactly the populated
      Type 17 devices; each list is what one Type 37 structure lists, in order,
      without the empty slots. */
  lemma {:induction false} TopologyIsExact(pieces: seq<Structure>)
    requires Usable(pieces)
    ensures var t := Described(pieces);
            && t.count == |Select(pieces, 37)|
            && Distinct(Listed(t.populated))
            && (forall h: nat :: h in Listed(t.populated) <==> IsPopulatedDevice(pieces, h))
            && (forall c | c in t.populated ::
                  c.devices != []
                  && exists p | p in Select(pieces, 37) ::
                       ListReadable(p) && IsKeptFrom(c, ChannelIn(p), DevicesOf(pieces)))
  {
    hide Id, HasModule, SizeReadable, ListReadable, Listing, GoodPieces, PopulatedChannels, Select, Populations;
    var devices, channels := DevicesOf(pieces), AllChannels(pieces);
    var t := Described(pieces);
    GoodParts(pieces);
    ReadableChannels(Select(pieces, 37));
    ListedPopulated(channels, devices);
    PopulationsIs(Listed(channels), devices);
    DeviceMapHolds(Select(pieces, 17));
    forall h: nat ensures h in Listed(t.populated) <==> IsPopulatedDevice(pieces, h) {
      PopulatedInMap(pieces, h);
    }
    forall c | c in t.populated
      ensures c.devices != []
      ensures exists p | p in Select(pieces, 37) ::
                ListReadable(p) && IsKeptFrom(c, ChannelIn(p), devices)
    {
      var d := KeptFromChannels(channels, devices, c);
      var p :| p in Select(pieces, 37) && ListReadable(p) && ChannelIn(p) == d;
    }
  }

  lemma PopulatedInMap(pieces: seq<Structure>, h: nat)
    requires GoodPieces(pieces)
    ensures IsPopulatedDevice(pieces, h) <==> h in DevicesOf(pieces) && DevicesOf(pieces)[h]
  {
    hide Id, HasModule, SizeReadable, GoodPieces, Select;
    GoodParts(pieces);
    DeviceMapHolds(Select(pieces, 17));
    if h in DevicesOf(pieces) {
      var p :| p in Select(pieces, 17) && Id(p) == h;
    }
  }

  /** Moving Type 17 structures among the others, or changing structures of
      other types, never changes the result. */
  lemma {:induction false} DeviceOrderIsIrrelevant(a: seq<Structure>, b: seq<Structure>)
    requires Select(a, 37) == Select(b, 37) && multiset(Select(a, 17)) == multiset(Select(b, 17))
    ensures TopologyOf(a).Ok? <==> TopologyOf(b).Ok?
    ensures TopologyOf(a).Ok? ==> TopologyOf(a) == TopologyOf(b)
  {
    hide AddAll, Resolve, Select, Selected, GoodPieces, DevicesOf;
    FoundIs(a);
    FoundIs(b);
    if GoodPieces(a) { SameDevices(a, b); }
    if GoodPieces(b) { SameDevices(b, a); }
    ResolveIgnoresSeen(a, b);
  }

  lemma ResolveIgnoresSeen(a: seq<Structure>, b: seq<Structure>)
    requires AddAll(NOTHING, a).Ok? && AddAll(NOTHING, b).Ok? ==>
               && AddAll(NOTHING, a).value.devices == AddAll(NOTHING, b).value.devices
               && AddAll(NOTHING, a).value.channels == AddAll(NOTHING, b).value.channels
    requires AddAll(NOTHING, a).Ok? <==> AddAll(NOTHING, b).Ok?
    ensures TopologyOf(a).Ok? <==> TopologyOf(b).Ok?
    ensures TopologyOf(a).Ok? ==> TopologyOf(a) == TopologyOf(b)
  {
    hide AddAll, ResolveChannels, AllMapped;
  }

  lemma {:induction false} SameDevices(a: seq<Structure>, b: seq<Structure>)
    requires GoodPieces(a)
    requires Select(a, 37) == Select(b, 37) && multiset(Select(a, 17)) == multiset(Select(b, 17))
    ensures GoodPieces(b) && DevicesOf(a) == DevicesOf(b)
  {
    hide Id, Readable, Select, Selected, DistinctHandles, DeviceMap;
    SelectedAre(a);
    SelectedAre(b);
    DistinctPart(Selected(a), Selected(b));
    forall p | p in Selected(b) ensures Readable(p) {
      SelectedElements(a, p);
      SelectedElements(b, p);
      assert p in Select(a, 17) <==> p in multiset(Select(a, 17));
      assert p in Select(b, 17) <==> p in multiset(Select(b, 17));
    }
    GoodParts(a);
    GoodParts(b);
    forall p: Structure ensures p in Select(a, 17) <==> p in Select(b, 17) {
      assert p in Select(a, 17) <==> p in multiset(Select(a, 17));
      assert p in Select(b, 17) <==> p in multiset(Select(b, 17));
    }
    SameDevicesSameMap(Select(a, 17), Select(b, 17));
  }
}
