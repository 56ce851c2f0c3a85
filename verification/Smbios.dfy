/** The SMBIOS structure walk and the memory-channel topology read from it. */
module Smbios {
  import opened Wrappers

  const HEADER_SIZE := 8

  datatype Channel = Channel(handle: nat, devices: seq<nat>)

  datatype Topology = Topology(count: nat, populated: seq<Channel>)

  datatype SmbiosError =
    | HeaderTruncated | LengthMismatch
    | StructureTruncated | BadFormattedLength | FormattedTruncated | MissingTerminator
    | DuplicateHandle | DeviceTruncated | ExtendedSizeTruncated | ZeroExtendedSize
    | ChannelTruncated | AssociationsTruncated
    | TooManyChannels | MissingDevice | DuplicateMembership

  function Le16(low: byte, high: byte): (r: nat)
    ensures r < 0x10000
  {
    low as nat + 256 * high as nat
  }

  function Le32(b: Bytes): nat
    requires |b| == 4
  {
    Le16(b[0], b[1]) + 0x10000 * Le16(b[2], b[3])
  }

  // Walking

  predicate DoubleNulAt(s: Bytes, i: nat) { i + 1 < |s| && s[i] == 0 && s[i + 1] == 0 }

  function FirstDoubleNul(s: Bytes, from: nat := 0): (r: Option<nat>)
    ensures r.Some? ==> from <= r.value && DoubleNulAt(s, r.value)
    ensures r.Some? ==> forall k | from <= k < r.value :: !DoubleNulAt(s, k)
    ensures r.None? ==> forall k | from <= k :: !DoubleNulAt(s, k)
    decreases |s| - from
  {
    if from + 1 >= |s| then None
    else if DoubleNulAt(s, from) then Some(from)
    else FirstDoubleNul(s, from + 1)
  }

  type Structure = b: Bytes | |b| >= 4 witness [0, 4, 0, 0]

  datatype Step = Step(formatted: Structure, rest: Bytes)

  /** One structure off the front of a table. */
  function Next(s: Bytes): (r: Result<Step, SmbiosError>)
    ensures r.Ok? ==> |r.value.formatted| + |r.value.rest| + 2 <= |s|
    ensures r.Ok? ==> r.value.formatted <= s
  {
    if |s| < 4 then Err(StructureTruncated)
    else
      var length := s[1] as nat;
      if length < 4 then Err(BadFormattedLength)
      else if length > |s| then Err(FormattedTruncated)
      else
        var strings := s[length..];
        var terminator := FirstDoubleNul(strings);
        if terminator.None? then Err(MissingTerminator)
        else Ok(Step(s[..length], strings[terminator.value + 2..]))
  }

  function Walk(s: Bytes): Result<seq<Structure>, SmbiosError>
    decreases |s|
  {
    if s == [] then Ok([])
    else
      match Next(s)
      case Err(e) => Err(e)
      case Ok(step) =>
        match Walk(step.rest)
        case Err(e) => Err(e)
        case Ok(more) => Ok([step.formatted] + more)
  }

  // Collecting Type 17 devices and Type 37 channels

  function Kind(p: Structure): nat { p[0] as nat }

  function Handle(p: Structure): nat { Le16(p[2], p[3]) }

  function Populated(p: Structure): Result<bool, SmbiosError> {
    if |p| < 14 then Err(DeviceTruncated)
    else
      var size := Le16(p[12], p[13]);
      if size == 0 || size == 0xFFFF then Ok(false)
      else if size == 0x7FFF then
        if |p| < 32 then Err(ExtendedSizeTruncated)
        else if Le32(p[28..32]) == 0 then Err(ZeroExtendedSize)
        else Ok(true)
      else Ok(true)
  }

  function ListedDevices(p: Structure): seq<nat>
    requires |p| >= 7 && |p| >= 7 + 3 * p[6] as nat
  {
    seq(p[6] as nat, i requires 0 <= i < p[6] as nat => Le16(p[7 + i * 3 + 1], p[7 + i * 3 + 2]))
  }

  function ParsedChannel(p: Structure): Result<Channel, SmbiosError> {
    if |p| < 7 then Err(ChannelTruncated)
    else if |p| < 7 + 3 * p[6] as nat then Err(AssociationsTruncated)
    else Ok(Channel(Handle(p), ListedDevices(p)))
  }

  datatype Found = Found(devices: map<nat, bool>, channels: seq<Channel>, seen: set<nat>)

  function Add(found: Found, p: Structure): Result<Found, SmbiosError> {
    var handle := Handle(p);
    if Kind(p) == 17 then
      if handle in found.seen then Err(DuplicateHandle)
      else
        match Populated(p)
        case Err(e) => Err(e)
        case Ok(populated) => Ok(Found(found.devices[handle := populated], found.channels, found.seen + {handle}))
    else if Kind(p) == 37 then
      if handle in found.seen then Err(DuplicateHandle)
      else
        match ParsedChannel(p)
        case Err(e) => Err(e)
        case Ok(channel) => Ok(Found(found.devices, found.channels + [channel], found.seen + {handle}))
    else Ok(found)
  }

  function Scan(s: Bytes, found: Found): Result<Found, SmbiosError>
    decreases |s|
  {
    if s == [] then Ok(found)
    else
      match Next(s)
      case Err(e) => Err(e)
      case Ok(step) =>
        match Add(found, step.formatted)
        case Err(e) => Err(e)
        case Ok(more) => Scan(step.rest, more)
  }

  // Resolving channel membership

  datatype Members = Members(populated: seq<nat>, all: set<nat>)

  function ResolveDevices(listed: seq<nat>, devices: map<nat, bool>, m: Members): Result<Members, SmbiosError> {
    if listed == [] then Ok(m)
    else
      var handle := listed[0];
      if handle !in devices then Err(MissingDevice)
      else if handle in m.all then Err(DuplicateMembership)
      else
        ResolveDevices(listed[1..], devices,
                       Members(m.populated + (if devices[handle] then [handle] else []), m.all + {handle}))
  }

  datatype Resolved = Resolved(channels: seq<Channel>, all: set<nat>)

  function ResolveChannels(channels: seq<Channel>, devices: map<nat, bool>, r: Resolved): Result<Resolved, SmbiosError> {
    if channels == [] then Ok(r)
    else
      match ResolveDevices(channels[0].devices, devices, Members([], r.all))
      case Err(e) => Err(e)
      case Ok(m) =>
        ResolveChannels(channels[1..], devices,
                        Resolved(r.channels + Kept(channels[0].handle, m.populated), m.all))
  }

  function Kept(handle: nat, populated: seq<nat>): seq<Channel> {
    if populated == [] then [] else [Channel(handle, populated)]
  }

  predicate AllMapped(devices: map<nat, bool>, all: set<nat>) {
    forall h | h in devices && devices[h] :: h in all
  }

  function Resolve(found: Found): Result<Option<Topology>, SmbiosError> {
    if found.channels == [] then Ok(None)
    else if |found.channels| >= 0x10000 then Err(TooManyChannels)
    else
      match ResolveChannels(found.channels, found.devices, Resolved([], {}))
      case Err(e) => Err(e)
      case Ok(r) =>
        if r.channels == [] || !AllMapped(found.devices, r.all) then Ok(None)
        else Ok(Some(Topology(|found.channels|, r.channels)))
  }

  function Table(raw: Bytes): Result<Bytes, SmbiosError> {
    if |raw| < HEADER_SIZE then Err(HeaderTruncated)
    else if Le32(raw[4..8]) != |raw| - HEADER_SIZE then Err(LengthMismatch)
    else Ok(raw[HEADER_SIZE..])
  }

  const NOTHING := Found(map[], [], {})

  function ParsedTopology(raw: Bytes): Result<Option<Topology>, SmbiosError> {
    match Table(raw)
    case Err(e) => Err(e)
    case Ok(table) =>
      match Scan(table, NOTHING)
      case Err(e) => Err(e)
      case Ok(found) => Resolve(found)
  }

  // The code

  /** Never reads outside the table, and advances by at least six bytes. */
  method NextStructure(table: Bytes, start: nat) returns (r: Result<Structure, SmbiosError>, end: nat)
    requires start <= |table|
    ensures match Next(table[start..])
            case Err(e) => r == Err(e) && end == start
            case Ok(step) => r == Ok(step.formatted) && start + 6 <= end <= |table| && table[end..] == step.rest
  {
    end := start;
    ghost var s := table[start..];
    if start + 4 > |table| { return Err(StructureTruncated), start; }
    var length := table[start + 1] as nat;
    if length < 4 { return Err(BadFormattedLength), start; }
    if start + length > |table| { return Err(FormattedTruncated), start; }
    var strings := table[start + length..];
    assert s[length..] == strings;
    var terminator := FindDoubleNul(strings);
    if terminator.None? { return Err(MissingTerminator), start; }
    end := start + length + terminator.value + 2;
    assert table[end..] == strings[terminator.value + 2..];
    assert table[start..start + length] == s[..length];
    r := Ok(table[start..start + length]);
  }

  method FindDoubleNul(s: Bytes) returns (r: Option<nat>)
    ensures r == FirstDoubleNul(s)
  {
    var i := 0;
    while i + 1 < |s|
      invariant FirstDoubleNul(s) == FirstDoubleNul(s, i)
    {
      if s[i] == 0 && s[i + 1] == 0 { return Some(i); }
      i := i + 1;
    }
    return None;
  }

  method ParseChannel(handle: nat, p: Structure) returns (r: Result<Channel, SmbiosError>)
    requires handle == Handle(p)
    ensures r == ParsedChannel(p)
  {
    if |p| < 7 { return Err(ChannelTruncated); }
    var count := p[6] as nat;
    if |p| < 7 + count * 3 { return Err(AssociationsTruncated); }
    var devices: seq<nat> := [];
    var i := 0;
    while i < count
      invariant 0 <= i <= count
      invariant devices == ListedDevices(p)[..i]
    {
      var start := 7 + i * 3;
      devices := devices + [Le16(p[start + 1], p[start + 2])];
      i := i + 1;
    }
    assert ListedDevices(p)[..count] == ListedDevices(p);
    return Ok(Channel(handle, devices));
  }

  method Collect(table: Bytes) returns (r: Result<Found, SmbiosError>)
    ensures r == Scan(table, NOTHING)
  {
    var devices: map<nat, bool> := map[];
    var channels: seq<Channel> := [];
    var seen: set<nat> := {};
    var offset := 0;
    assert table[0..] == table;
    while offset < |table|
      invariant offset <= |table|
      invariant devices.Keys <= seen
      invariant Scan(table[offset..], Found(devices, channels, seen)) == Scan(table, NOTHING)
      decreases |table| - offset
    {
      var structure;
      structure, offset := NextStructure(table, offset);
      if structure.Err? { return Err(structure.error); }
      var p := structure.value;
      var handle := Handle(p);
      if Kind(p) == 17 {
        if handle in seen || handle in devices { return Err(DuplicateHandle); }
        seen := seen + {handle};
        var populated := Populated(p);
        if populated.Err? { return Err(populated.error); }
        devices := devices[handle := populated.value];
      } else if Kind(p) == 37 {
        if handle in seen { return Err(DuplicateHandle); }
        seen := seen + {handle};
        var channel := ParseChannel(handle, p);
        if channel.Err? { return Err(channel.error); }
        channels := channels + [channel.value];
      }
    }
    return Ok(Found(devices, channels, seen));
  }

  method ParseMemoryTopology(raw: Bytes) returns (r: Result<Option<Topology>, SmbiosError>)
    ensures r == ParsedTopology(raw)
  {
    hide Scan, Next, AllMapped, ResolveDevices;
    var table := Table(raw);
    if table.Err? { return Err(table.error); }
    var found := Collect(table.value);
    if found.Err? { return Err(found.error); }
    var channels, devices := found.value.channels, found.value.devices;
    if channels == [] { return Ok(None); }
    if |channels| >= 0x10000 { return Err(TooManyChannels); }
    var membership: set<nat> := {};
    var kept: seq<Channel> := [];
    var i := 0;
    assert channels[0..] == channels;
    while i < |channels|
      invariant 0 <= i <= |channels|
      invariant ResolveChannels(channels, devices, Resolved([], {}))
             == ResolveChannels(channels[i..], devices, Resolved(kept, membership))
    {
      assert channels[i..][1..] == channels[i + 1..] && kept + [] == kept;
      var m := ResolveListed(channels[i].devices, devices, membership);
      if m.Err? { return Err(m.error); }
      membership := m.value.all;
      if m.value.populated != [] { kept := kept + [Channel(channels[i].handle, m.value.populated)]; }
      i := i + 1;
    }
    if kept == [] || !AllMapped(devices, membership) { return Ok(None); }
    return Ok(Some(Topology(|channels|, kept)));
  }

  method ResolveListed(listed: seq<nat>, devices: map<nat, bool>, membership: set<nat>)
    returns (r: Result<Members, SmbiosError>)
    ensures r == ResolveDevices(listed, devices, Members([], membership))
  {
    var all := membership;
    var populated: seq<nat> := [];
    var i := 0;
    assert listed[0..] == listed;
    while i < |listed|
      invariant 0 <= i <= |listed|
      invariant ResolveDevices(listed, devices, Members([], membership))
             == ResolveDevices(listed[i..], devices, Members(populated, all))
    {
      assert listed[i..][1..] == listed[i + 1..] && populated + [] == populated;
      if listed[i] !in devices { return Err(MissingDevice); }
      if listed[i] in all { return Err(DuplicateMembership); }
      all := all + {listed[i]};
      if devices[listed[i]] { populated := populated + [listed[i]]; }
      i := i + 1;
    }
    return Ok(Members(populated, all));
  }
}
