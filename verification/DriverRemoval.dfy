/** Capturing the driver packages in Safe Mode and removing exactly those. */
module DriverRemoval {
  import opened Wrappers
  import opened Sequences
  import opened Calendar
  import opened DriverPlan

  const MAX_I64 := 0x7FFF_FFFF_FFFF_FFFF

  datatype SafeModeState = Confirmed | NotDetected | Indeterminate

  /** `sessionValid` stands for the check of the boot session text. */
  datatype SafeMode = SafeMode(gpu: Gpu, state: SafeModeState, observedAt: Bytes, sessionValid: bool)

  datatype Capture = Capture(
    schema: nat, planDigest: Bytes, gpu: Gpu, safeMode: SafeMode,
    installed: PackageSet, setDigest: Bytes, capturedAt: Bytes)

  datatype Disposition = Removed | AlreadyAbsent | Failed

  datatype Outcome = Outcome(name: Bytes, disposition: Disposition, observedAt: Bytes)

  datatype Evidence = Evidence(capture: Capture, outcomes: seq<Outcome>, post: PackageSet, observedAt: Bytes)

  function NameSet(ps: seq<Package>): set<Bytes> { set p | p in ps :: p.name }

  function PlannedNames(plan: Plan): Option<set<Bytes>> {
    if |plan.entries| > 1 && plan.entries[1].action.RecordExactPackages?
    then Some(NameSet(plan.entries[1].action.packages)) else None
  }

  ghost predicate Named(ps: seq<Package>, n: Bytes) { exists p :: p in ps && p.name == n }

  /** The plan records packages, under exactly the names of these. */
  ghost predicate PlansExactly(plan: Plan, ps: seq<Package>) {
    && |plan.entries| > 1 && plan.entries[1].action.RecordExactPackages?
    && forall n :: Named(plan.entries[1].action.packages, n) <==> Named(ps, n)
  }

  lemma PlannedIff(plan: Plan, ps: seq<Package>)
    ensures PlannedNames(plan) == Some(NameSet(ps)) <==> PlansExactly(plan, ps)
  {
    assert forall n :: n in NameSet(ps) <==> Named(ps, n);
    if |plan.entries| > 1 && plan.entries[1].action.RecordExactPackages? {
      var planned := plan.entries[1].action.packages;
      assert forall n :: n in NameSet(planned) <==> Named(planned, n);
      if PlansExactly(plan, ps) { assert NameSet(planned) == NameSet(ps); }
    }
  }

  function Limit(maximumAge: nat): nat { if maximumAge <= MAX_I64 then maximumAge else MAX_I64 }

  /** A capture is fresh if it is neither from the future nor older than allowed. */
  function CheckFreshness(maximumAge: nat, capturedAt: Bytes, now: Bytes): Result<(), DriverError> {
    if maximumAge == 0 then Err(InvalidPolicy)
    else
      var captured, current := Timestamp(capturedAt), Timestamp(now);
      if captured.None? || current.None? then Err(InvalidTimestamp)
      else if current.value < captured.value || current.value - captured.value > Limit(maximumAge) then Err(StaleCapture)
      else Ok(())
  }

  ghost predicate CanonicalFor(s: PackageSet, gpu: Gpu) { Canonical(s) && s.gpu == gpu }

  /** Both are timestamps, the earlier one no later and at most `maximumAge` seconds before. */
  ghost predicate WithinAge(earlier: Bytes, later: Bytes, maximumAge: nat) {
    && Timestamp(earlier).Some? && Timestamp(later).Some?
    && Timestamp(earlier).value <= Timestamp(later).value <= Timestamp(earlier).value + maximumAge
  }

  /** Safe Mode was confirmed for this GPU, at most `maximumAge` seconds before the capture. */
  ghost predicate SafeModeProved(s: SafeMode, gpu: Gpu, capturedAt: Bytes, maximumAge: nat) {
    && s.gpu == gpu && s.gpu.agrees && s.sessionValid && s.state == Confirmed
    && WithinAge(s.observedAt, capturedAt, maximumAge)
  }

  lemma FreshIff(maximumAge: nat, earlier: Bytes, later: Bytes)
    requires Timestamp(earlier).Some? && Timestamp(later).Some?
    ensures Timestamp(earlier).value <= Timestamp(later).value && Timestamp(later).value - Timestamp(earlier).value <= Limit(maximumAge)
       <==> WithinAge(earlier, later, maximumAge)
  {
    hide Timestamp;
    TimestampFits(earlier);
    TimestampFits(later);
  }

  ghost predicate Binds(capture: Capture, plan: Plan, digests: Digests) {
    && IsDryRunPlan(plan)
    && capture.schema == SCHEMA_VERSION && capture.planDigest == plan.digest && capture.gpu == plan.gpu
    && CanonicalFor(capture.installed, capture.gpu)
    && capture.setDigest == digests.ofSet(capture.installed)
    && PlansExactly(plan, capture.installed.packages)
  }

  /** A capture may be used at `now`. */
  ghost predicate Usable(capture: Capture, plan: Plan, digests: Digests, maximumAge: nat, now: Bytes) {
    && Binds(capture, plan, digests)
    && SafeModeProved(capture.safeMode, capture.gpu, capture.capturedAt, maximumAge)
    && maximumAge > 0 && WithinAge(capture.capturedAt, now, maximumAge)
  }

  method ValidateCapture(capture: Capture, plan: Plan, digests: Digests, maximumAge: nat, now: Bytes)
    returns (r: Result<(), DriverError>)
    ensures r.Ok? <==> Usable(capture, plan, digests, maximumAge, now)
  {
    hide Timestamp;
    if !plan.IsValid() { return Err(InvalidPlan); }
    if capture.schema != SCHEMA_VERSION || capture.planDigest != plan.digest || capture.gpu != plan.gpu {
      return Err(CapturePlanMismatch);
    }
    var canonical := ValidateSet(capture.installed);
    if canonical.Err? { return canonical; }
    if capture.installed.gpu != capture.gpu || capture.setDigest != digests.ofSet(capture.installed)
       || PlannedNames(plan) != Some(NameSet(capture.installed.packages)) {
      PlannedIff(plan, capture.installed.packages);
      return Err(CapturePlanMismatch);
    }
    PlannedIff(plan, capture.installed.packages);
    var s := capture.safeMode;
    if !s.gpu.agrees { return Err(VendorMismatch); }
    var observed := Timestamp(s.observedAt);
    if observed.None? { return Err(InvalidTimestamp); }
    if !s.sessionValid { return Err(InvalidText); }
    if s.gpu != capture.gpu || s.state != Confirmed { return Err(SafeModeNotConfirmed); }
    var captured := Timestamp(capture.capturedAt);
    if captured.None? { return Err(InvalidTimestamp); }
    FreshIff(maximumAge, s.observedAt, capture.capturedAt);
    if observed.value > captured.value { return Err(CapturePlanMismatch); }
    if captured.value - observed.value > Limit(maximumAge) { return Err(StaleCapture); }
    if Timestamp(now).Some? { FreshIff(maximumAge, capture.capturedAt, now); }
    r := CheckFreshness(maximumAge, capture.capturedAt, now);
  }

  function OutcomeNames(outcomes: seq<Outcome>): (r: seq<Bytes>)
    ensures |r| == |outcomes| && forall i | 0 <= i < |r| :: r[i] == outcomes[i].name
  {
    seq(|outcomes|, i requires 0 <= i < |outcomes| => outcomes[i].name)
  }

  predicate NotBefore(later: Bytes, earlier: Bytes) {
    Timestamp(later).Some? && Timestamp(earlier).Some? && Timestamp(earlier).value <= Timestamp(later).value
  }

  ghost predicate InOrder(earlier: Bytes, later: Bytes) {
    Timestamp(earlier).Some? && Timestamp(later).Some? && Timestamp(earlier).value <= Timestamp(later).value
  }

  /** One removed outcome for each captured package, and none of them left. */
  ghost predicate Accepted(e: Evidence, plan: Plan, digests: Digests, maximumAge: nat, now: Bytes) {
    && Usable(e.capture, plan, digests, maximumAge, now)
    && CanonicalFor(e.post, e.capture.gpu)
    && InOrder(e.capture.capturedAt, e.observedAt)
    && multiset(OutcomeNames(e.outcomes)) == multiset(NamesOf(e.capture.installed.packages))
    && (forall o | o in e.outcomes :: o.disposition == Removed && InOrder(e.capture.capturedAt, o.observedAt))
    && forall p, q | p in e.capture.installed.packages && q in e.post.packages :: p.name != q.name
  }

  lemma UsableIsAscending(capture: Capture, plan: Plan, digests: Digests, maximumAge: nat, now: Bytes)
    requires Usable(capture, plan, digests, maximumAge, now)
    ensures Ascending(capture.installed.packages)
  {
  }

  lemma ApartIff(a: seq<Package>, b: seq<Package>)
    ensures NameSet(a) !! NameSet(b) <==> forall p, q | p in a && q in b :: p.name != q.name
  {
    if NameSet(a) !! NameSet(b) {
      forall p, q | p in a && q in b ensures p.name != q.name {
        assert p.name in NameSet(a) && q.name in NameSet(b);
      }
    }
  }

  method ValidateEvidence(e: Evidence, plan: Plan, digests: Digests, maximumAge: nat, now: Bytes)
    returns (r: Result<(), DriverError>)
    ensures r.Ok? <==> Accepted(e, plan, digests, maximumAge, now)
  {
    hide Timestamp, Usable, Ascending, AllFit;
    r := ValidateCapture(e.capture, plan, digests, maximumAge, now);
    if r.Err? { return; }
    UsableIsAscending(e.capture, plan, digests, maximumAge, now);
    ApartIff(e.capture.installed.packages, e.post.packages);
    r := ValidateSet(e.post);
    if r.Err? { return; }
    if e.post.gpu != e.capture.gpu || !NotBefore(e.observedAt, e.capture.capturedAt) {
      return Err(InvalidRemovalEvidence);
    }
    var expected := NameSet(e.capture.installed.packages);
    var named := set o | o in e.outcomes :: o.name;
    NamesAreExact(e.capture.installed.packages, e.outcomes);
    if |e.outcomes| != |expected| || named != expected { return Err(InvalidRemovalEvidence); }
    var i := 0;
    while i < |e.outcomes|
      invariant 0 <= i <= |e.outcomes|
      invariant forall k | 0 <= k < i ::
                  e.outcomes[k].disposition == Removed && InOrder(e.capture.capturedAt, e.outcomes[k].observedAt)
    {
      if e.outcomes[i].disposition != Removed || !NotBefore(e.outcomes[i].observedAt, e.capture.capturedAt) {
        return Err(InvalidRemovalEvidence);
      }
      i := i + 1;
    }
    if !(expected !! NameSet(e.post.packages)) { return Err(InvalidRemovalEvidence); }
    return Ok(());
  }

  // Counting names

  lemma {:induction false} DistinctSize<T>(s: seq<T>)
    ensures |set x | x in s| <= |s|
    ensures |set x | x in s| == |s| <==> Distinct(s)
  {
    if s != [] {
      var rest := s[1..];
      assert s == [s[0]] + rest;
      DistinctSize(rest);
      DistinctCons(s[0], rest);
      var all, others := set x | x in s, set x | x in rest;
      assert all == others + {s[0]};
      if s[0] in rest {
        assert all == others;
      } else {
        assert |all| == |others| + 1;
      }
    }
  }

  /** As many outcomes as names, with the same names: each name exactly once. */
  lemma NamesAreExact(ps: seq<Package>, outcomes: seq<Outcome>)
    requires Ascending(ps)
    ensures multiset(OutcomeNames(outcomes)) == multiset(NamesOf(ps))
       <==> |outcomes| == |NameSet(ps)| && (set o | o in outcomes :: o.name) == NameSet(ps)
  {
    var a, b := OutcomeNames(outcomes), NamesOf(ps);
    var sa, sb := set n | n in a, set n | n in b;
    SetOfNames(ps, outcomes);
    AscendingIsDistinct(ps);
    DistinctSize(a);
    DistinctSize(b);
    if multiset(a) == multiset(b) {
      assert |a| == |multiset(a)| == |multiset(b)| == |b|;
      forall n ensures n in a <==> n in b {
        assert n in a <==> n in multiset(a);
        assert n in b <==> n in multiset(b);
      }
      assert sa == sb;
    } else if |a| == |sb| && sa == sb {
      forall n ensures n in a <==> n in b {
        assert n in a <==> n in sa;
        assert n in b <==> n in sb;
      }
      SameElements(a, b);
    }
  }

  lemma SetOfNames(ps: seq<Package>, outcomes: seq<Outcome>)
    ensures NameSet(ps) == set n | n in NamesOf(ps)
    ensures (set o | o in outcomes :: o.name) == set n | n in OutcomeNames(outcomes)
  {
    forall p | p in ps ensures p.name in NamesOf(ps) {
      var i :| 0 <= i < |ps| && ps[i] == p;
      assert NamesOf(ps)[i] == p.name;
    }
    forall o | o in outcomes ensures o.name in OutcomeNames(outcomes) {
      var i :| 0 <= i < |outcomes| && outcomes[i] == o;
      assert OutcomeNames(outcomes)[i] == o.name;
    }
  }

  lemma AscendingIsDistinct(ps: seq<Package>)
    requires Ascending(ps)
    ensures Distinct(NamesOf(ps)) && DistinctNames(ps)
  {
    forall i, j | 0 <= i < j < |ps| ensures ps[i].name != ps[j].name {
      LessIsIrreflexive(ps[j].name);
    }
  }

  // The host

  datatype HostCall = ObserveSafeMode | Inspect | ReadClock | Remove(name: Bytes)

  /** The packages that the calls tried to remove, in order. */
  function RemovalsIn(calls: seq<HostCall>): seq<Bytes> {
    if calls == [] then []
    else
      var last := calls[|calls| - 1];
      RemovalsIn(calls[..|calls| - 1]) + (if last.Remove? then [last.name] else [])
  }

  /** Adapters that answer each call as they like. */
  class Host {
    var calls: seq<HostCall>
    const safeModes: nat -> Result<SafeMode, DriverError>
    const inspections: nat -> Result<seq<Package>, DriverError>
    const clocks: nat -> Result<Bytes, DriverError>
    const removals: nat -> Result<Outcome, DriverError>

    constructor (
      safeModes: nat -> Result<SafeMode, DriverError>, inspections: nat -> Result<seq<Package>, DriverError>,
      clocks: nat -> Result<Bytes, DriverError>, removals: nat -> Result<Outcome, DriverError>)
      ensures calls == []
    {
      calls := [];
      this.safeModes, this.inspections, this.clocks, this.removals := safeModes, inspections, clocks, removals;
    }

    method SafeModeNow() returns (r: Result<SafeMode, DriverError>)
      modifies this
      ensures calls == old(calls) + [ObserveSafeMode] && r == safeModes(|old(calls)|)
      ensures RemovalsIn(calls) == RemovalsIn(old(calls))
    {
      r := safeModes(|calls|);
      calls := calls + [ObserveSafeMode];
      assert calls[..|calls| - 1] == old(calls);
    }

    method Packages() returns (r: Result<seq<Package>, DriverError>)
      modifies this
      ensures calls == old(calls) + [Inspect] && r == inspections(|old(calls)|)
      ensures RemovalsIn(calls) == RemovalsIn(old(calls))
    {
      r := inspections(|calls|);
      calls := calls + [Inspect];
      assert calls[..|calls| - 1] == old(calls);
    }

    method Clock() returns (r: Result<Bytes, DriverError>)
      modifies this
      ensures calls == old(calls) + [ReadClock] && r == clocks(|old(calls)|)
      ensures RemovalsIn(calls) == RemovalsIn(old(calls))
    {
      r := clocks(|calls|);
      calls := calls + [ReadClock];
      assert calls[..|calls| - 1] == old(calls);
    }

    method RemovePackage(name: Bytes) returns (r: Result<Outcome, DriverError>)
      modifies this
      ensures calls == old(calls) + [Remove(name)] && r == removals(|old(calls)|)
      ensures RemovalsIn(calls) == RemovalsIn(old(calls)) + [name]
    {
      r := removals(|calls|);
      calls := calls + [Remove(name)];
      assert calls[..|calls| - 1] == old(calls);
    }
  }

  function Removals(names: seq<Bytes>): (r: seq<HostCall>)
    ensures |r| == |names| && forall i | 0 <= i < |r| :: r[i] == Remove(names[i])
  {
    seq(|names|, i requires 0 <= i < |names| => Remove(names[i]))
  }

  method FromUnsorted(gpu: Gpu, packages: seq<Package>) returns (r: Result<PackageSet, DriverError>)
    ensures r.Ok? ==> r.value == PackageSet(gpu, SortByName(packages)) && Canonical(r.value)
    ensures r.Ok? <==> gpu.agrees && AllFit(packages, gpu) && DistinctNames(packages)
  {
    var s := PackageSet(gpu, SortByName(packages));
    CanonicalIff(gpu, packages);
    var valid := ValidateSet(s);
    r := if valid.Ok? then Ok(s) else Err(valid.error);
  }

  lemma CanonicalIff(gpu: Gpu, packages: seq<Package>)
    ensures Canonical(PackageSet(gpu, SortByName(packages)))
       <==> gpu.agrees && AllFit(packages, gpu) && DistinctNames(packages)
  {
    var sorted := SortByName(packages);
    SortPermutes(packages);
    assert forall p :: p in packages <==> p in multiset(packages);
    assert forall p :: p in sorted <==> p in multiset(sorted);
    if Ascending(sorted) {
      AscendingIsDistinct(sorted);
      NamesArePermuted(sorted, packages);
    }
    if DistinctNames(packages) {
      SortIsAscending(packages);
    }
  }

  /** The answers from call `at` on let the capture succeed: Safe Mode, the installed packages and the
      time, with the packages those of the plan and Safe Mode proved recently enough. */
  ghost predicate CanCapture(plan: Plan, host: Host, at: nat, maximumAge: nat) {
    && IsDryRunPlan(plan) && maximumAge > 0
    && host.safeModes(at).Ok? && host.inspections(at + 1).Ok? && host.clocks(at + 2).Ok?
    && SafeModeProved(host.safeModes(at).value, plan.gpu, host.clocks(at + 2).value, maximumAge)
    && var packages := host.inspections(at + 1).value;
    && AllFit(packages, plan.gpu) && DistinctNames(packages) && PlansExactly(plan, packages)
  }

  lemma SortKeepsNames(ps: seq<Package>, n: Bytes)
    ensures Named(SortByName(ps), n) <==> Named(ps, n)
  {
    SortPermutes(ps);
    assert forall p :: p in ps <==> p in multiset(ps);
    assert forall p :: p in SortByName(ps) <==> p in multiset(SortByName(ps));
  }

  lemma CaptureIsUsableIff(plan: Plan, host: Host, at: nat, digests: Digests, maximumAge: nat)
    requires plan.IsValid() && host.safeModes(at).Ok? && host.inspections(at + 1).Ok? && host.clocks(at + 2).Ok?
    requires var packages := host.inspections(at + 1).value; AllFit(packages, plan.gpu) && DistinctNames(packages)
    ensures var capture := CaptureFrom(plan, host, at, digests);
            Usable(capture, plan, digests, maximumAge, capture.capturedAt) <==> CanCapture(plan, host, at, maximumAge)
  {
    hide Timestamp, SortByName, AllFit, DistinctNames;
    var packages := host.inspections(at + 1).value;
    CanonicalIff(plan.gpu, packages);
    forall n ensures Named(SortByName(packages), n) <==> Named(packages, n) {
      SortKeepsNames(packages, n);
    }
  }

  /** The capture that these answers make. */
  function CaptureFrom(plan: Plan, host: Host, at: nat, digests: Digests): Capture
    requires host.safeModes(at).Ok? && host.inspections(at + 1).Ok? && host.clocks(at + 2).Ok?
  {
    var installed := PackageSet(plan.gpu, SortByName(host.inspections(at + 1).value));
    Capture(SCHEMA_VERSION, plan.digest, plan.gpu, host.safeModes(at).value,
            installed, digests.ofSet(installed), host.clocks(at + 2).value)
  }

  method CaptureDriverExecution(plan: Plan, host: Host, digests: Digests, maximumAge: nat)
    returns (r: Result<Capture, DriverError>)
    modifies host
    ensures r.Ok? <==> CanCapture(plan, host, |old(host.calls)|, maximumAge)
    ensures r.Ok? ==>
              && host.calls == old(host.calls) + [ObserveSafeMode, Inspect, ReadClock]
              && r.value == CaptureFrom(plan, host, |old(host.calls)|, digests)
              && Usable(r.value, plan, digests, maximumAge, r.value.capturedAt)
    ensures RemovalsIn(host.calls) == RemovalsIn(old(host.calls))
  {
    hide Timestamp, Usable, AllFit, DistinctNames, PlansExactly, SafeModeProved;
    ghost var at := |host.calls|;
    if !plan.IsValid() { return Err(InvalidPlan); }
    var safeMode := host.SafeModeNow();
    if safeMode.Err? { return Err(safeMode.error); }
    var packages := host.Packages();
    if packages.Err? { return Err(packages.error); }
    var installed := FromUnsorted(plan.gpu, packages.value);
    if installed.Err? { return Err(installed.error); }
    var capturedAt := host.Clock();
    if capturedAt.Err? { return Err(capturedAt.error); }
    var capture := Capture(SCHEMA_VERSION, plan.digest, plan.gpu, safeMode.value,
                           installed.value, digests.ofSet(installed.value), capturedAt.value);
    CaptureIsUsableIff(plan, host, at, digests, maximumAge);
    var valid := ValidateCapture(capture, plan, digests, maximumAge, capturedAt.value);
    r := if valid.Ok? then Ok(capture) else Err(valid.error);
  }

  /** The answer to the removal made `i` calls after call `start`. */
  function RemovalAt(host: Host, start: nat, i: nat): Result<Outcome, DriverError> { host.removals(start + i) }

  /** The outcomes are the answers to the removals from call `start` on. */
  ghost predicate AnsweredBy(outcomes: seq<Outcome>, host: Host, start: nat) {
    forall i | 0 <= i < |outcomes| :: RemovalAt(host, start, i) == Ok(outcomes[i])
  }

  ghost predicate AllRemoved(host: Host, start: nat, count: nat) {
    forall i | 0 <= i < count :: RemovalAt(host, start, i).Ok?
  }

  /** The inventory is the sorted answer to call `at`. */
  ghost predicate ReadBackAt(post: PackageSet, gpu: Gpu, host: Host, at: nat) {
    host.inspections(at).Ok? && post == PackageSet(gpu, SortByName(host.inspections(at).value))
  }

  method RemoveEach(ps: seq<Package>, host: Host) returns (r: Result<seq<Outcome>, DriverError>, ghost removed: nat)
    modifies host
    ensures removed <= |ps| && RemovalsIn(host.calls) == RemovalsIn(old(host.calls)) + NamesOf(ps)[..removed]
    ensures host.calls == old(host.calls) + Removals(NamesOf(ps)[..removed])
    ensures r.Ok? <==> AllRemoved(host, |old(host.calls)|, |ps|)
    ensures r.Ok? ==> removed == |ps| && AnsweredBy(r.value, host, |old(host.calls)|) && |r.value| == |ps|
  {
    hide RemovalsIn;
    ghost var before := host.calls;
    ghost var names := NamesOf(ps);
    var outcomes: seq<Outcome> := [];
    var i := 0;
    while i < |ps|
      invariant 0 <= i <= |ps|
      invariant host.calls == before + Removals(names[..i])
      invariant RemovalsIn(host.calls) == RemovalsIn(before) + names[..i]
      invariant |outcomes| == i && AnsweredBy(outcomes, host, |before|)
      invariant AllRemoved(host, |before|, i)
    {
      var outcome := host.RemovePackage(ps[i].name);
      assert names[..i + 1] == names[..i] + [names[i]];
      assert Removals(names[..i + 1]) == Removals(names[..i]) + [Remove(names[i])];
      assert outcome == RemovalAt(host, |before|, i);
      if outcome.Err? { return Err(outcome.error), i + 1; }
      outcomes := outcomes + [outcome.value];
      i := i + 1;
    }
    return Ok(outcomes), i;
  }

  /** The inventory and the clock can be read, and the packages make a set for the GPU. */
  ghost predicate Readable(gpu: Gpu, host: Host, at: nat) {
    && host.inspections(at).Ok? && host.clocks(at + 1).Ok?
    && gpu.agrees && AllFit(host.inspections(at).value, gpu) && DistinctNames(host.inspections(at).value)
  }

  method ReadBack(capture: Capture, outcomes: seq<Outcome>, host: Host) returns (r: Result<Evidence, DriverError>)
    modifies host
    ensures RemovalsIn(host.calls) == RemovalsIn(old(host.calls))
    ensures r.Ok? <==> Readable(capture.gpu, host, |old(host.calls)|)
    ensures r.Ok? ==> host.calls == old(host.calls) + [Inspect, ReadClock] && r.value.capture == capture
                       && r.value.outcomes == outcomes
                       && ReadBackAt(r.value.post, capture.gpu, host, |old(host.calls)|)
                       && host.clocks(|old(host.calls)| + 1) == Ok(r.value.observedAt)
  {
    hide SortByName, AllFit, DistinctNames;
    var packages := host.Packages();
    if packages.Err? { return Err(packages.error); }
    var post := FromUnsorted(capture.gpu, packages.value);
    if post.Err? { return Err(post.error); }
    var observedAt := host.Clock();
    if observedAt.Err? { return Err(observedAt.error); }
    return Ok(Evidence(capture, outcomes, post.value, observedAt.value));
  }

  ghost predicate UsableAt(
    capture: Capture, plan: Plan, digests: Digests, maximumAge: nat, now: Result<Bytes, DriverError>)
  {
    now.Ok? && Usable(capture, plan, digests, maximumAge, now.value)
  }

  /** The outcomes that the removals from call `at` on report. */
  function OutcomesFrom(host: Host, at: nat, count: nat): (r: seq<Outcome>)
    requires AllRemoved(host, at, count)
    ensures |r| == count && AnsweredBy(r, host, at)
  {
    seq(count, i requires 0 <= i < count && RemovalAt(host, at, i).Ok? => RemovalAt(host, at, i).value)
  }

  /** Every removal and reading from call `at` on is answered. */
  ghost predicate AllAnswered(host: Host, at: nat, n: nat) {
    && AllRemoved(host, at + 1, n)
    && host.inspections(at + 1 + n).Ok? && host.clocks(at + 2 + n).Ok? && host.clocks(at + 3 + n).Ok?
  }

  /** The evidence that the answers from call `at` on make, the clock having been read at `at`. */
  ghost function EvidenceFrom(capture: Capture, host: Host, at: nat): Evidence
    requires AllAnswered(host, at, |capture.installed.packages|)
  {
    var n := |capture.installed.packages|;
    Evidence(capture, OutcomesFrom(host, at + 1, n),
             PackageSet(capture.gpu, SortByName(host.inspections(at + 1 + n).value)), host.clocks(at + 2 + n).value)
  }

  ghost predicate AcceptedAt(
    e: Evidence, plan: Plan, digests: Digests, maximumAge: nat, now: Result<Bytes, DriverError>)
  {
    now.Ok? && Accepted(e, plan, digests, maximumAge, now.value)
  }

  /** The answers from call `at` on let the removal succeed: the capture is still usable, every removal
      and reading is answered, and the evidence that they make is accepted at the last reading. */
  ghost predicate CanRemove(plan: Plan, capture: Capture, host: Host, at: nat, digests: Digests, maximumAge: nat) {
    && UsableAt(capture, plan, digests, maximumAge, host.clocks(at))
    && AllAnswered(host, at, |capture.installed.packages|)
    && AcceptedAt(EvidenceFrom(capture, host, at), plan, digests, maximumAge,
                  host.clocks(at + 3 + |capture.installed.packages|))
  }

  lemma AcceptedIsReadable(capture: Capture, plan: Plan, host: Host, at: nat, digests: Digests, maximumAge: nat)
    requires CanRemove(plan, capture, host, at, digests, maximumAge)
    ensures Readable(capture.gpu, host, at + 1 + |capture.installed.packages|)
  {
    hide Usable, Timestamp, SortByName, AllFit, DistinctNames, Ascending, AllRemoved;
    CanonicalIff(capture.gpu, host.inspections(at + 1 + |capture.installed.packages|).value);
  }

  /** The removal calls are a prefix of the captured names in canonical order,
      none at all unless the capture is still usable, and every one of them
      once if evidence is returned. */
  method RemoveCapturedPackages(plan: Plan, capture: Capture, host: Host, digests: Digests, maximumAge: nat)
    returns (r: Result<Evidence, DriverError>, ghost removed: nat)
    modifies host
    ensures removed <= |capture.installed.packages|
    ensures RemovalsIn(host.calls) == RemovalsIn(old(host.calls)) + NamesOf(capture.installed.packages)[..removed]
    ensures removed > 0 || r.Ok? ==>
              UsableAt(capture, plan, digests, maximumAge, host.clocks(|old(host.calls)|))
    ensures r.Ok? <==> CanRemove(plan, capture, host, |old(host.calls)|, digests, maximumAge)
    ensures r.Ok? ==>
              && removed == |capture.installed.packages|
              && host.calls == old(host.calls) + [ReadClock] + Removals(NamesOf(capture.installed.packages))
                               + [Inspect, ReadClock, ReadClock]
              && r.value == EvidenceFrom(capture, host, |old(host.calls)|)
  {
    hide Timestamp, Usable, Accepted, RemovalsIn, AnsweredBy, SortByName, AllRemoved, Readable;
    ghost var at, n := |host.calls|, |capture.installed.packages|;
    removed := 0;
    var now := host.Clock();
    if now.Err? { return Err(now.error), 0; }
    var valid := ValidateCapture(capture, plan, digests, maximumAge, now.value);
    if valid.Err? { return Err(valid.error), 0; }
    var outcomes;
    outcomes, removed := RemoveEach(capture.installed.packages, host);
    if outcomes.Err? { return Err(outcomes.error), removed; }
    SameOutcomes(outcomes.value, host, at + 1);
    var evidence := ReadBack(capture, outcomes.value, host);
    if evidence.Err? {
      UnreadableFails(plan, capture, host, at, digests, maximumAge);
      return Err(evidence.error), removed;
    }
    ReadableIsAnswered(capture.gpu, host, at + 1 + n);
    now := host.Clock();
    if now.Err? { return Err(now.error), removed; }
    assert evidence.value == EvidenceFrom(capture, host, at);
    var accepted := ValidateEvidence(evidence.value, plan, digests, maximumAge, now.value);
    r := if accepted.Ok? then Ok(evidence.value) else Err(accepted.error);
  }

  lemma ReadableIsAnswered(gpu: Gpu, host: Host, at: nat)
    requires Readable(gpu, host, at)
    ensures host.inspections(at).Ok? && host.clocks(at + 1).Ok?
  {
  }

  lemma SameOutcomes(outcomes: seq<Outcome>, host: Host, at: nat)
    requires AnsweredBy(outcomes, host, at)
    ensures AllRemoved(host, at, |outcomes|) && outcomes == OutcomesFrom(host, at, |outcomes|)
  {
    assert AllRemoved(host, at, |outcomes|);
    var others := OutcomesFrom(host, at, |outcomes|);
    forall i | 0 <= i < |outcomes| ensures outcomes[i] == others[i] {
      assert RemovalAt(host, at, i) == Ok(outcomes[i]);
      assert RemovalAt(host, at, i) == Ok(others[i]);
    }
  }

  lemma UnreadableFails(plan: Plan, capture: Capture, host: Host, at: nat, digests: Digests, maximumAge: nat)
    requires !Readable(capture.gpu, host, at + 1 + |capture.installed.packages|)
    ensures !CanRemove(plan, capture, host, at, digests, maximumAge)
  {
    hide CanRemove, Readable;
    if CanRemove(plan, capture, host, at, digests, maximumAge) {
      AcceptedIsReadable(capture, plan, host, at, digests, maximumAge);
    }
  }

  /** What accepted evidence says. */
  lemma {:induction false} AcceptedRemovalIsComplete(e: Evidence, plan: Plan, digests: Digests, maximumAge: nat, now: Bytes)
    requires Accepted(e, plan, digests, maximumAge, now)
    ensures var names := NamesOf(e.capture.installed.packages);
            && Ascending(e.capture.installed.packages) && Distinct(names)
            && PlannedNames(plan) == Some(set n | n in names)
            && |e.outcomes| == |names|
            && (forall n | n in names :: multiset(OutcomeNames(e.outcomes))[n] == 1 && n !in NamesOf(e.post.packages))
            && (forall o | o in e.outcomes :: o.disposition == Removed && o.name in names)
            && e.capture.safeMode.state == Confirmed && e.capture.safeMode.gpu == plan.gpu
    ensures Timestamp(now).Some? && Timestamp(e.capture.safeMode.observedAt).Some?
    ensures var age := Timestamp(now).value - Timestamp(e.capture.safeMode.observedAt).value;
            0 <= age <= 2 * Limit(maximumAge)
  {
    hide Timestamp;
    var ps := e.capture.installed.packages;
    var names := NamesOf(ps);
    AscendingIsDistinct(ps);
    PlannedIff(plan, ps);
    SetOfNames(ps, e.outcomes);
    SetOfNames(e.post.packages, e.outcomes);
    ApartIff(ps, e.post.packages);
    FreshIff(maximumAge, e.capture.safeMode.observedAt, e.capture.capturedAt);
    FreshIff(maximumAge, e.capture.capturedAt, now);
    assert |multiset(OutcomeNames(e.outcomes))| == |e.outcomes|;
    assert |multiset(names)| == |names|;
    forall n | n in names ensures multiset(OutcomeNames(e.outcomes))[n] == 1 && n !in NamesOf(e.post.packages) {
      CountDistinct(names, n);
      assert n in NameSet(ps);
    }
    forall o | o in e.outcomes ensures o.name in names {
      assert o.name in set x | x in e.outcomes :: x.name;
      assert o.name in OutcomeNames(e.outcomes);
      assert o.name in multiset(OutcomeNames(e.outcomes));
    }
  }
}
