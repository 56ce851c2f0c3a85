/** Driver packages, their canonical order, and the dry-run plan. */
module DriverPlan {
  import opened Wrappers
  import opened Sequences
  import opened Calendar

  /** `agrees` stands for the match of vendor and PCI vendor number. */
  datatype Gpu = Gpu(agrees: bool, identity: nat)

  /** `textsValid` stands for the checks of the three descriptive strings. */
  datatype Package = Package(target: Gpu, name: Bytes, textsValid: bool, details: Bytes)

  /** `evidenceValid` stands for the checks of the locator and of the signature observation. */
  datatype Artifact = Artifact(target: Gpu, evidenceValid: bool, details: Bytes)

  datatype Input = Input(gpu: Gpu, packages: seq<Package>, artifact: Artifact, extensions: Bytes)

  datatype PackageSet = PackageSet(gpu: Gpu, packages: seq<Package>)

  /** SHA-256 over the serialized value. */
  datatype Digests = Digests(ofInput: Input -> Bytes, ofSet: PackageSet -> Bytes)

  datatype DriverError =
    | VendorMismatch | PackageGpuMismatch | InvalidText | NoPackages | DuplicatePublishedName | InvalidArtifact
    | InvalidPlan | NonCanonicalPackageSet
    | CapturePlanMismatch | SafeModeNotConfirmed | StaleCapture | InvalidTimestamp | InvalidPolicy
    | InvalidRemovalEvidence | AdapterFailed

  // Names in order

  lemma {:induction false} LessIsTotal(a: Bytes, b: Bytes)
    ensures Less(a, b) || a == b || Less(b, a)
    ensures !(Less(a, b) && Less(b, a)) && !Less(a, a)
  {
    if a != [] && b != [] {
      LessIsTotal(a[1..], b[1..]);
      assert a == [a[0]] + a[1..] && b == [b[0]] + b[1..];
    }
    if a != [] {
      LessIsIrreflexive(a);
    }
  }

  lemma {:induction false} LessIsIrreflexive(a: Bytes)
    ensures !Less(a, a)
  {
    if a != [] {
      LessIsIrreflexive(a[1..]);
    }
  }

  lemma {:induction false} LessIsTransitive(a: Bytes, b: Bytes, c: Bytes)
    requires Less(a, b) && Less(b, c)
    ensures Less(a, c)
  {
    if a != [] && a[0] == b[0] == c[0] {
      LessIsTransitive(a[1..], b[1..], c[1..]);
    }
  }

  ghost predicate Ascending(ps: seq<Package>) {
    forall i, j | 0 <= i < j < |ps| :: Less(ps[i].name, ps[j].name)
  }

  ghost predicate NotDescending(ps: seq<Package>) {
    forall i, j | 0 <= i < j < |ps| :: !Less(ps[j].name, ps[i].name)
  }

  ghost predicate DistinctNames(ps: seq<Package>) {
    forall i, j | 0 <= i < j < |ps| :: ps[i].name != ps[j].name
  }

  function Insert(p: Package, ps: seq<Package>): seq<Package> {
    if ps == [] then [p]
    else if Less(ps[0].name, p.name) then [ps[0]] + Insert(p, ps[1..])
    else [p] + ps
  }

  /** A stable sort by published name. */
  function SortByName(ps: seq<Package>): seq<Package> {
    if ps == [] then [] else Insert(ps[0], SortByName(ps[1..]))
  }

  lemma {:induction false} InsertPermutes(p: Package, ps: seq<Package>)
    ensures multiset(Insert(p, ps)) == multiset([p]) + multiset(ps)
  {
    if ps != [] {
      assert ps == [ps[0]] + ps[1..];
      InsertPermutes(p, ps[1..]);
    }
  }

  lemma {:induction false} SortPermutes(ps: seq<Package>)
    ensures multiset(SortByName(ps)) == multiset(ps)
  {
    if ps != [] {
      assert ps == [ps[0]] + ps[1..];
      SortPermutes(ps[1..]);
      InsertPermutes(ps[0], SortByName(ps[1..]));
    }
  }

  lemma FirstIsLeast(p: Package, ps: seq<Package>)
    requires NotDescending(ps) && forall q | q in ps :: !Less(q.name, p.name)
    ensures NotDescending([p] + ps)
  {
    var all := [p] + ps;
    forall i, j | 0 <= i < j < |all| ensures !Less(all[j].name, all[i].name) {
      assert all[j] == ps[j - 1] && ps[j - 1] in ps;
      if i > 0 { assert all[i] == ps[i - 1]; }
    }
  }

  lemma {:induction false} InsertSorts(p: Package, ps: seq<Package>)
    requires NotDescending(ps)
    ensures NotDescending(Insert(p, ps))
  {
    if ps != [] {
      var first, rest := ps[0], ps[1..];
      if Less(first.name, p.name) {
        InsertSorts(p, rest);
        InsertPermutes(p, rest);
        LessIsTotal(first.name, p.name);
        forall q | q in Insert(p, rest) ensures !Less(q.name, first.name) {
          assert q in multiset(Insert(p, rest));
          assert q == p || q in rest;
          if q in rest {
            var i :| 0 <= i < |rest| && rest[i] == q;
            assert ps[i + 1] == q;
          }
        }
        FirstIsLeast(first, Insert(p, rest));
      } else {
        forall q | q in ps ensures !Less(q.name, p.name) {
          var i :| 0 <= i < |ps| && ps[i] == q;
          if i > 0 { assert !Less(ps[i].name, ps[0].name); }
          NotAfter(p.name, first.name, q.name);
        }
        FirstIsLeast(p, ps);
      }
    }
  }

  lemma NotAfter(a: Bytes, b: Bytes, c: Bytes)
    requires !Less(b, a) && (!Less(c, b) || c == b)
    ensures !Less(c, a)
  {
    LessIsTotal(a, b);
    LessIsTotal(b, c);
    if Less(c, a) {
      if Less(b, c) { LessIsTransitive(b, c, a); }
    }
  }

  lemma {:induction false} SortSorts(ps: seq<Package>)
    ensures NotDescending(SortByName(ps))
  {
    if ps != [] {
      SortSorts(ps[1..]);
      InsertSorts(ps[0], SortByName(ps[1..]));
    }
  }

  lemma SameFirst(a: seq<Package>, b: seq<Package>)
    requires NotDescending(a) && NotDescending(b) && DistinctNames(a) && multiset(a) == multiset(b)
    requires a != [] && b != []
    ensures a[0] == b[0]
  {
    assert a[0] in multiset(a) && b[0] in multiset(b);
    var i :| 0 <= i < |b| && b[i] == a[0];
    var j :| 0 <= j < |a| && a[j] == b[0];
    if i > 0 && j > 0 {
      assert !Less(b[i].name, b[0].name) && !Less(a[j].name, a[0].name);
      LessIsTotal(a[0].name, b[0].name);
    }
  }

  lemma TailIsSorted(a: seq<Package>)
    requires a != [] && NotDescending(a) && DistinctNames(a)
    ensures NotDescending(a[1..]) && DistinctNames(a[1..])
    ensures multiset(a) == multiset{a[0]} + multiset(a[1..])
  {
    assert a == [a[0]] + a[1..];
    forall i, j | 0 <= i < j < |a[1..]| ensures !Less(a[1..][j].name, a[1..][i].name) && a[1..][i].name != a[1..][j].name {
      assert !Less(a[j + 1].name, a[i + 1].name) && a[i + 1].name != a[j + 1].name;
    }
  }

  lemma CancelOne<T>(x: T, a: multiset<T>, b: multiset<T>)
    requires multiset{x} + a == multiset{x} + b
    ensures a == b
  {
    assert a == (multiset{x} + a) - multiset{x};
    assert b == (multiset{x} + b) - multiset{x};
  }

  /** Packages with distinct names have one sorted order only. */
  lemma {:induction false} SortedOrderIsUnique(a: seq<Package>, b: seq<Package>)
    requires NotDescending(a) && NotDescending(b) && DistinctNames(a) && DistinctNames(b)
    requires multiset(a) == multiset(b)
    ensures a == b
  {
    hide NotDescending, DistinctNames;
    assert |multiset(a)| == |a| && |multiset(b)| == |b|;
    if a != [] {
      SameFirst(a, b);
      TailIsSorted(a);
      TailIsSorted(b);
      CancelOne(a[0], multiset(a[1..]), multiset(b[1..]));
      SortedOrderIsUnique(a[1..], b[1..]);
      assert a == [a[0]] + a[1..] && b == [b[0]] + b[1..];
    }
  }

  lemma SortIsAscending(ps: seq<Package>)
    requires DistinctNames(ps)
    ensures Ascending(SortByName(ps))
  {
    SortSorts(ps);
    SortPermutes(ps);
    NamesArePermuted(ps, SortByName(ps));
    var s := SortByName(ps);
    forall i, j | 0 <= i < j < |s| ensures Less(s[i].name, s[j].name) {
      LessIsTotal(s[i].name, s[j].name);
    }
  }

  lemma NamesArePermuted(a: seq<Package>, b: seq<Package>)
    requires DistinctNames(a) && multiset(a) == multiset(b)
    ensures DistinctNames(b)
  {
    forall i, j | 0 <= i < j < |b| ensures b[i].name != b[j].name {
      assert b[i] in multiset(b) && b[j] in multiset(b);
      var k :| 0 <= k < |a| && a[k] == b[i];
      var l :| 0 <= l < |a| && a[l] == b[j];
      if b[i] == b[j] {
        assert b == b[..j] + [b[j]] + b[j + 1..];
        assert b[i] in b[..j];
        assert multiset(b)[b[i]] >= 2;
        assert Distinct(a);
        CountDistinct(a, b[i]);
      } else {
        assert k < l ==> a[k].name != a[l].name;
        assert l < k ==> a[l].name != a[k].name;
      }
    }
  }

  // Validation

  function CheckPackage(p: Package, gpu: Gpu): Result<(), DriverError> {
    if !p.target.agrees then Err(VendorMismatch)
    else if p.target != gpu then Err(PackageGpuMismatch)
    else if !p.textsValid then Err(InvalidText)
    else Ok(())
  }

  /** Every package is for this very GPU, whose vendor agrees, and its texts are good. */
  ghost predicate AllFit(ps: seq<Package>, gpu: Gpu) {
    forall p | p in ps :: p.target == gpu && p.target.agrees && p.textsValid
  }

  ghost predicate ValidInput(input: Input) {
    && input.gpu.agrees
    && input.packages != []
    && AllFit(input.packages, input.gpu)
    && DistinctNames(input.packages)
    && input.artifact.target == input.gpu && input.artifact.evidenceValid
  }

  method ValidateInput(input: Input) returns (r: Result<(), DriverError>)
    ensures r.Ok? <==> ValidInput(input)
    ensures r == Err(DuplicatePublishedName) ==> !DistinctNames(input.packages)
  {
    if !input.gpu.agrees { return Err(VendorMismatch); }
    if input.packages == [] { return Err(NoPackages); }
    var ps := input.packages;
    var names: set<Bytes> := {};
    var i := 0;
    while i < |ps|
      invariant 0 <= i <= |ps|
      invariant AllFit(ps[..i], input.gpu) && DistinctNames(ps[..i])
      invariant forall n :: n in names <==> exists k | 0 <= k < i :: ps[k].name == n
    {
      var checked := CheckPackage(ps[i], input.gpu);
      if checked.Err? { return Err(checked.error); }
      if ps[i].name in names { return Err(DuplicatePublishedName); }
      names := names + {ps[i].name};
      assert ps[..i + 1] == ps[..i] + [ps[i]];
      i := i + 1;
    }
    assert ps[..i] == ps;
    if !input.artifact.target.agrees || input.artifact.target != input.gpu || !input.artifact.evidenceValid {
      return Err(InvalidArtifact);
    }
    return Ok(());
  }

  ghost predicate Canonical(s: PackageSet) {
    s.gpu.agrees && AllFit(s.packages, s.gpu) && Ascending(s.packages)
  }

  /** Accepts exactly the sets in strictly ascending name order. */
  method ValidateSet(s: PackageSet) returns (r: Result<(), DriverError>)
    ensures r.Ok? <==> Canonical(s)
    ensures r == Err(NonCanonicalPackageSet) ==> !Ascending(s.packages)
  {
    if !s.gpu.agrees { return Err(VendorMismatch); }
    var ps := s.packages;
    var names: set<Bytes> := {};
    var previous: Option<Bytes> := None;
    var i := 0;
    while i < |ps|
      invariant 0 <= i <= |ps|
      invariant AllFit(ps[..i], s.gpu) && Ascending(ps[..i])
      invariant previous == if i == 0 then None else Some(ps[i - 1].name)
      invariant forall n :: n in names <==> exists k | 0 <= k < i :: ps[k].name == n
    {
      var p := ps[i];
      var checked := CheckPackage(p, s.gpu);
      if checked.Err? { return Err(checked.error); }
      if i > 0 { LessIsTotal(previous.value, p.name); }
      if p.name in names || (previous.Some? && !Less(previous.value, p.name)) {
        LastMustGrow(ps, i);
        return Err(NonCanonicalPackageSet);
      }
      names := names + {p.name};
      previous := Some(p.name);
      AscendingStep(ps, i);
      i := i + 1;
    }
    assert ps[..i] == ps;
    return Ok(());
  }

  lemma LastMustGrow(ps: seq<Package>, i: nat)
    requires i < |ps|
    requires (i > 0 && !Less(ps[i - 1].name, ps[i].name)) || exists k | 0 <= k < i :: ps[k].name == ps[i].name
    ensures !Ascending(ps)
  {
    if Ascending(ps) && exists k | 0 <= k < i :: ps[k].name == ps[i].name {
      var k :| 0 <= k < i && ps[k].name == ps[i].name;
      LessIsIrreflexive(ps[i].name);
    }
  }

  lemma AscendingStep(ps: seq<Package>, i: nat)
    requires i < |ps| && Ascending(ps[..i]) && (i > 0 ==> Less(ps[i - 1].name, ps[i].name))
    ensures Ascending(ps[..i + 1])
  {
    var all := ps[..i + 1];
    forall j, k | 0 <= j < k < |all| ensures Less(all[j].name, all[k].name) {
      if k < i {
        assert ps[..i][j] == all[j] && ps[..i][k] == all[k];
      } else if j < i - 1 {
        assert Less(ps[..i][j].name, ps[..i][i - 1].name);
        LessIsTransitive(all[j].name, ps[i - 1].name, all[k].name);
      }
    }
  }

  // The plan

  datatype PlanStep = P1_18 | P1_19 | P2_2 | P3_1

  datatype Action =
    | InspectExactGpu(gpu: Gpu)
    | RecordExactPackages(packages: seq<Package>)
    | ProposePackageCleanup(names: seq<Bytes>)
    | ProposeSignedArtifactInstall(artifact: Artifact)

  datatype Entry = Entry(step: PlanStep, action: Action)

  const SCHEMA_VERSION := 1

  datatype Plan = Plan(schema: nat, readOnly: bool, gpu: Gpu, digest: Bytes, entries: seq<Entry>)
  {
    predicate IsValid() {
      && schema == SCHEMA_VERSION && readOnly && gpu.agrees
      && |entries| == 4
      && entries[0].step == P1_18 && entries[1].step == P1_19 && entries[2].step == P2_2 && entries[3].step == P3_1
    }
  }

  /** A read-only plan of this schema for a GPU whose vendor agrees, with its four steps in order. */
  ghost predicate IsDryRunPlan(plan: Plan) {
    && plan.schema == 1 && plan.readOnly && plan.gpu.agrees && |plan.entries| == 4
    && (plan.entries[0].step, plan.entries[1].step, plan.entries[2].step, plan.entries[3].step) == (P1_18, P1_19, P2_2, P3_1)
  }

  function NamesOf(ps: seq<Package>): (r: seq<Bytes>)
    ensures |r| == |ps| && forall i | 0 <= i < |r| :: r[i] == ps[i].name
  {
    seq(|ps|, i requires 0 <= i < |ps| => ps[i].name)
  }

  function PlanFor(input: Input, sorted: seq<Package>, digests: Digests): Plan {
    Plan(SCHEMA_VERSION, true, input.gpu,
         digests.ofInput(Input(input.gpu, sorted, input.artifact, input.extensions)),
         [Entry(P1_18, InspectExactGpu(input.gpu)),
          Entry(P1_19, RecordExactPackages(sorted)),
          Entry(P2_2, ProposePackageCleanup(NamesOf(sorted))),
          Entry(P3_1, ProposeSignedArtifactInstall(input.artifact))])
  }

  /** What a plan proposes for an input: its names, each once and ascending byte by byte, its packages
      under these names, its GPU and its artifact, and nothing that is not read-only. */
  ghost predicate Proposes(plan: Plan, input: Input) {
    && |plan.entries| == 4 && plan.readOnly && plan.gpu == input.gpu
    && plan.entries[0] == Entry(P1_18, InspectExactGpu(input.gpu))
    && plan.entries[1].step == P1_19 && plan.entries[1].action.RecordExactPackages?
    && plan.entries[2].step == P2_2 && plan.entries[2].action.ProposePackageCleanup?
    && plan.entries[3] == Entry(P3_1, ProposeSignedArtifactInstall(input.artifact))
    && var packages, names := plan.entries[1].action.packages, plan.entries[2].action.names;
    && multiset(packages) == multiset(input.packages)
    && |names| == |packages| && (forall i | 0 <= i < |names| :: names[i] == packages[i].name)
    && (forall n :: n in names <==> exists p :: p in input.packages && p.name == n)
    && forall i, j | 0 <= i < j < |names| :: Precedes(names[i], names[j])
  }

  lemma NamesAreThose(input: Input, sorted: seq<Package>, n: Bytes)
    requires multiset(sorted) == multiset(input.packages)
    ensures n in NamesOf(sorted) <==> exists p :: p in input.packages && p.name == n
  {
    var names := NamesOf(sorted);
    if n in names {
      var i :| 0 <= i < |names| && names[i] == n;
      assert sorted[i] in multiset(sorted);
      assert sorted[i] in input.packages;
    }
    if p :| p in input.packages && p.name == n {
      assert p in multiset(input.packages);
      var i :| 0 <= i < |sorted| && sorted[i] == p;
      assert names[i] == n;
    }
  }

  lemma NamesAscend(sorted: seq<Package>, i: nat, j: nat)
    requires Ascending(sorted) && i < j < |sorted|
    ensures Precedes(NamesOf(sorted)[i], NamesOf(sorted)[j])
  {
    var a, b := NamesOf(sorted)[i], NamesOf(sorted)[j];
    assert a == sorted[i].name && b == sorted[j].name && Less(sorted[i].name, sorted[j].name);
    LessIff(a, b);
  }

  lemma PlanProposes(input: Input, sorted: seq<Package>, digests: Digests)
    requires Ascending(sorted) && multiset(sorted) == multiset(input.packages)
    ensures Proposes(PlanFor(input, sorted, digests), input)
  {
    hide Less, Precedes, Ascending;
    var names := NamesOf(sorted);
    var plan := PlanFor(input, sorted, digests);
    assert plan.entries[1].action.packages == sorted && plan.entries[2].action.names == names;
    forall n ensures n in names <==> exists p :: p in input.packages && p.name == n {
      NamesAreThose(input, sorted, n);
    }
    forall i, j | 0 <= i < j < |names| ensures Precedes(names[i], names[j]) {
      NamesAscend(sorted, i, j);
    }
  }

  method GeneratePlan(input: Input, digests: Digests) returns (r: Result<Plan, DriverError>)
    ensures r.Ok? <==> ValidInput(input)
    ensures r.Ok? ==>
              && r.value == PlanFor(input, SortByName(input.packages), digests)
              && IsDryRunPlan(r.value) && r.value.gpu == input.gpu
              && exists sorted :: Ascending(sorted) && multiset(sorted) == multiset(input.packages)
                                  && r.value == PlanFor(input, sorted, digests)
    ensures r.Ok? ==> Proposes(r.value, input)
  {
    var checked := ValidateInput(input);
    if checked.Err? { return Err(checked.error); }
    var packages := SortByName(input.packages);
    SortIsAscending(input.packages);
    SortPermutes(input.packages);
    PlanProposes(input, packages, digests);
    return Ok(PlanFor(input, packages, digests));
  }

  /** Inputs that differ in package order only are valid together, and give the same plan and fingerprint. */
  lemma PlanIgnoresOrder(a: Input, b: Input, digests: Digests)
    requires a.(packages := b.packages) == b && multiset(a.packages) == multiset(b.packages)
    ensures ValidInput(a) <==> ValidInput(b)
    ensures ValidInput(a) ==>
              PlanFor(a, SortByName(a.packages), digests) == PlanFor(b, SortByName(b.packages), digests)
  {
    SameInputsAreValid(a, b);
    SameInputsAreValid(b, a);
    if ValidInput(a) {
      SortSorts(a.packages);
      SortSorts(b.packages);
      SortPermutes(a.packages);
      SortPermutes(b.packages);
      NamesArePermuted(a.packages, SortByName(a.packages));
      NamesArePermuted(a.packages, SortByName(b.packages));
      SortedOrderIsUnique(SortByName(a.packages), SortByName(b.packages));
    }
  }

  lemma SameInputsAreValid(a: Input, b: Input)
    requires a.(packages := b.packages) == b && multiset(a.packages) == multiset(b.packages)
    ensures ValidInput(a) ==> ValidInput(b)
  {
    if ValidInput(a) {
      NamesArePermuted(a.packages, b.packages);
      forall p | p in b.packages ensures p.target == a.gpu && p.target.agrees && p.textsValid {
        assert p in multiset(b.packages);
        assert p in a.packages;
      }
      assert a.packages[0] in multiset(b.packages);
    }
  }
}
