/** Crash behaviour of the two benchmark bundles. */
module BenchmarkProofs {
  import opened Wrappers
  import opened Catalog
  import opened ProgressRecord
  import opened Orchestration
  import opened Benchmark

  // Filtering

  lemma {:induction false} FilterAppend(a: seq<Record>, b: seq<Record>, p: Record -> bool)
    ensures Filter(a + b, p) == Filter(a, p) + Filter(b, p)
  {
    if a == [] {
      assert a + b == b;
    } else {
      FilterAppend(a[1..], b, p);
      assert (a + b)[0] == a[0] && (a + b)[1..] == a[1..] + b;
      var head := if p(a[0]) then [a[0]] else [];
      assert Filter(a, p) == head + Filter(a[1..], p);
      assert Filter(a + b, p) == head + Filter(a[1..] + b, p);
      assert head + (Filter(a[1..], p) + Filter(b, p)) == head + Filter(a[1..], p) + Filter(b, p);
    }
  }

  lemma {:induction false} FilterEmptyIff(h: seq<Record>, p: Record -> bool)
    ensures Filter(h, p) == [] <==> forall r | r in h :: !p(r)
  {
    if h != [] {
      FilterEmptyIff(h[1..], p);
      assert h == [h[0]] + h[1..];
    }
  }

  lemma {:induction false} FilterSound(h: seq<Record>, p: Record -> bool)
    ensures forall r | r in Filter(h, p) :: r in h && p(r)
  {
    if h != [] {
      FilterSound(h[1..], p);
    }
  }

  /** Filtering by a stronger predicate may first filter by the weaker one. */
  lemma {:induction false} FilterTwice(h: seq<Record>, weak: Record -> bool, strong: Record -> bool)
    requires forall r: Record :: strong(r) ==> weak(r)
    ensures Filter(Filter(h, weak), strong) == Filter(h, strong)
  {
    if h != [] {
      FilterTwice(h[1..], weak, strong);
      assert Filter(h, weak) == (if weak(h[0]) then [h[0]] else []) + Filter(h[1..], weak);
      FilterAppend(if weak(h[0]) then [h[0]] else [], Filter(h[1..], weak), strong);
      assert Filter([h[0]], strong) == (if strong(h[0]) then [h[0]] else []) + Filter([], strong);
    }
  }

  /** Appending a record drops only old ones: what no record satisfied before, only the new one can. */
  lemma FilterAppended(h: seq<Record>, r: Record, p: Record -> bool)
    requires Filter(h, p) == []
    ensures Filter(Appended(h, r), p) == if p(r) then [r] else []
  {
    var k := Appended(h, r);
    var kept := k[..|k| - 1];
    assert k == kept + [r];
    FilterEmptyIff(h, p);
    FilterEmptyIff(kept, p);
    FilterAppend(kept, [r], p);
    assert Filter([r], p) == (if p(r) then [r] else []) + Filter([], p);
  }

  // P1:17

  lemma AppendedIsValid(h: seq<Record>, r: Record)
    requires ValidHistory(h) && ValidHistory([r])
    ensures ValidHistory(Appended(h, r))
  {
    assert r in [r];
  }

  lemma OneBaselineValidates(k: BaselineCommit, r: Record, c: Capture)
    requires k.state.IsValid() && ValidHistory(k.history) && CompleteCapture(c)
    requires Filter(k.history, IsBaseline) == [r] && RecordMatchesCapture(r, c)
    requires k.state.baselineAverage == c.average && k.state.baselineP1 == Some(c.p1)
    requires k.progress.IsCompleted(BASELINE_BENCHMARK) && !k.progress.IsSkipped(BASELINE_BENCHMARK)
    requires BASELINE_BENCHMARK in k.progress.timestamps && k.progress.timestamps[BASELINE_BENCHMARK] == r.timestamp
    ensures ValidateBaseline(k.state, k.progress, k.history) == Ok(r)
  {
    var strong := StatedBaseline(c.average, c.p1);
    FilterSound(k.history, IsBaseline);
    assert r in Filter(k.history, IsBaseline);
    FilterTwice(k.history, IsBaseline, strong);
    assert Filter([r], strong) == (if strong(r) then [r] else []) + Filter([], strong);
  }

  ghost predicate BaselineWritten(k: BaselineCommit, r: Record, c: Capture) {
    && k.state.IsValid() && ValidHistory(k.history) && CompleteCapture(c)
    && Filter(k.history, IsBaseline) == [r] && RecordMatchesCapture(r, c)
    && k.state.baselineAverage == c.average && k.state.baselineP1 == Some(c.p1)
    && k.progress.IsCompleted(BASELINE_BENCHMARK) && !k.progress.IsSkipped(BASELINE_BENCHMARK)
    && BASELINE_BENCHMARK in k.progress.timestamps && k.progress.timestamps[BASELINE_BENCHMARK] == r.timestamp
    && k.captured == r.timestamp
  }

  /** A validated baseline is the only baseline record, and its time is the recorded one. */
  lemma ValidBaselineIs(s: State, p: Progress, h: seq<Record>, r: Record)
    requires ValidateBaseline(s, p, h).Ok? && Filter(h, IsBaseline) == [r]
    ensures p.IsCompleted(BASELINE_BENCHMARK) && !p.IsSkipped(BASELINE_BENCHMARK)
    ensures BASELINE_BENCHMARK in p.timestamps && p.timestamps[BASELINE_BENCHMARK] == r.timestamp
  {
    hide ValidHistory, ValidTimestamp, State.IsValid;
    var strong := StatedBaseline(s.baselineAverage, if s.baselineP1.Some? then s.baselineP1.value else 0.0);
    FilterTwice(h, IsBaseline, strong);
    assert Filter([r], strong) == (if strong(r) then [r] else []) + Filter([], strong);
  }

  /** What a prepared baseline bundle holds. */
  lemma BaselineBundle(s: State, p: Progress, h: seq<Record>, at: string, c: Capture) returns (r: Record)
    requires PrepareBaseline(s, p, h, at, c).Ok?
    ensures BaselineWritten(PrepareBaseline(s, p, h, at, c).value, r, c)
  {
    var k := PrepareBaseline(s, p, h, at, c).value;
    var matching := Filter(h, IsBaseline);
    FilterSound(h, IsBaseline);
    if matching != [] {
      r := matching[0];
      assert r in matching;
      if k.idempotent {
        assert ValidateBaseline(s, p, h).Ok?;
        ValidBaselineIs(s, p, h, r);
      }
    } else {
      r := Record(at, c.average, c.p1, BASELINE_LABEL, c.runs, None, None);
      FilterAppended(h, r, IsBaseline);
      AppendedIsValid(h, r);
    }
  }

  /** With the record written, preparing depends neither on the clock nor, the state
      being the old or the new one, on the state. */
  lemma PreparedFromRecord(s: State, p: Progress, h: seq<Record>, at: string, c: Capture, k: BaselineCommit, r: Record, s': State, later: string)
    requires PrepareBaseline(s, p, h, at, c) == Ok(k) && BaselineWritten(k, r, c) && ValidTimestamp(later)
    requires !p.IsCompleted(BASELINE_BENCHMARK) && (s' == s || s' == k.state)
    ensures PrepareBaseline(s', p, k.history, later, c) == Ok(k)
  {
    hide ValidTimestamp, ValidHistory, ValidateBaseline, Filter;
  }

  lemma PreparedWhenWritten(k: BaselineCommit, r: Record, c: Capture, later: string)
    requires BaselineWritten(k, r, c) && ValidTimestamp(later)
    ensures PrepareBaseline(k.state, k.progress, k.history, later, c)
         == Ok(BaselineCommit(k.state, k.progress, k.history, k.captured, true))
    ensures ValidateBaseline(k.state, k.progress, k.history) == Ok(r)
  {
    hide ValidTimestamp, ValidHistory, ValidateBaseline, Filter;
    OneBaselineValidates(k, r, c);
  }

  lemma PreparedAnyTime(s: State, p: Progress, h: seq<Record>, at: string, c: Capture, later: string)
    requires PrepareBaseline(s, p, h, at, c).Ok? && ValidTimestamp(later)
    ensures PrepareBaseline(s, p, h, later, c).Ok?
    ensures var k := PrepareBaseline(s, p, h, at, c).value;
            if p.IsCompleted(BASELINE_BENCHMARK) then k.idempotent && (k.state, k.progress, k.history) == (s, p, h)
            else !k.idempotent
  {
    hide ValidTimestamp, ValidHistory, ValidateBaseline, Filter;
  }

  /** Preparing again after any prefix of history, state, progress was written
      gives the same three files with the timestamp of the first attempt; after
      all three it only reports that nothing is left to do. */
  lemma BaselineConverges(s: State, p: Progress, h: seq<Record>, at: string, c: Capture, later: string)
    requires PrepareBaseline(s, p, h, at, c).Ok? && ValidTimestamp(later)
    ensures var k := PrepareBaseline(s, p, h, at, c).value;
            && PrepareBaseline(s, p, h, later, c).Ok?
            && PrepareBaseline(s, p, k.history, later, c) == Ok(k)
            && PrepareBaseline(k.state, p, k.history, later, c) == Ok(k)
            && PrepareBaseline(k.state, k.progress, k.history, later, c) == Ok(k.(idempotent := true))
            && ValidateBaseline(k.state, k.progress, k.history).Ok?
            && ValidateBaseline(k.state, k.progress, k.history).value.timestamp == k.captured
  {
    hide PrepareBaseline, ValidateBaseline;
    var k := PrepareBaseline(s, p, h, at, c).value;
    var r := BaselineBundle(s, p, h, at, c);
    PreparedAnyTime(s, p, h, at, c, later);
    PreparedWhenWritten(k, r, c, later);
    if !p.IsCompleted(BASELINE_BENCHMARK) {
      PreparedFromRecord(s, p, h, at, c, k, r, s, later);
      PreparedFromRecord(s, p, h, at, c, k, r, k.state, later);
    }
  }

  /** Once the history is written no other capture can be prepared, whatever the other two files hold. */
  lemma BaselineCaptureIsFixed(
    s: State, p: Progress, h: seq<Record>, at: string, c: Capture,
    s': State, p': Progress, later: string, other: Capture)
    requires PrepareBaseline(s, p, h, at, c).Ok? && other != c
    ensures PrepareBaseline(s', p', PrepareBaseline(s, p, h, at, c).value.history, later, other).Err?
  {
    var r := BaselineBundle(s, p, h, at, c);
    assert !RecordMatchesCapture(r, other);
  }

  // P3:13

  /** What a prepared final bundle holds, in terms of what it was prepared from. */
  lemma FinalBundle(s: State, p: Progress, h: seq<Record>, config: Config, id: Id, at: string, c: Capture)
    requires PrepareFinal(s, p, h, config, id, at, c).Ok?
    ensures var k := PrepareFinal(s, p, h, config, id, at, c).value;
            && s.transaction.Some? && s.transaction.value.id.Some?
            && k.receipt.IsValid() && k.receipt.MatchesCapture(c)
            && k.receipt.captured == at && k.receipt.receiptId == id
            && Some(k.receipt.transactionId) == s.transaction.value.id
            && k.state == Stamped(s, k.receipt) && k.state.IsValid()
            && k.progress == p.Complete(FINAL_BENCHMARK, at)
            && k.history == Appended(h, k.receipt.ToRecord())
            && Filter(k.history, Naming(id, k.receipt.transactionId)) == [k.receipt.ToRecord()]
            && Filter(h, Naming(id, k.receipt.transactionId)) == []
  {
    var k := PrepareFinal(s, p, h, config, id, at, c).value;
    var p := Naming(id, k.receipt.transactionId);
    FilterEmptyIff(h, p);
    FilterAppended(h, k.receipt.ToRecord(), p);
  }

  lemma CompleteKeepsOthers(p: Progress, at: string)
    ensures p.Complete(FINAL_BENCHMARK, at).IsCompleted(DRIVER_INSTALL) == p.IsCompleted(DRIVER_INSTALL)
    ensures EarlierResolved(p) ==> EarlierResolved(p.Complete(FINAL_BENCHMARK, at))
  {
    var q := p.Complete(FINAL_BENCHMARK, at);
    if EarlierResolved(p) {
      forall n | 2 <= n <= 12
        ensures q.IsCompleted(StepId(Three, n)) || q.IsSkipped(StepId(Three, n))
      {
        assert p.IsCompleted(StepId(Three, n)) || p.IsSkipped(StepId(Three, n));
      }
    }
  }

  /** Of the eight ways to mix the old and the new files, only the all-new one
      validates, and only the all-old one can be prepared again. */
  lemma FinalAllOrNothing(
    s: State, p: Progress, h: seq<Record>, config: Config, id: Id, at: string, c: Capture,
    newState: bool, newProgress: bool, newHistory: bool,
    config': Config, id': Id, at': string, c': Capture)
    requires PrepareFinal(s, p, h, config, id, at, c).Ok?
    ensures var k := PrepareFinal(s, p, h, config, id, at, c).value;
            var s' := if newState then k.state else s;
            var p' := if newProgress then k.progress else p;
            var h' := if newHistory then k.history else h;
            && ((newState && newProgress && newHistory) ==> ValidateFinal(s', p', h') == Ok(k.receipt))
            && (!(newState && newProgress && newHistory) ==> ValidateFinal(s', p', h').Err?)
            && ((newState || newProgress || newHistory) ==> PrepareFinal(s', p', h', config', id', at', c').Err?)
  {
    FinalBundle(s, p, h, config, id, at, c);
    CompleteKeepsOthers(p, at);
    var k := PrepareFinal(s, p, h, config, id, at, c).value;
    assert k.receipt.ToRecord() in [k.receipt.ToRecord()];
    FilterSound(k.history, Naming(id, k.receipt.transactionId));
  }

  // Retrying a torn P3:13 bundle

  datatype Disk = Disk(state: State, progress: Progress, history: seq<Record>)

  /** The first `n` of the three writes of a commit happened. */
  function Written(d: Disk, k: FinalCommit, n: nat): Disk {
    Disk(if n >= 2 then k.state else d.state,
         if n >= 3 then k.progress else d.progress,
         if n >= 1 then k.history else d.history)
  }

  /** One run of the final benchmark: it measures under a configuration, draws an
      identity, reads a clock, and stops after `writes` of the three writes. */
  datatype Attempt = Attempt(
    config: Config, capture: Capture, drawn: Result<Id, BenchmarkError>, captured: string, writes: nat)

  function Tried(d: Disk, a: Attempt): Result<Reconciliation, BenchmarkError> {
    Reconcile(d.state, d.progress, d.history, a.config, a.drawn, a.captured, a.capture)
  }

  function After(d: Disk, a: Attempt): Disk {
    match Tried(d, a)
    case Ok(Pending(k)) => Written(d, k, a.writes)
    case _ => d
  }

  function AfterAll(d: Disk, attempts: seq<Attempt>): Disk {
    if attempts == [] then d
    else After(AfterAll(d, attempts[..|attempts| - 1]), attempts[|attempts| - 1])
  }

  function MostWrites(attempts: seq<Attempt>): nat {
    if attempts == [] then 0
    else
      var rest := MostWrites(attempts[..|attempts| - 1]);
      if attempts[|attempts| - 1].writes > rest then attempts[|attempts| - 1].writes else rest
  }

  /** The commit came from this source state and a history without final records. */
  ghost predicate CommitOf(k: FinalCommit, source: State, rest: seq<Record>, d: Disk, config: Config, c: Capture) {
    && PrepareFinal(source, d.progress, rest, config, k.receipt.receiptId, k.receipt.captured, c) == Ok(k)
    && FinalIndices(rest) == []
    && !d.progress.IsCompleted(FINAL_BENCHMARK) && !d.progress.IsSkipped(FINAL_BENCHMARK)
    && (d.state.receipt.Some? ==>
          && d.state.receipt.value == k.receipt
          && PartialStateFits(d.state, k.receipt, c))
    && source == Source(d.state)
  }

  ghost predicate NoFinal(h: seq<Record>) { forall r | r in h :: !IsFinal(r) }

  lemma {:induction false} FinalIndicesEmptyIff(h: seq<Record>, from: nat)
    requires from <= |h|
    ensures FinalIndices(h, from) == [] <==> NoFinal(h[from..])
    decreases |h| - from
  {
    hide IsFinal, NoFinal;
    if from < |h| {
      FinalIndicesEmptyIff(h, from + 1);
      assert h[from..] == [h[from]] + h[from + 1..];
      NoFinalCons(h[from], h[from + 1..]);
    } else {
      NoFinalNone(h[from..]);
    }
  }

  lemma {:induction false} FinalIndicesOneIff(h: seq<Record>, from: nat, i: nat)
    requires from <= i < |h|
    ensures FinalIndices(h, from) == [i] <==> IsFinal(h[i]) && NoFinal(h[from..i]) && NoFinal(h[i + 1..])
    decreases i - from
  {
    hide IsFinal, NoFinal;
    if from < i {
      FinalIndicesOneIff(h, from + 1, i);
      assert h[from..i] == [h[from]] + h[from + 1..i];
      NoFinalCons(h[from], h[from + 1..i]);
      assert IsFinal(h[from]) ==> FinalIndices(h, from)[0] == from;
      assert !IsFinal(h[from]) ==> FinalIndices(h, from) == FinalIndices(h, from + 1);
    } else {
      FinalIndicesEmptyIff(h, from + 1);
      NoFinalNone(h[from..i]);
      var later := FinalIndices(h, from + 1);
      assert IsFinal(h[from]) ==> FinalIndices(h, from) == [from] + later;
      assert !IsFinal(h[from]) ==> FinalIndices(h, from) == later;
      assert later != [] ==> later[0] > from;
      assert h[i + 1..] == h[from + 1..];
    }
  }

  lemma NoFinalCons(r: Record, rest: seq<Record>)
    ensures NoFinal([r] + rest) <==> !IsFinal(r) && NoFinal(rest)
  {
    hide IsFinal;
    assert r in [r] + rest;
    assert forall x | x in rest :: x in [r] + rest;
  }

  lemma NoFinalNone(none: seq<Record>)
    requires |none| == 0
    ensures NoFinal(none)
  {
  }

  lemma ReproducedCommit(d: Disk, rest: seq<Record>, config: Config, id: Id, at: string, c: Capture)
    requires d.state.receipt.Some? ==> d.state.transaction.Some? && PartialStateFits(d.state, d.state.receipt.value, c)
    requires Reproduced(d.state, PrepareFinal(Source(d.state), d.progress, rest, config, id, at, c)).Ok?
    requires FinalIndices(rest) == []
    requires !d.progress.IsCompleted(FINAL_BENCHMARK) && !d.progress.IsSkipped(FINAL_BENCHMARK)
    ensures var k := Reproduced(d.state, PrepareFinal(Source(d.state), d.progress, rest, config, id, at, c)).value.commit;
            CommitOf(k, Source(d.state), rest, d, config, c)
  {
    hide FinalIndices, PrepareFinal;
    FinalBundle(Source(d.state), d.progress, rest, config, id, at, c);
  }

  lemma PendingCommit(d: Disk, a: Attempt) returns (source: State, rest: seq<Record>)
    requires Tried(d, a).Ok? && Tried(d, a).value.Pending?
    ensures CommitOf(Tried(d, a).value.commit, source, rest, d, a.config, a.capture)
  {
    hide FinalIndices, PrepareFinal, CommitOf, Reproduced;
    source := Source(d.state);
    var indices := FinalIndices(d.history);
    if indices == [] {
      rest := d.history;
      var id := if d.state.receipt.Some? then d.state.receipt.value.receiptId else a.drawn.value;
      var at := if d.state.receipt.Some? then d.state.receipt.value.captured else a.captured;
      ReproducedCommit(d, rest, a.config, id, at, a.capture);
    } else {
      rest := Without(d.history, indices[0]);
      TrimmedHasNoFinal(d.history, indices[0]);
      var record := d.history[indices[0]];
      ReproducedCommit(d, rest, a.config, record.receiptId.value, record.timestamp, a.capture);
    }
  }

  lemma TrimmedHasNoFinal(h: seq<Record>, i: nat)
    requires i < |h| && |FinalIndices(h)| == 1 && FinalIndices(h)[0] == i
    ensures FinalIndices(Without(h, i)) == []
  {
    hide FinalIndices;
    var rest := Without(h, i);
    FinalIndicesOneIff(h, 0, i);
    assert h[0..i] == h[..i];
    assert rest[0..] == rest;
    FinalIndicesEmptyIff(rest, 0);
  }

  /** Trimming the record that a commit appended gives a history it would append to again. */
  lemma AppendedAgain(rest: seq<Record>, r: Record)
    requires FinalIndices(rest) == [] && IsFinal(r)
    ensures var k := Appended(rest, r);
            && |k| > 0 && FinalIndices(k) == [|k| - 1] && k[|k| - 1] == r
            && (forall x | x in Without(k, |k| - 1) :: x in rest)
            && Appended(Without(k, |k| - 1), r) == k
  {
    hide FinalIndices;
    var k := Appended(rest, r);
    var last := |k| - 1;
    assert rest[0..] == rest;
    FinalIndicesEmptyIff(rest, 0);
    assert k[0..last] == rest[|rest| - last..];
    FinalIndicesOneIff(k, 0, last);
    assert Without(k, last) == k[0..last];
    assert Without(k, last) + [r] == k;
  }

  /** The commit with another frame cap, which the history record does not hold. */
  function Recapped(k: FinalCommit, cap: nat): FinalCommit {
    var receipt := k.receipt.(cap := cap);
    k.(receipt := receipt, state := k.state.(cap := cap, receipt := Some(receipt)))
  }

  /** The cap that an attempt measures under its configuration, if it sustains one. */
  function CapOf(config: Config, c: Capture): Option<nat> {
    if config.valid then MeasuredCap(config.strategy, c) else None
  }

  /** Preparing depends on the state only through what it does not overwrite, on the
      history only through its final records and its tail, and on the configuration
      only through the cap. */
  lemma PrepareAgain(
    source: State, other: State, p: Progress, rest: seq<Record>, trimmed: seq<Record>,
    config: Config, k: FinalCommit, c: Capture, config': Config, cap: nat)
    requires PrepareFinal(source, p, rest, config, k.receipt.receiptId, k.receipt.captured, c) == Ok(k)
    requires k.state.transaction.Some? && (other == source || other == Unstamped(Recapped(k, cap).state))
    requires forall r | r in trimmed :: r in rest
    requires Appended(trimmed, k.receipt.ToRecord()) == k.history
    ensures var again := PrepareFinal(other, p, trimmed, config', k.receipt.receiptId, k.receipt.captured, c);
            match CapOf(config', c)
            case None => again.Err?
            case Some(x) => again == Ok(Recapped(k, x))
  {
  }

  /** A written record is reconciled by preparing from the history without it. */
  lemma RecordReconciles(s: State, p: Progress, h: seq<Record>, k: FinalCommit, config: Config, i: nat, c: Capture)
    requires i < |h| && h[i] == k.receipt.ToRecord()
    requires s.IsValid() && s.transaction.Some? && s.transaction.value.id == Some(k.receipt.transactionId)
    requires k.receipt.MatchesCapture(c) && k.receipt.IsValid()
    requires s.receipt.Some? ==> s.receipt.value.ToRecord() == k.receipt.ToRecord()
    requires var again := PrepareFinal(Source(s), p, Without(h, i), config, k.receipt.receiptId, k.receipt.captured, c);
             again.Ok? ==> again.value.receipt.ToRecord() == k.receipt.ToRecord()
    ensures ReconcileRecord(s, p, h, config, i, c) ==
            Reproduced(s, PrepareFinal(Source(s), p, Without(h, i), config, k.receipt.receiptId, k.receipt.captured, c))
  {
    hide PrepareFinal, Without, Source, State.IsValid;
  }

  /** Reconciling a written history goes to its one final record. */
  lemma HistoryReconciles(s: State, p: Progress, h: seq<Record>, a: Attempt)
    requires |h| > 0 && FinalIndices(h) == [|h| - 1]
    requires !p.IsCompleted(FINAL_BENCHMARK) && !p.IsSkipped(FINAL_BENCHMARK)
    requires s.IsValid()
    requires s.receipt.Some? ==> s.transaction.Some? && PartialStateFits(s, s.receipt.value, a.capture)
    ensures Reconcile(s, p, h, a.config, a.drawn, a.captured, a.capture)
         == ReconcileRecord(s, p, h, a.config, |h| - 1, a.capture)
  {
    hide ReconcileRecord, Reproduced, PrepareFinal, ValidateFinal, FinalIndices, State.IsValid, PartialStateFits,
      PrepareBaseline, ValidateBaseline, Filter, ValidTimestamp, Receipt.IsValid, Unstamped, Stamped, Source;
    assert FinalIndices(h)[0] == |h| - 1;
  }

  /** The state file decides the cap once it holds a receipt. */
  predicate CapIsFixed(d: Disk, n: nat) { d.state.receipt.Some? || n >= 2 }

  /** What is on the disk after one or two of the writes of a commit. */
  lemma StateAfterWrites(
    d: Disk, n: nat, cap: nat, k: FinalCommit, source: State, rest: seq<Record>, config: Config, c: Capture)
    requires CommitOf(k, source, rest, d, config, c) && 1 <= n <= 2
    requires d.state.receipt.Some? ==> cap == k.receipt.cap
    ensures var e := Written(d, Recapped(k, cap), n);
            && e.progress == d.progress && e.history == k.history
            && e.state.IsValid() && e.state.transaction.Some?
            && e.state.transaction.value.id == Some(k.receipt.transactionId)
            && e.state.receipt == (if CapIsFixed(d, n) then Some(k.receipt.(cap := cap)) else None)
            && (e.state.receipt.Some? ==> PartialStateFits(e.state, e.state.receipt.value, c))
            && (Source(e.state) == source || Source(e.state) == Unstamped(Recapped(k, cap).state))
            && k.state.transaction.Some?
  {
    hide FinalIndices, Appended, ValidTimestamp, Filter;
    FinalBundle(source, d.progress, rest, config, k.receipt.receiptId, k.receipt.captured, c);
  }

  /** What an attempt with the first capture does to a torn bundle: it prepares the
      same bundle under its own cap, unless the stored receipt holds another one. */
  lemma CommitReconciles(
    d: Disk, n: nat, cap: nat, k: FinalCommit, source: State, rest: seq<Record>, config: Config, a: Attempt)
    requires CommitOf(k, source, rest, d, config, a.capture) && 1 <= n <= 2
    requires d.state.receipt.Some? ==> cap == k.receipt.cap
    ensures var r := Tried(Written(d, Recapped(k, cap), n), a);
            match CapOf(a.config, a.capture)
            case None => r.Err?
            case Some(x) => if CapIsFixed(d, n) && x != cap then r.Err? else r == Ok(Pending(Recapped(k, x)))
  {
    hide PrepareFinal, FinalIndices, Reconcile, Without, Stamped, Unstamped, PartialStateFits, State.IsValid, Appended,
      Source, ValidTimestamp, MeasuredCap;
    var c := a.capture;
    var e := Written(d, Recapped(k, cap), n);
    StateAfterWrites(d, n, cap, k, source, rest, config, c);
    var r := k.receipt.ToRecord();
    var last := |k.history| - 1;
    FinalBundle(source, d.progress, rest, config, k.receipt.receiptId, k.receipt.captured, c);
    AppendedAgain(rest, r);
    PrepareAgain(source, Source(e.state), d.progress, rest, Without(k.history, last), config, k, c, a.config, cap);
    RecordReconciles(e.state, d.progress, k.history, k, a.config, last, c);
    HistoryReconciles(e.state, d.progress, k.history, a);
  }

  /** The complete bundle reports its receipt, under any configuration. */
  lemma CommitCompletes(
    d: Disk, cap: nat, k: FinalCommit, source: State, rest: seq<Record>, config: Config, a: Attempt)
    requires CommitOf(k, source, rest, d, config, a.capture)
    ensures Tried(Written(d, Recapped(k, cap), 3), a) == Ok(Complete(Recapped(k, cap).receipt))
  {
    FinalBundle(source, d.progress, rest, config, k.receipt.receiptId, k.receipt.captured, a.capture);
    FinalAllOrNothing(source, d.progress, rest, config, k.receipt.receiptId, k.receipt.captured, a.capture,
                      true, true, true, config, k.receipt.receiptId, k.receipt.captured, a.capture);
  }

  /** Once the history is written no other capture is accepted, whatever the other
      two files hold and whatever the configuration is. */
  lemma FinalCaptureIsFixed(
    k: FinalCommit, source: State, rest: seq<Record>, d: Disk, config: Config, c: Capture,
    s: State, p: Progress, a: Attempt)
    requires CommitOf(k, source, rest, d, config, c) && a.capture != c
    ensures Reconcile(s, p, k.history, a.config, a.drawn, a.captured, a.capture).Err?
  {
    hide PrepareFinal, FinalIndices, Without, Appended, Filter, State.IsValid, ValidTimestamp, Source;
    FinalBundle(source, d.progress, rest, config, k.receipt.receiptId, k.receipt.captured, c);
    var r := k.receipt.ToRecord();
    AppendedAgain(rest, r);
    assert FinalIndices(k.history)[0] == |k.history| - 1;
    if p.IsCompleted(FINAL_BENCHMARK) && ValidateFinal(s, p, k.history).Ok? {
      ValidatedCapture(s, p, k.history, r);
    }
  }

  /** A bundle that validates repeats the one final record of its history. */
  lemma ValidatedCapture(s: State, p: Progress, h: seq<Record>, r: Record)
    requires |h| > 0 && FinalIndices(h) == [|h| - 1] && h[|h| - 1] == r
    requires ValidateFinal(s, p, h).Ok?
    ensures ValidateFinal(s, p, h).value.ToRecord() == r
  {
    hide FinalIndices, ValidateFinal, Filter, IsFinal, Receipt.ToRecord;
    ValidatedMatches(s, p, h);
    var receipt := s.receipt.value;
    NamedIsFinal(h, receipt.receiptId, receipt.transactionId);
    OnlyFinal(h, r, Filter(h, Naming(receipt.receiptId, receipt.transactionId))[0]);
  }

  lemma ValidatedMatches(s: State, p: Progress, h: seq<Record>)
    requires ValidateFinal(s, p, h).Ok?
    ensures s.receipt == Some(ValidateFinal(s, p, h).value)
    ensures var r := s.receipt.value;
            var named := Filter(h, Naming(r.receiptId, r.transactionId));
            |named| == 1 && named[0] == r.ToRecord()
  {
    hide Filter, State.IsValid, Receipt.IsValid, EarlierResolved, Receipt.ToRecord;
  }

  lemma NamedIsFinal(h: seq<Record>, receiptId: Id, transactionId: Id)
    requires Filter(h, Naming(receiptId, transactionId)) != []
    ensures var x := Filter(h, Naming(receiptId, transactionId))[0]; x in h && IsFinal(x)
  {
    FilterSound(h, Naming(receiptId, transactionId));
    assert Filter(h, Naming(receiptId, transactionId))[0] in Filter(h, Naming(receiptId, transactionId));
  }

  lemma OnlyFinal(h: seq<Record>, r: Record, x: Record)
    requires |h| > 0 && FinalIndices(h) == [|h| - 1] && h[|h| - 1] == r
    requires x in h && IsFinal(x)
    ensures x == r
  {
    hide FinalIndices, IsFinal;
    FinalIndicesOneIff(h, 0, |h| - 1);
    assert h == h[0..|h| - 1] + [r];
  }

  /** How much of the first bundle the disk holds, and the cap that stands. */
  datatype Ledger = Ledger(writes: nat, cap: nat)

  /** An attempt counts only with the first capture, a cap of its own, and no
      other cap in a stored receipt. */
  function Settled(d: Disk, c: Capture, l: Ledger, a: Attempt): Ledger {
    var cap := CapOf(a.config, a.capture);
    if a.capture != c || l.writes >= 3 || cap.None? || (CapIsFixed(d, l.writes) && cap.value != l.cap) then l
    else Ledger(if a.writes > l.writes then a.writes else l.writes, if a.writes >= 2 then cap.value else l.cap)
  }

  function SettledAll(d: Disk, c: Capture, l: Ledger, attempts: seq<Attempt>): Ledger {
    if attempts == [] then l
    else Settled(d, c, SettledAll(d, c, l, attempts[..|attempts| - 1]), attempts[|attempts| - 1])
  }

  /** What one attempt answers on a disk that holds `l` of the commit `k`. */
  ghost predicate Answers(d: Disk, k: FinalCommit, c: Capture, l: Ledger, a: Attempt) {
    var r := Tried(Written(d, Recapped(k, l.cap), l.writes), a);
    var cap := CapOf(a.config, a.capture);
    if a.capture != c then r.Err?
    else if l.writes >= 3 then r == Ok(Complete(Recapped(k, l.cap).receipt))
    else if cap.None? || (CapIsFixed(d, l.writes) && cap.value != l.cap) then r.Err?
    else r == Ok(Pending(Recapped(k, cap.value)))
  }

  lemma AttemptAnswers(
    d: Disk, k: FinalCommit, source: State, rest: seq<Record>, config: Config, c: Capture, l: Ledger, a: Attempt)
    requires CommitOf(k, source, rest, d, config, c) && l.writes >= 1
    requires d.state.receipt.Some? ==> l.cap == k.receipt.cap
    ensures Answers(d, k, c, l, a)
  {
    hide Reconcile, PrepareFinal, CommitOf, MeasuredCap;
    var e := Written(d, Recapped(k, l.cap), l.writes);
    if a.capture != c {
      FinalCaptureIsFixed(k, source, rest, d, config, c, e.state, e.progress, a);
    } else if l.writes >= 3 {
      CommitCompletes(d, l.cap, k, source, rest, config, a);
    } else {
      CommitReconciles(d, l.writes, l.cap, k, source, rest, config, a);
    }
  }

  lemma StandsAfter(d: Disk, k: FinalCommit, c: Capture, l: Ledger, a: Attempt)
    requires Answers(d, k, c, l, a) && l.writes >= 1
    ensures var m := Settled(d, c, l, a);
            After(Written(d, Recapped(k, l.cap), l.writes), a) == Written(d, Recapped(k, m.cap), m.writes)
  {
    hide Reconcile, MeasuredCap;
  }

  ghost predicate Starts(d: Disk, first: Attempt, k: FinalCommit) {
    Tried(d, first) == Ok(Pending(k)) && first.writes > 0
  }

  lemma {:induction false} LedgerKeeps(d: Disk, c: Capture, l: Ledger, attempts: seq<Attempt>)
    ensures SettledAll(d, c, l, attempts).writes >= l.writes
    ensures CapIsFixed(d, l.writes) ==> SettledAll(d, c, l, attempts).cap == l.cap
  {
    if attempts != [] {
      LedgerKeeps(d, c, l, attempts[..|attempts| - 1]);
    }
  }

  /** Any number of retries, each with its own configuration, capture, identity and
      time and crashing anywhere, leaves the disk holding part of the first written
      bundle and nothing of any other; only the cap may come from a later attempt,
      the one that first writes the state file. */
  lemma {:induction false} RetriesSettle(d: Disk, first: Attempt, more: seq<Attempt>, k: FinalCommit)
    requires Starts(d, first, k)
    ensures var l := SettledAll(d, first.capture, Ledger(first.writes, k.receipt.cap), more);
            AfterAll(After(d, first), more) == Written(d, Recapped(k, l.cap), l.writes)
  {
    hide Tried, Settled, CommitOf, CapIsFixed;
    var source, rest := PendingCommit(d, first);
    RecapsItself(d, k, source, rest, first);
    var start := Ledger(first.writes, k.receipt.cap);
    if more != [] {
      var earlier := more[..|more| - 1];
      var a := more[|more| - 1];
      RetriesSettle(d, first, earlier, k);
      var l := SettledAll(d, first.capture, start, earlier);
      LedgerKeeps(d, first.capture, start, earlier);
      ReceiptFixesCap(d, first.writes);
      AttemptAnswers(d, k, source, rest, first.config, first.capture, l, a);
      StandsAfter(d, k, first.capture, l, a);
    } else {
      FirstIsWritten(d, first, k);
    }
  }

  lemma ReceiptFixesCap(d: Disk, n: nat)
    ensures d.state.receipt.Some? ==> CapIsFixed(d, n)
  {
  }

  lemma FirstIsWritten(d: Disk, first: Attempt, k: FinalCommit)
    requires Starts(d, first, k)
    ensures AfterAll(After(d, first), []) == Written(d, k, first.writes)
  {
    hide Tried;
  }

  lemma RecapsItself(d: Disk, k: FinalCommit, source: State, rest: seq<Record>, a: Attempt)
    requires CommitOf(k, source, rest, d, a.config, a.capture)
    ensures Recapped(k, k.receipt.cap) == k
  {
    FinalBundle(source, d.progress, rest, a.config, k.receipt.receiptId, k.receipt.captured, a.capture);
  }

  /** What the next attempt answers after any retries: the receipt of the first bundle
      if all is written, the same bundle again if its cap fits, an error otherwise. */
  lemma {:induction false} RetriesAnswer(d: Disk, first: Attempt, more: seq<Attempt>, k: FinalCommit, last: Attempt)
    requires Starts(d, first, k)
    ensures var l := SettledAll(d, first.capture, Ledger(first.writes, k.receipt.cap), more);
            AfterAll(After(d, first), more) == Written(d, Recapped(k, l.cap), l.writes)
            && Answers(d, k, first.capture, l, last)
  {
    hide Answers, CommitOf, Tried, CapIsFixed, Settled;
    var source, rest := PendingCommit(d, first);
    RecapsItself(d, k, source, rest, first);
    RetriesSettle(d, first, more, k);
    LedgerKeeps(d, first.capture, Ledger(first.writes, k.receipt.cap), more);
    ReceiptFixesCap(d, first.writes);
    AttemptAnswers(d, k, source, rest, first.config, first.capture,
                   SettledAll(d, first.capture, Ledger(first.writes, k.receipt.cap), more), last);
  }

  lemma {:induction false} SameCapLedger(d: Disk, first: Attempt, more: seq<Attempt>, cap: nat)
    requires forall a | a in more :: a.capture == first.capture && CapOf(a.config, a.capture) == Some(cap)
    ensures var l := SettledAll(d, first.capture, Ledger(first.writes, cap), more);
            && l.cap == cap
            && (l.writes >= 3 <==> first.writes >= 3 || MostWrites(more) >= 3)
            && (l.writes < 3 ==> l.writes == if MostWrites(more) > first.writes then MostWrites(more) else first.writes)
  {
    hide MeasuredCap;
    if more != [] {
      assert more[|more| - 1] in more;
      SameCapLedger(d, first, more[..|more| - 1], cap);
    }
  }

  /** Retries that repeat the first capture and measure the first cap leave as much of
      the first written commit as the furthest attempt got to. */
  lemma {:induction false} RetriesKeepFirstCommit(d: Disk, first: Attempt, more: seq<Attempt>, k: FinalCommit)
    requires Starts(d, first, k)
    requires forall a | a in more :: a.capture == first.capture && CapOf(a.config, a.capture) == Some(k.receipt.cap)
    ensures AfterAll(After(d, first), more)
         == Written(d, k, if MostWrites(more) > first.writes then MostWrites(more) else first.writes)
  {
    hide Tried, CapOf, Settled, CommitOf;
    var source, rest := PendingCommit(d, first);
    RecapsItself(d, k, source, rest, first);
    RetriesSettle(d, first, more, k);
    SameCapLedger(d, first, more, k.receipt.cap);
  }
}
