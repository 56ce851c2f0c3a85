/** The three benchmark files and the two commands that write them. */
module BenchmarkStore {
  import opened Wrappers
  import opened Catalog
  import opened ProgressRecord
  import opened Benchmark
  import opened BenchmarkProofs

  /** The first `n` of the three writes of a prepared baseline happened. */
  function BaselineWrites(d: Disk, k: BaselineCommit, n: nat): Disk {
    Disk(if n >= 2 then k.state else d.state,
         if n >= 3 then k.progress else d.progress,
         if n >= 1 then k.history else d.history)
  }

  /** One run of the baseline command, which stops after `writes` of the three writes. */
  datatype BaselineAttempt = BaselineAttempt(capture: Capture, captured: string, writes: nat)

  function Prepared(d: Disk, a: BaselineAttempt): Result<BaselineCommit, BenchmarkError> {
    PrepareBaseline(d.state, d.progress, d.history, a.captured, a.capture)
  }

  function AfterBaseline(d: Disk, a: BaselineAttempt): Disk {
    match Prepared(d, a)
    case Ok(k) => BaselineWrites(d, k, a.writes)
    case Err(_) => d
  }

  function AfterBaselines(d: Disk, attempts: seq<BaselineAttempt>): Disk {
    if attempts == [] then d
    else AfterBaseline(AfterBaselines(d, attempts[..|attempts| - 1]), attempts[|attempts| - 1])
  }

  /** How far the attempts got that measured `c` and read a valid clock; no other writes anything. */
  function Furthest(c: Capture, attempts: seq<BaselineAttempt>): nat {
    if attempts == [] then 0
    else
      var rest := Furthest(c, attempts[..|attempts| - 1]);
      var a := attempts[|attempts| - 1];
      if a.capture == c && ValidTimestamp(a.captured) && a.writes > rest then a.writes else rest
  }

  class Store {
    var state: State
    var progress: Progress
    var history: seq<Record>

    function Now(): Disk
      reads this
    {
      Disk(state, progress, history)
    }

    constructor (disk: Disk)
      ensures Now() == disk
    {
      state, progress, history := disk.state, disk.progress, disk.history;
    }

    /** None: the command stopped early. History first, progress last. */
    method PersistBaseline(a: BaselineAttempt) returns (r: Option<Result<State, BenchmarkError>>)
      modifies this
      ensures Now() == AfterBaseline(old(Now()), a)
      ensures match Prepared(old(Now()), a)
              case Err(e) => r == Some(Err(e))
              case Ok(k) =>
                if k.idempotent || a.writes >= 3 then r == Some(Ok(k.state)) && ValidateBaseline(state, progress, history).Ok?
                else r == None
    {
      hide PrepareBaseline, ValidateBaseline, BaselineWritten;
      var commit := Prepared(Now(), a);
      if commit.Err? { return Some(Err(commit.error)); }
      var k := commit.value;
      IdempotentChangesNothing(Now(), a);
      PreparedValidates(Now(), a);
      if k.idempotent { return Some(Ok(k.state)); }
      if a.writes == 0 { return None; }
      if k.history != history { history := k.history; }
      if a.writes == 1 { return None; }
      if k.state != state { state := k.state; }
      if a.writes == 2 { return None; }
      if k.progress != progress { progress := k.progress; }
      var valid := ValidateBaseline(k.state, k.progress, k.history);
      match valid
      case Ok(_) => r := Some(Ok(k.state));
      case Err(error) => r := Some(Err(error));
    }

    /** None: the command stopped early. History first, progress last. */
    method PersistFinal(a: Attempt) returns (r: Option<Result<Receipt, BenchmarkError>>)
      modifies this
      ensures Now() == After(old(Now()), a)
      ensures match Tried(old(Now()), a)
              case Err(e) => r == Some(Err(e))
              case Ok(Complete(receipt)) => r == Some(Ok(receipt))
              case Ok(Pending(k)) => r == if a.writes >= 3 then Some(Ok(k.receipt)) else None
    {
      hide Reconcile, ValidateFinal;
      var reconciled := Tried(Now(), a);
      if reconciled.Err? { return Some(Err(reconciled.error)); }
      if reconciled.value.Complete? { return Some(Ok(reconciled.value.receipt)); }
      var k := reconciled.value.commit;
      PendingValidates(Now(), a);
      if a.writes == 0 { return None; }
      if k.history != history { history := k.history; }
      if a.writes == 1 { return None; }
      if k.state != state { state := k.state; }
      if a.writes == 2 { return None; }
      if k.progress != progress { progress := k.progress; }
      return Some(ValidateFinal(state, progress, history));
    }
  }

  lemma PendingValidates(d: Disk, a: Attempt)
    requires Tried(d, a).Ok? && Tried(d, a).value.Pending?
    ensures var k := Tried(d, a).value.commit;
            ValidateFinal(k.state, k.progress, k.history) == Ok(k.receipt)
  {
    hide PrepareFinal, ValidateFinal, Reconcile, FinalIndices;
    var k := Tried(d, a).value.commit;
    var source, rest := PendingCommit(d, a);
    FinalAllOrNothing(source, d.progress, rest, a.config, k.receipt.receiptId, k.receipt.captured, a.capture,
                      true, true, true, a.config, k.receipt.receiptId, k.receipt.captured, a.capture);
  }

  lemma PreparedValidates(d: Disk, a: BaselineAttempt)
    requires Prepared(d, a).Ok?
    ensures var k := Prepared(d, a).value; ValidateBaseline(k.state, k.progress, k.history).Ok?
  {
    hide PrepareBaseline, ValidateBaseline;
    var r := BaselineBundle(d.state, d.progress, d.history, a.captured, a.capture);
    OneBaselineValidates(Prepared(d, a).value, r, a.capture);
  }

  lemma IdempotentChangesNothing(d: Disk, a: BaselineAttempt)
    requires Prepared(d, a).Ok?
    ensures var k := Prepared(d, a).value;
            k.idempotent ==> k.state == d.state && k.progress == d.progress && k.history == d.history
  {
  }

  /** Any number of baseline retries, each with its own capture and time and stopped
      anywhere, leaves the disk holding as much of the first written bundle as the
      furthest attempt with the first capture got to, with its time. */
  lemma {:induction false} BaselineRetriesKeepFirst(d: Disk, first: BaselineAttempt, more: seq<BaselineAttempt>)
    requires Prepared(d, first).Ok? && first.writes > 0
    ensures var furthest := Furthest(first.capture, more);
            AfterBaselines(AfterBaseline(d, first), more) ==
            BaselineWrites(d, Prepared(d, first).value, if furthest > first.writes then furthest else first.writes)
  {
    hide PrepareBaseline, ValidateBaseline, ValidTimestamp;
    if more != [] {
      var a := more[|more| - 1];
      BaselineRetriesKeepFirst(d, first, more[..|more| - 1]);
      var now := AfterBaselines(AfterBaseline(d, first), more[..|more| - 1]);
      if a.capture != first.capture {
        BaselineCaptureIsFixed(d.state, d.progress, d.history, first.captured, first.capture,
                               now.state, now.progress, a.captured, a.capture);
      } else if ValidTimestamp(a.captured) {
        BaselineConverges(d.state, d.progress, d.history, first.captured, first.capture, a.captured);
      } else {
        ClockIsChecked(now, a);
      }
    }
  }

  lemma ClockIsChecked(d: Disk, a: BaselineAttempt)
    requires !ValidTimestamp(a.captured)
    ensures Prepared(d, a).Err?
  {
    hide ValidTimestamp, ValidHistory, ValidateBaseline, Filter;
  }
}
