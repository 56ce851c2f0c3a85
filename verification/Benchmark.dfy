/** The benchmark bundles: three files, written history, state, progress. */
module Benchmark {
  import opened Wrappers
  import opened Catalog
  import opened ProgressRecord
  import opened Orchestration

  const MAX_HISTORY := 200
  const SCHEMA_VERSION := 1
  const FINAL_LABEL := "After all optimizations"
  const BASELINE_LABEL := "Baseline (before optimizations)"

  type Id = string

  datatype Capture = Capture(average: real, p1: real, runs: nat)

  datatype Record = Record(
    timestamp: string, average: real, p1: real, title: string, runs: nat,
    receiptId: Option<Id>, transactionId: Option<Id>)

  datatype Receipt = Receipt(
    schema: nat, receiptId: Id, transactionId: Id, captured: string,
    average: real, p1: real, runs: nat, cap: nat, title: string)
  {
    predicate IsValid() {
      && schema == SCHEMA_VERSION
      && receiptId != transactionId
      && ValidTimestamp(captured)
      && 0.0 < p1 <= average
      && runs > 0
      && title == FINAL_LABEL
    }

    function ToRecord(): Record {
      Record(captured, average, p1, title, runs, Some(receiptId), Some(transactionId))
    }

    predicate Matches(r: Record) { r == ToRecord() }

    predicate MatchesCapture(c: Capture) { average == c.average && p1 == c.p1 && runs == c.runs }
  }

  /** `wellFormed` stands for the schema, user and runtime-record checks. */
  datatype Transaction = Transaction(
    wellFormed: bool, id: Option<Id>, stage: RebootStage, updated: Option<string>)
  {
    predicate IsAuthorizedAt(expected: RebootStage) { wellFormed && id.Some? && stage == expected }
  }

  /** `otherFieldsValid` stands for the GPU, pagefile and malformed-field checks. */
  datatype State = State(
    cap: nat, average: real, p1: Option<real>, capDate: Option<string>,
    baselineAverage: real, baselineP1: Option<real>,
    transaction: Option<Transaction>, receipt: Option<Receipt>, otherFieldsValid: bool)
  {
    predicate IsValid() {
      && otherFieldsValid
      && (match baselineP1
          case Some(low) => 0.0 < low <= baselineAverage
          case None => baselineAverage == 0.0)
      && (receipt.Some? ==>
            && transaction.Some?
            && (transaction.value.IsAuthorizedAt(PhaseThreeArmed) || transaction.value.IsAuthorizedAt(PhaseThreeComplete))
            && receipt.value.IsValid()
            && transaction.value.id == Some(receipt.value.transactionId))
    }
  }

  predicate IsDigit(c: char) { '0' <= c <= '9' }

  predicate ValidTimestamp(s: string) {
    && |s| == 19
    && forall i | 0 <= i < 19 ::
         if i == 4 || i == 7 then s[i] == '-'
         else if i == 10 then s[i] == ' '
         else if i == 13 || i == 16 then s[i] == ':'
         else IsDigit(s[i])
  }

  /** Appending keeps the newest records. */
  function Appended(history: seq<Record>, r: Record): seq<Record> {
    var all := history + [r];
    if |all| > MAX_HISTORY then all[|all| - MAX_HISTORY..] else all
  }

  function Filter(history: seq<Record>, p: Record -> bool): seq<Record> {
    if history == [] then []
    else (if p(history[0]) then [history[0]] else []) + Filter(history[1..], p)
  }

  predicate ValidHistory(history: seq<Record>) {
    && |history| <= MAX_HISTORY
    && forall r | r in history ::
         r.average >= 0.0 && r.p1 >= 0.0 && r.runs > 0 && r.title != "" && ValidTimestamp(r.timestamp)
  }

  predicate CompleteCapture(c: Capture) { 0.0 < c.p1 <= c.average && c.runs > 0 }

  predicate RecordMatchesCapture(r: Record, c: Capture) {
    r.average == c.average && r.p1 == c.p1 && r.runs == c.runs && r.receiptId.None? && r.transactionId.None?
  }

  datatype BenchmarkError =
    | InvalidState | InvalidHistory | IncompleteCapture | InvalidTimestamp | Skipped | Duplicated
    | HistoryConflict | StateWithoutHistory | StateConflict | ProgressBeforeState
    | IncompleteBaselineState | IncompleteProgress | NotCoherent
    | InvalidConfig | ReceiptExists | DriverNotInstalled | PhaseThreeUnresolved | NoTransaction
    | TransactionNotAuthorized | AlreadyRecorded | CapNotSustained | InvalidReceipt
    | NoReceipt | FpsStateMismatch | HistoryMismatch | CaptureConflict | PrefixesDisagree | NoReceiptId

  // P1:17

  datatype BaselineCommit = BaselineCommit(
    state: State, progress: Progress, history: seq<Record>, captured: string, idempotent: bool)

  predicate IsBaseline(r: Record) { r.title == BASELINE_LABEL }

  predicate HasBaseline(s: State) { s.baselineAverage > 0.0 || s.baselineP1.Some? }

  function BaselineNext(s: State, p: Progress, h: seq<Record>, existing: Option<Record>, captured: string, c: Capture)
    : Result<BaselineCommit, BenchmarkError>
  {
    var at := if existing.Some? then existing.value.timestamp else captured;
    var next := s.(baselineAverage := c.average, baselineP1 := Some(c.p1));
    if !next.IsValid() then Err(InvalidState)
    else
      var history :=
        if existing.Some? then h else Appended(h, Record(at, c.average, c.p1, BASELINE_LABEL, c.runs, None, None));
      Ok(BaselineCommit(next, p.Complete(BASELINE_BENCHMARK, at), history, at, false))
  }

  function PrepareBaseline(s: State, p: Progress, h: seq<Record>, captured: string, c: Capture)
    : Result<BaselineCommit, BenchmarkError>
  {
    var matching := Filter(h, IsBaseline);
    if !s.IsValid() then Err(InvalidState)
    else if !ValidHistory(h) then Err(InvalidHistory)
    else if !CompleteCapture(c) then Err(IncompleteCapture)
    else if !ValidTimestamp(captured) then Err(InvalidTimestamp)
    else if p.IsSkipped(BASELINE_BENCHMARK) then Err(Skipped)
    else if |matching| > 1 then Err(Duplicated)
    else
      var existing := if matching == [] then None else Some(matching[0]);
      if existing.Some? && !RecordMatchesCapture(existing.value, c) then Err(HistoryConflict)
      else if HasBaseline(s) then
        if existing.None? then Err(StateWithoutHistory)
        else if s.baselineAverage != c.average || s.baselineP1 != Some(c.p1) then Err(StateConflict)
        else if p.IsCompleted(BASELINE_BENCHMARK) then
          var valid := ValidateBaseline(s, p, h);
          if valid.Err? then Err(valid.error)
          else Ok(BaselineCommit(s, p, h, existing.value.timestamp, true))
        else BaselineNext(s, p, h, existing, captured, c)
      else if p.IsCompleted(BASELINE_BENCHMARK) then Err(ProgressBeforeState)
      else BaselineNext(s, p, h, existing, captured, c)
  }

  function StatedBaseline(average: real, low: real): Record -> bool {
    r =>
      && IsBaseline(r) && r.average == average && r.p1 == low && r.runs > 0
      && r.receiptId.None? && r.transactionId.None?
  }

  function ValidateBaseline(s: State, p: Progress, h: seq<Record>): Result<Record, BenchmarkError> {
    var low := if s.baselineP1.Some? then s.baselineP1.value else 0.0;
    if !s.IsValid() then Err(InvalidState)
    else if !ValidHistory(h) then Err(InvalidHistory)
    else if !(0.0 < low <= s.baselineAverage) then Err(IncompleteBaselineState)
    else if !p.IsCompleted(BASELINE_BENCHMARK) || p.IsSkipped(BASELINE_BENCHMARK) then Err(IncompleteProgress)
    else
      var matching := Filter(h, StatedBaseline(s.baselineAverage, low));
      if |matching| != 1 then Err(NotCoherent)
      else if BASELINE_BENCHMARK !in p.timestamps || p.timestamps[BASELINE_BENCHMARK] != matching[0].timestamp then
        Err(NotCoherent)
      else Ok(matching[0])
  }

  // P3:13

  datatype CapStrategy = RawLatency(measured: Option<nat>) | Vrr(refresh: nat, margin: nat)

  datatype Config = Config(valid: bool, strategy: CapStrategy)

  function SustainableCap(cap: nat, c: Capture): Option<nat> {
    if cap > 0 && c.average > 0.0 && c.p1 >= cap as real && c.runs >= 5 then Some(cap) else None
  }

  function MeasuredCap(s: CapStrategy, c: Capture): Option<nat> {
    match s
    case RawLatency(None) => Some(0)
    case RawLatency(Some(cap)) => SustainableCap(cap, c)
    case Vrr(refresh, margin) => if margin < refresh then SustainableCap(refresh - margin, c) else None
  }

  datatype FinalCommit = FinalCommit(state: State, progress: Progress, history: seq<Record>, receipt: Receipt)

  /** P3:2 to P3:12 are completed or skipped. */
  predicate EarlierResolved(p: Progress) {
    forall n | 2 <= n <= 12 :: p.IsCompleted(StepId(Three, n)) || p.IsSkipped(StepId(Three, n))
  }

  predicate Names(r: Record, receiptId: Id, transactionId: Id) {
    r.receiptId == Some(receiptId) || r.transactionId == Some(transactionId)
  }

  function Naming(receiptId: Id, transactionId: Id): Record -> bool {
    r => Names(r, receiptId, transactionId)
  }

  function Stamped(s: State, r: Receipt): State
    requires s.transaction.Some?
  {
    s.(cap := r.cap, average := r.average, p1 := Some(r.p1), capDate := Some(r.captured), receipt := Some(r),
       transaction := Some(s.transaction.value.(stage := PhaseThreeComplete, updated := Some(r.captured))))
  }

  function PrepareFinal(
    s: State, p: Progress, h: seq<Record>, config: Config, receiptId: Id, captured: string, c: Capture)
    : Result<FinalCommit, BenchmarkError>
  {
    if !config.valid then Err(InvalidConfig)
    else if !s.IsValid() then Err(InvalidState)
    else if s.receipt.Some? then Err(ReceiptExists)
    else if !p.IsCompleted(DRIVER_INSTALL) then Err(DriverNotInstalled)
    else if !EarlierResolved(p) || p.IsCompleted(FINAL_BENCHMARK) || p.IsSkipped(FINAL_BENCHMARK) then
      Err(PhaseThreeUnresolved)
    else if s.transaction.None? then Err(NoTransaction)
    else if !s.transaction.value.IsAuthorizedAt(PhaseThreeArmed) then Err(TransactionNotAuthorized)
    else
      var transactionId := s.transaction.value.id.value;
      var cap := MeasuredCap(config.strategy, c);
      if exists r | r in h :: Names(r, receiptId, transactionId) then Err(AlreadyRecorded)
      else if cap.None? then Err(CapNotSustained)
      else
        var receipt := Receipt(SCHEMA_VERSION, receiptId, transactionId, captured, c.average, c.p1, c.runs, cap.value, FINAL_LABEL);
        if !receipt.IsValid() then Err(InvalidReceipt)
        else
          var next := Stamped(s, receipt);
          if !next.IsValid() then Err(InvalidState)
          else
            Ok(FinalCommit(next, p.Complete(FINAL_BENCHMARK, captured), Appended(h, receipt.ToRecord()), receipt))
  }

  function ValidateFinal(s: State, p: Progress, h: seq<Record>): Result<Receipt, BenchmarkError> {
    if !s.IsValid() then Err(InvalidState)
    else if s.receipt.None? then Err(NoReceipt)
    else if s.transaction.None? then Err(NoTransaction)
    else
      var receipt := s.receipt.value;
      if !s.transaction.value.IsAuthorizedAt(PhaseThreeComplete) then Err(TransactionNotAuthorized)
      else if !receipt.IsValid() || s.transaction.value.id != Some(receipt.transactionId) then Err(InvalidReceipt)
      else if !p.IsCompleted(DRIVER_INSTALL) || !p.IsCompleted(FINAL_BENCHMARK) || p.IsSkipped(FINAL_BENCHMARK)
           || FINAL_BENCHMARK !in p.timestamps || p.timestamps[FINAL_BENCHMARK] != receipt.captured then
        Err(IncompleteProgress)
      else if !EarlierResolved(p) then Err(PhaseThreeUnresolved)
      else if s.cap != receipt.cap || s.average != receipt.average || s.p1 != Some(receipt.p1)
           || s.capDate != Some(receipt.captured) then Err(FpsStateMismatch)
      else
        var matching := Filter(h, Naming(receipt.receiptId, receipt.transactionId));
        if |matching| != 1 || !receipt.Matches(matching[0]) then Err(HistoryMismatch)
        else Ok(receipt)
  }

  // Reconciling a crash prefix of the P3:13 bundle

  datatype Reconciliation = Complete(receipt: Receipt) | Pending(commit: FinalCommit)

  /** A record that only the final benchmark writes. */
  predicate IsFinal(r: Record) { r.title == FINAL_LABEL || r.receiptId.Some? || r.transactionId.Some? }

  function FinalIndices(h: seq<Record>, from: nat := 0): (r: seq<nat>)
    requires from <= |h|
    ensures forall j | 0 <= j < |r| :: from <= r[j] < |h| && IsFinal(h[r[j]])
    decreases |h| - from
  {
    if from == |h| then []
    else (if IsFinal(h[from]) then [from] else []) + FinalIndices(h, from + 1)
  }

  function Without(h: seq<Record>, i: nat): seq<Record>
    requires i < |h|
  {
    h[..i] + h[i + 1..]
  }

  predicate PartialStateFits(s: State, receipt: Receipt, c: Capture) {
    && s.IsValid()
    && s.transaction.Some? && s.transaction.value.stage == PhaseThreeComplete
    && receipt.MatchesCapture(c)
    && s.cap == receipt.cap && s.average == receipt.average && s.p1 == Some(receipt.p1)
    && s.capDate == Some(receipt.captured)
  }

  predicate PartialRecordFits(r: Record, s: State, c: Capture) {
    && s.IsValid()
    && s.transaction.Some? && s.transaction.value.id.Some?
    && r.title == FINAL_LABEL && r.receiptId.Some?
    && r.transactionId == s.transaction.value.id
    && r.average == c.average && r.p1 == c.p1 && r.runs == c.runs
  }

  /** The state as it was before a receipt was stamped on it. */
  function Unstamped(s: State): State
    requires s.transaction.Some?
  {
    s.(receipt := None, transaction := Some(s.transaction.value.(stage := PhaseThreeArmed)))
  }

  function Reconcile(
    s: State, p: Progress, h: seq<Record>, config: Config,
    drawn: Result<Id, BenchmarkError>, captured: string, c: Capture)
    : Result<Reconciliation, BenchmarkError>
  {
    if p.IsCompleted(FINAL_BENCHMARK) then
      var valid := ValidateFinal(s, p, h);
      if valid.Err? then Err(valid.error)
      else if !valid.value.MatchesCapture(c) then Err(CaptureConflict)
      else Ok(Complete(valid.value))
    else if p.IsSkipped(FINAL_BENCHMARK) then Err(Skipped)
    else ReconcilePrefix(s, p, h, config, drawn, captured, c)
  }

  function ReconcilePrefix(
    s: State, p: Progress, h: seq<Record>, config: Config,
    drawn: Result<Id, BenchmarkError>, captured: string, c: Capture)
    : Result<Reconciliation, BenchmarkError>
  {
    var indices := FinalIndices(h);
    if |indices| > 1 then Err(Duplicated)
    else if s.receipt.Some? && !PartialStateFits(s, s.receipt.value, c) then Err(StateConflict)
    else if s.receipt.None? && !s.IsValid() then Err(InvalidState)
    else
      if indices == [] then
        if s.receipt.Some? then
          Reproduced(s, PrepareFinal(Source(s), p, h, config, s.receipt.value.receiptId, s.receipt.value.captured, c))
        else if drawn.Err? then Err(drawn.error)
        else Reproduced(s, PrepareFinal(Source(s), p, h, config, drawn.value, captured, c))
      else ReconcileRecord(s, p, h, config, indices[0], c)
  }

  /** The state to prepare from: the one before the receipt, if there is one. */
  function Source(s: State): State
    requires s.receipt.Some? ==> s.transaction.Some?
  {
    if s.receipt.Some? then Unstamped(s) else s
  }

  /** The history already holds the record at `i`. */
  function ReconcileRecord(s: State, p: Progress, h: seq<Record>, config: Config, i: nat, c: Capture)
    : (r: Result<Reconciliation, BenchmarkError>)
    requires i < |h|
    requires s.receipt.Some? ==> s.transaction.Some?
    ensures r.Ok? ==> r.value.Pending?
  {
    var record := h[i];
    if !PartialRecordFits(record, s, c) then Err(HistoryConflict)
    else if s.receipt.Some? && !s.receipt.value.Matches(record) then Err(PrefixesDisagree)
    else
      var result :=
        Reproduced(s, PrepareFinal(Source(s), p, Without(h, i), config, record.receiptId.value, record.timestamp, c));
      if result.Ok? && !result.value.commit.receipt.Matches(record) then Err(HistoryMismatch) else result
  }

  /** A prepared commit must reproduce the receipt that the state already holds. */
  function Reproduced(s: State, prepared: Result<FinalCommit, BenchmarkError>): (r: Result<Reconciliation, BenchmarkError>)
    ensures r.Ok? ==> r.value.Pending? && prepared == Ok(r.value.commit)
    ensures r.Ok? && s.receipt.Some? ==> r.value.commit.receipt == s.receipt.value
  {
    if prepared.Err? then Err(prepared.error)
    else if s.receipt.Some? && prepared.value.receipt != s.receipt.value then Err(StateConflict)
    else Ok(Pending(prepared.value))
  }
}
