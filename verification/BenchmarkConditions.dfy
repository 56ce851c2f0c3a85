/** When a benchmark bundle is prepared and when it validates, exactly, on the
    fields of the three files. */
module BenchmarkConditions {
  import opened Wrappers
  import opened Catalog
  import opened ProgressRecord
  import opened Orchestration
  import opened Benchmark
  import P = BenchmarkProofs

  // Fields

  predicate TwoDigits(s: string, i: nat) {
    i + 2 <= |s| && '0' <= s[i] <= '9' && '0' <= s[i + 1] <= '9'
  }

  /** Nineteen characters: a date with dashes, a space and a time with colons. */
  predicate IsTime(s: string) {
    && |s| == 19
    && TwoDigits(s, 0) && TwoDigits(s, 2) && s[4] == '-' && TwoDigits(s, 5) && s[7] == '-' && TwoDigits(s, 8)
    && s[10] == ' ' && TwoDigits(s, 11) && s[13] == ':' && TwoDigits(s, 14) && s[16] == ':' && TwoDigits(s, 17)
  }

  lemma TimeIff(s: string)
    ensures ValidTimestamp(s) <==> IsTime(s)
  {
    if ValidTimestamp(s) {
      assert IsDigit(s[0]) && IsDigit(s[1]) && IsDigit(s[2]) && IsDigit(s[3]) && IsDigit(s[5]) && IsDigit(s[6]);
      assert IsDigit(s[8]) && IsDigit(s[9]) && IsDigit(s[11]) && IsDigit(s[12]) && IsDigit(s[14]) && IsDigit(s[15]);
      assert IsDigit(s[17]) && IsDigit(s[18]);
      assert s[4] == '-' && s[7] == '-' && s[10] == ' ' && s[13] == ':' && s[16] == ':';
    }
  }

  predicate Measured(c: Capture) { c.runs >= 1 && 0.0 < c.p1 && c.p1 <= c.average }

  predicate AtStage(t: Transaction, stage: RebootStage) { t.wellFormed && t.id.Some? && t.stage == stage }

  /** A receipt of this schema with two different ids, a time, measured rates and the final label. */
  predicate GoodReceipt(r: Receipt) {
    && r.schema == 1 && r.receiptId != r.transactionId && IsTime(r.captured)
    && r.runs >= 1 && 0.0 < r.p1 && r.p1 <= r.average && r.title == FINAL_LABEL
  }

  /** The baseline rates are both measured or both missing, and a receipt belongs to the armed or
      completed transaction. */
  predicate GoodState(s: State) {
    && s.otherFieldsValid
    && (if s.baselineP1 == None then s.baselineAverage == 0.0
        else 0.0 < s.baselineP1.value && s.baselineP1.value <= s.baselineAverage)
    && (s.receipt.Some? ==>
          && s.transaction.Some? && GoodReceipt(s.receipt.value)
          && (AtStage(s.transaction.value, PhaseThreeArmed) || AtStage(s.transaction.value, PhaseThreeComplete))
          && s.transaction.value.id.value == s.receipt.value.transactionId)
  }

  lemma StateIff(s: State)
    ensures s.IsValid() <==> GoodState(s)
    ensures s.receipt.Some? ==> (s.receipt.value.IsValid() <==> GoodReceipt(s.receipt.value))
  {
    hide ValidTimestamp, IsTime;
    if s.receipt.Some? { TimeIff(s.receipt.value.captured); }
  }

  ghost predicate GoodHistory(h: seq<Record>) {
    && |h| <= 200
    && forall i | 0 <= i < |h| ::
         h[i].average >= 0.0 && h[i].p1 >= 0.0 && h[i].runs >= 1 && h[i].title != "" && IsTime(h[i].timestamp)
  }

  lemma HistoryIff(h: seq<Record>)
    ensures ValidHistory(h) <==> GoodHistory(h)
  {
    hide ValidTimestamp, IsTime;
    forall i | 0 <= i < |h| ensures ValidTimestamp(h[i].timestamp) <==> IsTime(h[i].timestamp) {
      TimeIff(h[i].timestamp);
    }
    assert forall i | 0 <= i < |h| :: h[i] in h;
  }

  /** The new record comes last, and of the old ones the newest stay, two hundred records in all. */
  lemma AppendedIs(h: seq<Record>, r: Record)
    ensures var k := Appended(h, r);
            && |k| == (if |h| < 200 then |h| + 1 else 200) && k[|k| - 1] == r
            && forall i | 0 <= i < |k| - 1 :: k[i] == h[|h| - |k| + 1 + i]
  {
  }

  /** The record at `i` satisfies `p`, and no other does. */
  ghost predicate OnlyAt(h: seq<Record>, i: nat, p: Record -> bool) {
    i < |h| && p(h[i]) && forall j | 0 <= j < |h| && j != i :: !p(h[j])
  }

  lemma {:induction false} FilterIs(h: seq<Record>, p: Record -> bool)
    ensures Filter(h, p) == [] <==> forall i | 0 <= i < |h| :: !p(h[i])
    ensures |Filter(h, p)| == 1 <==> exists i: nat :: OnlyAt(h, i, p)
    ensures forall i: nat | OnlyAt(h, i, p) :: Filter(h, p) == [h[i]]
  {
    if h != [] {
      var rest := h[1..];
      FilterIs(rest, p);
      if p(h[0]) {
        if Filter(rest, p) == [] { assert OnlyAt(h, 0, p); }
        forall i: nat | OnlyAt(h, i, p) ensures i == 0 && Filter(h, p) == [h[i]] {
          assert forall j | 0 <= j < |rest| :: rest[j] == h[j + 1];
        }
      } else {
        if i: nat :| OnlyAt(rest, i, p) { assert OnlyAt(h, i + 1, p); }
        forall i: nat | OnlyAt(h, i, p) ensures OnlyAt(rest, i - 1, p) && Filter(h, p) == [h[i]] {
          assert forall j | 0 <= j < |rest| :: rest[j] == h[j + 1];
        }
      }
    }
  }

  // The cap

  /** A cap is sustained if at least five runs held it in their worst percentile. */
  predicate Sustains(c: Capture, cap: nat) { cap >= 1 && c.runs >= 5 && c.average > 0.0 && c.p1 >= cap as real }

  predicate CapIs(strategy: CapStrategy, c: Capture, cap: nat) {
    match strategy
    case RawLatency(None) => cap == 0
    case RawLatency(Some(measured)) => cap == measured && Sustains(c, cap)
    case Vrr(refresh, margin) => cap + margin == refresh && Sustains(c, cap)
  }

  lemma CapIff(strategy: CapStrategy, c: Capture, cap: nat)
    ensures MeasuredCap(strategy, c) == Some(cap) <==> CapIs(strategy, c, cap)
  {
  }

  // P3:13

  predicate Settled(p: Progress, n: nat) { p.IsCompleted(StepId(Three, n)) || p.IsSkipped(StepId(Three, n)) }

  /** When the final bundle can be prepared. */
  ghost predicate CanPrepareFinal(
    s: State, p: Progress, h: seq<Record>, config: Config, receiptId: Id, captured: string, c: Capture)
  {
    && config.valid && GoodState(s) && s.receipt == None
    && s.transaction.Some? && AtStage(s.transaction.value, PhaseThreeArmed)
    && p.IsCompleted(StepId(Three, 1)) && (forall n | 2 <= n <= 12 :: Settled(p, n)) && !Settled(p, 13)
    && receiptId != s.transaction.value.id.value
    && (forall i | 0 <= i < |h| :: h[i].receiptId != Some(receiptId) && h[i].transactionId != s.transaction.value.id)
    && Measured(c) && IsTime(captured) && exists cap: nat :: CapIs(config.strategy, c, cap)
  }

  lemma EarlierIff(p: Progress)
    ensures EarlierResolved(p) <==> forall n | 2 <= n <= 12 :: Settled(p, n)
  {
    if forall n | 2 <= n <= 12 :: Settled(p, n) {
      forall n | 2 <= n <= 12 ensures p.IsCompleted(StepId(Three, n)) || p.IsSkipped(StepId(Three, n)) {
        assert Settled(p, n);
      }
    }
  }

  lemma CapExistsIff(strategy: CapStrategy, c: Capture)
    ensures MeasuredCap(strategy, c).Some? <==> exists cap: nat :: CapIs(strategy, c, cap)
  {
    hide MeasuredCap, CapIs;
    if MeasuredCap(strategy, c).Some? { CapIff(strategy, c, MeasuredCap(strategy, c).value); }
    if cap: nat :| CapIs(strategy, c, cap) { CapIff(strategy, c, cap); }
  }

  lemma NamedIff(h: seq<Record>, receiptId: Id, transactionId: Id)
    ensures (exists r | r in h :: Names(r, receiptId, transactionId)) <==>
            exists i | 0 <= i < |h| :: h[i].receiptId == Some(receiptId) || h[i].transactionId == Some(transactionId)
  {
    if i :| 0 <= i < |h| && (h[i].receiptId == Some(receiptId) || h[i].transactionId == Some(transactionId)) {
      assert h[i] in h && Names(h[i], receiptId, transactionId);
    }
    if r :| r in h && Names(r, receiptId, transactionId) {
      var i :| 0 <= i < |h| && h[i] == r;
      assert h[i].receiptId == Some(receiptId) || h[i].transactionId == Some(transactionId);
    }
  }

  /** A receipt and its state are valid as soon as what they are made of is. */
  lemma StampedIsValid(s: State, r: Receipt)
    requires GoodState(s) && s.transaction.Some? && AtStage(s.transaction.value, PhaseThreeArmed)
    requires s.transaction.value.id == Some(r.transactionId) && GoodReceipt(r)
    ensures Stamped(s, r).IsValid()
  {
    hide IsTime, ValidTimestamp;
    StateIff(Stamped(s, r));
  }

  lemma ReceiptIff(r: Receipt)
    ensures r.IsValid() <==> GoodReceipt(r)
  {
    hide ValidTimestamp, IsTime;
    TimeIff(r.captured);
  }

  /** The final bundle is prepared exactly then. */
  lemma PrepareFinalIff(
    s: State, p: Progress, h: seq<Record>, config: Config, receiptId: Id, captured: string, c: Capture)
    ensures PrepareFinal(s, p, h, config, receiptId, captured, c).Ok? <==>
            CanPrepareFinal(s, p, h, config, receiptId, captured, c)
  {
    hide State.IsValid, GoodState, ValidTimestamp, IsTime, MeasuredCap, CapIs, EarlierResolved, Names, Receipt.IsValid;
    StateIff(s);
    EarlierIff(p);
    CapExistsIff(config.strategy, c);
    if s.transaction.Some? && s.transaction.value.id.Some? {
      var id := s.transaction.value.id.value;
      NamedIff(h, receiptId, id);
      if MeasuredCap(config.strategy, c).Some? {
        var receipt := Receipt(SCHEMA_VERSION, receiptId, id, captured, c.average, c.p1, c.runs,
                               MeasuredCap(config.strategy, c).value, FINAL_LABEL);
        ReceiptIff(receipt);
        if GoodState(s) && AtStage(s.transaction.value, PhaseThreeArmed) && GoodReceipt(receipt) {
          StampedIsValid(s, receipt);
        }
      }
    }
  }

  /** When the final bundle validates: a receipt of the completed transaction, the step completed at its
      time, the state that it stamps, and its record, the only one that names its ids. */
  ghost predicate FinalCoherent(s: State, p: Progress, h: seq<Record>, r: Receipt) {
    && GoodState(s) && s.receipt == Some(r)
    && AtStage(s.transaction.value, PhaseThreeComplete)
    && p.IsCompleted(StepId(Three, 1)) && p.IsCompleted(StepId(Three, 13)) && !p.IsSkipped(StepId(Three, 13))
    && StepId(Three, 13) in p.timestamps && p.timestamps[StepId(Three, 13)] == r.captured
    && (forall n | 2 <= n <= 12 :: Settled(p, n))
    && s.cap == r.cap && s.average == r.average && s.p1 == Some(r.p1) && s.capDate == Some(r.captured)
    && exists i: nat ::
         && OnlyNamed(h, i, r.receiptId, r.transactionId)
         && h[i] == Record(r.captured, r.average, r.p1, r.title, r.runs, Some(r.receiptId), Some(r.transactionId))
  }

  ghost predicate OnlyNamed(h: seq<Record>, i: nat, receiptId: Id, transactionId: Id) {
    && i < |h|
    && (h[i].receiptId == Some(receiptId) || h[i].transactionId == Some(transactionId))
    && forall j | 0 <= j < |h| && j != i :: h[j].receiptId != Some(receiptId) && h[j].transactionId != Some(transactionId)
  }

  lemma OnlyNamedIff(h: seq<Record>, i: nat, receiptId: Id, transactionId: Id)
    ensures OnlyNamed(h, i, receiptId, transactionId) <==> OnlyAt(h, i, Naming(receiptId, transactionId))
  {
    var p := Naming(receiptId, transactionId);
    assert forall j | 0 <= j < |h| :: p(h[j]) <==> h[j].receiptId == Some(receiptId) || h[j].transactionId == Some(transactionId);
  }

  lemma ValidateFinalIff(s: State, p: Progress, h: seq<Record>, r: Receipt)
    ensures ValidateFinal(s, p, h) == Ok(r) <==> FinalCoherent(s, p, h, r)
  {
    hide State.IsValid, ValidTimestamp, IsTime, EarlierResolved, Names, Receipt.IsValid, Filter, OnlyAt, OnlyNamed, Naming;
    StateIff(s);
    EarlierIff(p);
    if s.receipt == Some(r) {
      FilterIs(h, Naming(r.receiptId, r.transactionId));
      forall i: nat ensures OnlyNamed(h, i, r.receiptId, r.transactionId) <==> OnlyAt(h, i, Naming(r.receiptId, r.transactionId)) {
        OnlyNamedIff(h, i, r.receiptId, r.transactionId);
      }
      OnlyNamedInside(h, r.receiptId, r.transactionId);
    }
  }

  lemma OnlyNamedInside(h: seq<Record>, receiptId: Id, transactionId: Id)
    ensures forall i: nat | OnlyNamed(h, i, receiptId, transactionId) :: i < |h|
  {
  }

  // P1:17

  predicate Baselined(p: Progress) { p.IsCompleted(StepId(One, 17)) }

  predicate RecordsCapture(r: Record, c: Capture) {
    r.average == c.average && r.p1 == c.p1 && r.runs == c.runs && r.receiptId == None && r.transactionId == None
  }

  /** The only record with the baseline's title. */
  ghost predicate OnlyBaseline(h: seq<Record>, i: nat) {
    i < |h| && h[i].title == BASELINE_LABEL && forall j | 0 <= j < |h| && j != i :: h[j].title != BASELINE_LABEL
  }

  /** What the history and the state must say of an earlier attempt: nothing, or that it measured
      the same, and the progress nothing, or its time. */
  ghost predicate EarlierFits(s: State, p: Progress, h: seq<Record>, c: Capture) {
    if forall i | 0 <= i < |h| :: h[i].title != BASELINE_LABEL then s.baselineP1 == None && !Baselined(p)
    else
      exists i: nat ::
        && OnlyBaseline(h, i) && RecordsCapture(h[i], c)
        && if s.baselineP1 == None then !Baselined(p)
           else
             && s.baselineAverage == c.average && s.baselineP1 == Some(c.p1)
             && (Baselined(p) ==> StepId(One, 17) in p.timestamps && p.timestamps[StepId(One, 17)] == h[i].timestamp)
  }

  /** When the baseline bundle can be prepared. */
  ghost predicate CanPrepareBaseline(s: State, p: Progress, h: seq<Record>, captured: string, c: Capture) {
    && GoodState(s) && GoodHistory(h) && Measured(c) && IsTime(captured) && !p.IsSkipped(StepId(One, 17))
    && EarlierFits(s, p, h, c)
  }

  lemma OnlyBaselineIff(h: seq<Record>, i: nat)
    ensures OnlyBaseline(h, i) <==> OnlyAt(h, i, IsBaseline)
  {
    assert forall j | 0 <= j < |h| :: IsBaseline(h[j]) <==> h[j].title == BASELINE_LABEL;
  }

  lemma NoBaselineIff(h: seq<Record>)
    ensures Filter(h, IsBaseline) == [] <==> forall i | 0 <= i < |h| :: h[i].title != BASELINE_LABEL
  {
    FilterIs(h, IsBaseline);
  }

  /** The stated baseline is the titled record, if that is the only one and measured the same. */
  lemma StatedIs(h: seq<Record>, i: nat, c: Capture)
    requires OnlyBaseline(h, i) && RecordsCapture(h[i], c) && c.runs > 0
    ensures Filter(h, StatedBaseline(c.average, c.p1)) == [h[i]]
  {
    var p := StatedBaseline(c.average, c.p1);
    FilterIs(h, p);
    assert p(h[i]);
    assert OnlyAt(h, i, p);
  }

  lemma RemeasuredIsValid(s: State, c: Capture)
    requires GoodState(s) && Measured(c)
    ensures s.(baselineAverage := c.average, baselineP1 := Some(c.p1)).IsValid()
  {
    hide IsTime, ValidTimestamp;
    StateIff(s.(baselineAverage := c.average, baselineP1 := Some(c.p1)));
  }

  lemma FreshBaseline(s: State, p: Progress, h: seq<Record>, captured: string, c: Capture)
    requires GoodState(s) && GoodHistory(h) && Measured(c) && IsTime(captured) && !p.IsSkipped(StepId(One, 17))
    requires forall i | 0 <= i < |h| :: h[i].title != BASELINE_LABEL
    ensures PrepareBaseline(s, p, h, captured, c).Ok? <==> s.baselineP1 == None && !Baselined(p)
  {
    hide State.IsValid, ValidTimestamp, IsTime, ValidHistory, GoodHistory, Filter, GoodState;
    StateIff(s);
    BaselineFields(s);
    HistoryIff(h);
    TimeIff(captured);
    NoBaselineIff(h);
    RemeasuredIsValid(s, c);
  }

  lemma BaselineFields(s: State)
    requires GoodState(s)
    ensures if s.baselineP1 == None then s.baselineAverage == 0.0 else 0.0 < s.baselineP1.value <= s.baselineAverage
  {
  }

  lemma RepeatedBaseline(s: State, p: Progress, h: seq<Record>, captured: string, c: Capture, i: nat)
    requires GoodState(s) && GoodHistory(h) && Measured(c) && IsTime(captured) && !p.IsSkipped(StepId(One, 17))
    requires i < |h| && OnlyBaseline(h, i)
    ensures PrepareBaseline(s, p, h, captured, c).Ok? <==>
              && RecordsCapture(h[i], c)
              && if s.baselineP1 == None then !Baselined(p)
                 else
                   && s.baselineAverage == c.average && s.baselineP1 == Some(c.p1)
                   && (Baselined(p) ==> StepId(One, 17) in p.timestamps && p.timestamps[StepId(One, 17)] == h[i].timestamp)
  {
    hide State.IsValid, ValidTimestamp, IsTime, ValidHistory, GoodHistory, Filter, GoodState, StatedBaseline, OnlyBaseline, OnlyAt;
    StateIff(s);
    BaselineFields(s);
    HistoryIff(h);
    TimeIff(captured);
    OnlyBaselineIff(h, i);
    FilterIs(h, IsBaseline);
    RemeasuredIsValid(s, c);
    if RecordsCapture(h[i], c) { StatedIs(h, i, c); }
  }

  /** The baseline bundle is prepared exactly then. */
  lemma PrepareBaselineIff(s: State, p: Progress, h: seq<Record>, captured: string, c: Capture)
    ensures PrepareBaseline(s, p, h, captured, c).Ok? <==> CanPrepareBaseline(s, p, h, captured, c)
  {
    hide PrepareBaseline, GoodState, GoodHistory, Measured, IsTime, OnlyBaseline, OnlyAt, Filter;
    if PrepareBaseline(s, p, h, captured, c).Ok? { PreparedNeeds(s, p, h, captured, c); }
    OnlyBaselineInside(h);
    if GoodState(s) && GoodHistory(h) && Measured(c) && IsTime(captured) && !p.IsSkipped(StepId(One, 17)) {
      if forall i | 0 <= i < |h| :: h[i].title != BASELINE_LABEL {
        FreshBaseline(s, p, h, captured, c);
      } else {
        forall i: nat | OnlyBaseline(h, i)
          ensures PrepareBaseline(s, p, h, captured, c).Ok? <==>
                    && i < |h| && RecordsCapture(h[i], c)
                    && if s.baselineP1 == None then !Baselined(p)
                       else
                         && s.baselineAverage == c.average && s.baselineP1 == Some(c.p1)
                         && (Baselined(p) ==> StepId(One, 17) in p.timestamps && p.timestamps[StepId(One, 17)] == h[i].timestamp)
        {
          RepeatedBaseline(s, p, h, captured, c, i);
        }
      }
    }
  }

  lemma OnlyBaselineInside(h: seq<Record>)
    ensures forall i: nat | OnlyBaseline(h, i) :: i < |h| && h[i].title == BASELINE_LABEL
  {
  }

  /** Whatever is prepared has valid files, a measured capture and at most one baseline record. */
  lemma PreparedNeeds(s: State, p: Progress, h: seq<Record>, captured: string, c: Capture)
    requires PrepareBaseline(s, p, h, captured, c).Ok?
    ensures GoodState(s) && GoodHistory(h) && Measured(c) && IsTime(captured) && !p.IsSkipped(StepId(One, 17))
    ensures (forall i | 0 <= i < |h| :: h[i].title != BASELINE_LABEL) || exists i: nat :: OnlyBaseline(h, i)
  {
    hide State.IsValid, GoodState, ValidTimestamp, IsTime, ValidHistory, GoodHistory, Filter, OnlyBaseline, OnlyAt, BaselineNext;
    StateIff(s);
    HistoryIff(h);
    TimeIff(captured);
    NoBaselineIff(h);
    FilterIs(h, IsBaseline);
    forall i: nat ensures OnlyBaseline(h, i) <==> OnlyAt(h, i, IsBaseline) {
      OnlyBaselineIff(h, i);
    }
  }

  /** When the baseline bundle validates: the step completed at the time of the only record that states
      the rates of the state. */
  ghost predicate BaselineCoherent(s: State, p: Progress, h: seq<Record>, r: Record) {
    && GoodState(s) && GoodHistory(h) && s.baselineP1.Some?
    && Baselined(p) && !p.IsSkipped(StepId(One, 17))
    && StepId(One, 17) in p.timestamps && p.timestamps[StepId(One, 17)] == r.timestamp
    && exists i: nat :: OnlyStated(h, i, s.baselineAverage, s.baselineP1.value) && h[i] == r
  }

  predicate States(r: Record, average: real, low: real) {
    && r.title == BASELINE_LABEL && r.average == average && r.p1 == low && r.runs >= 1
    && r.receiptId == None && r.transactionId == None
  }

  ghost predicate OnlyStated(h: seq<Record>, i: nat, average: real, low: real) {
    i < |h| && States(h[i], average, low) && forall j | 0 <= j < |h| && j != i :: !States(h[j], average, low)
  }

  lemma OnlyStatedIff(h: seq<Record>, i: nat, average: real, low: real)
    ensures OnlyStated(h, i, average, low) <==> OnlyAt(h, i, StatedBaseline(average, low))
    ensures OnlyStated(h, i, average, low) ==> i < |h|
  {
    var p := StatedBaseline(average, low);
    assert forall j | 0 <= j < |h| :: p(h[j]) <==> States(h[j], average, low);
  }

  lemma ValidateBaselineIff(s: State, p: Progress, h: seq<Record>, r: Record)
    ensures ValidateBaseline(s, p, h) == Ok(r) <==> BaselineCoherent(s, p, h, r)
  {
    hide State.IsValid, ValidTimestamp, IsTime, ValidHistory, GoodHistory, Filter, OnlyAt, OnlyStated, StatedBaseline, GoodState;
    StateIff(s);
    HistoryIff(h);
    if GoodState(s) { BaselineFields(s); }
    if s.baselineP1.Some? {
      var average, low := s.baselineAverage, s.baselineP1.value;
      FilterIs(h, StatedBaseline(average, low));
      forall i: nat
        ensures OnlyStated(h, i, average, low) <==> OnlyAt(h, i, StatedBaseline(average, low))
        ensures OnlyStated(h, i, average, low) ==> i < |h|
      {
        OnlyStatedIff(h, i, average, low);
      }
    }
  }

  // Reconciling

  /** A record that only the final benchmark writes: by its label or by an id. */
  predicate FinalRecord(r: Record) { r.title == FINAL_LABEL || r.receiptId.Some? || r.transactionId.Some? }

  ghost predicate NoFinalRecord(h: seq<Record>) { forall i | 0 <= i < |h| :: !FinalRecord(h[i]) }

  ghost predicate OnlyFinalRecord(h: seq<Record>, i: nat) {
    i < |h| && FinalRecord(h[i]) && forall j | 0 <= j < |h| && j != i :: !FinalRecord(h[j])
  }

  predicate Rates(average: real, p1: real, runs: nat, c: Capture) { average == c.average && p1 == c.p1 && runs == c.runs }

  /** A receipt that the state already holds is the capture's, and the state is the one it stamped. */
  predicate StateResumes(s: State, c: Capture) {
    && GoodState(s)
    && (s.receipt.Some? ==>
          var r := s.receipt.value;
          && s.transaction.value.stage == PhaseThreeComplete && Rates(r.average, r.p1, r.runs, c)
          && s.cap == r.cap && s.average == r.average && s.p1 == Some(r.p1) && s.capDate == Some(r.captured))
  }

  /** A record that is already written is the final one of this transaction and of the capture, and of the
      receipt that the state holds, if it holds one. */
  predicate RecordResumes(s: State, r: Record, c: Capture) {
    && s.transaction.Some? && s.transaction.value.id.Some? && r.transactionId == s.transaction.value.id
    && r.title == FINAL_LABEL && r.receiptId.Some? && Rates(r.average, r.p1, r.runs, c)
    && (s.receipt.Some? ==> Describes(r, s.receipt.value))
  }

  predicate Describes(r: Record, receipt: Receipt) {
    && r.timestamp == receipt.captured && Rates(r.average, r.p1, r.runs, Capture(receipt.average, receipt.p1, receipt.runs))
    && r.title == receipt.title && r.receiptId == Some(receipt.receiptId) && r.transactionId == Some(receipt.transactionId)
  }

  /** The state as it was before its receipt. */
  function BeforeReceipt(s: State): State
    requires s.receipt.Some? ==> s.transaction.Some?
  {
    if s.receipt == None then s
    else s.(receipt := None, transaction := Some(s.transaction.value.(stage := PhaseThreeArmed)))
  }

  /** What stays to be written is the bundle of this capture, under the id and time that the files name
      already, or under a fresh one. */
  ghost predicate StaysPending(
    s: State, p: Progress, h: seq<Record>, config: Config, drawn: Result<Id, BenchmarkError>, captured: string,
    c: Capture, k: FinalCommit)
  {
    && !Settled(p, 13) && StateResumes(s, c)
    && (s.receipt.Some? ==> k.receipt == s.receipt.value)
    && (|| (NoFinalRecord(h)
            && if s.receipt.Some? then
                 PrepareFinal(BeforeReceipt(s), p, h, config, s.receipt.value.receiptId, s.receipt.value.captured, c) == Ok(k)
               else drawn.Ok? && PrepareFinal(s, p, h, config, drawn.value, captured, c) == Ok(k))
        || exists i: nat :: OnlyFinalRecord(h, i) && ResumesFrom(s, p, h, config, c, k, i))
  }

  ghost predicate ResumesFrom(s: State, p: Progress, h: seq<Record>, config: Config, c: Capture, k: FinalCommit, i: nat)
    requires s.receipt.Some? ==> s.transaction.Some?
  {
    && i < |h| && RecordResumes(s, h[i], c) && Describes(h[i], k.receipt)
    && PrepareFinal(BeforeReceipt(s), p, h[..i] + h[i + 1..], config, h[i].receiptId.value, h[i].timestamp, c) == Ok(k)
  }

  lemma IndicesAre(h: seq<Record>)
    ensures FinalIndices(h) == [] <==> NoFinalRecord(h)
    ensures forall i: nat | OnlyFinalRecord(h, i) :: FinalIndices(h) == [i]
    ensures |FinalIndices(h)| == 1 ==> OnlyFinalRecord(h, FinalIndices(h)[0])
  {
    hide FinalIndices;
    P.FinalIndicesEmptyIff(h, 0);
    assert h[0..] == h;
    assert NoFinalRecord(h) <==> P.NoFinal(h) by {
      if NoFinalRecord(h) {
        forall r | r in h ensures !IsFinal(r) {
          var i :| 0 <= i < |h| && h[i] == r;
          assert !FinalRecord(h[i]);
        }
      } else {
        var i :| 0 <= i < |h| && FinalRecord(h[i]);
        assert h[i] in h && IsFinal(h[i]);
      }
    }
    forall i: nat | OnlyFinalRecord(h, i) ensures FinalIndices(h) == [i] {
      P.FinalIndicesOneIff(h, 0, i);
      OthersAreNot(h, i);
    }
    if |FinalIndices(h)| == 1 {
      var i := FinalIndices(h)[0];
      assert FinalIndices(h) == [i];
      P.FinalIndicesOneIff(h, 0, i);
      OnlyOneIs(h, i);
    }
  }

  lemma OthersAreNot(h: seq<Record>, i: nat)
    requires OnlyFinalRecord(h, i)
    ensures IsFinal(h[i]) && P.NoFinal(h[0..i]) && P.NoFinal(h[i + 1..])
  {
    forall r | r in h[0..i] ensures !IsFinal(r) {
      var j :| 0 <= j < i && h[j] == r;
      assert !FinalRecord(h[j]);
    }
    forall r | r in h[i + 1..] ensures !IsFinal(r) {
      var j :| 0 <= j < |h| - i - 1 && h[i + 1..][j] == r;
      assert !FinalRecord(h[i + 1 + j]);
    }
  }

  lemma OnlyOneIs(h: seq<Record>, i: nat)
    requires i < |h| && IsFinal(h[i]) && P.NoFinal(h[0..i]) && P.NoFinal(h[i + 1..])
    ensures OnlyFinalRecord(h, i)
  {
    forall j | 0 <= j < |h| && j != i ensures !FinalRecord(h[j]) {
      if j < i {
        assert h[0..i][j] in h[0..i];
      } else {
        assert h[i + 1..][j - i - 1] in h[i + 1..];
      }
    }
  }

  lemma StateResumesIff(s: State, c: Capture)
    ensures StateResumes(s, c) <==>
            if s.receipt.Some? then PartialStateFits(s, s.receipt.value, c) else s.IsValid()
  {
    hide State.IsValid, GoodState;
    StateIff(s);
    if GoodState(s) { GoodStateHolds(s); }
  }

  lemma GoodStateHolds(s: State)
    requires GoodState(s)
    ensures s.receipt.Some? ==> s.transaction.Some? && s.transaction.value.id.Some?
  {
  }

  lemma RecordResumesIff(s: State, r: Record, c: Capture)
    requires GoodState(s)
    ensures RecordResumes(s, r, c) <==>
            PartialRecordFits(r, s, c) && (s.receipt.Some? ==> s.receipt.value.Matches(r))
  {
    hide State.IsValid, GoodState;
    StateIff(s);
  }

  lemma PendingFromRecord(
    s: State, p: Progress, h: seq<Record>, config: Config, i: nat, c: Capture, k: FinalCommit)
    requires i < |h| && StateResumes(s, c) && (s.receipt.Some? ==> s.transaction.Some?)
    ensures ReconcileRecord(s, p, h, config, i, c) == Ok(Pending(k)) <==>
            (s.receipt.Some? ==> k.receipt == s.receipt.value) && ResumesFrom(s, p, h, config, c, k, i)
  {
    hide PrepareFinal, State.IsValid, GoodState, PartialRecordFits, RecordResumes;
    RecordResumesIff(s, h[i], c);
  }

  lemma PendingFresh(
    s: State, p: Progress, h: seq<Record>, config: Config, drawn: Result<Id, BenchmarkError>, captured: string,
    c: Capture, k: FinalCommit)
    requires StateResumes(s, c) && NoFinalRecord(h)
    ensures ReconcilePrefix(s, p, h, config, drawn, captured, c) == Ok(Pending(k)) <==>
              && (s.receipt.Some? ==> k.receipt == s.receipt.value)
              && if s.receipt.Some? then
                   PrepareFinal(BeforeReceipt(s), p, h, config, s.receipt.value.receiptId, s.receipt.value.captured, c) == Ok(k)
                 else drawn.Ok? && PrepareFinal(s, p, h, config, drawn.value, captured, c) == Ok(k)
  {
    hide PrepareFinal, State.IsValid, GoodState, PartialStateFits, FinalIndices, NoFinalRecord, ReconcileRecord;
    GoodStateHolds(s);
    StateResumesIff(s, c);
    IndicesAre(h);
  }

  /** What a retry of the final benchmark answers: the stored receipt once the step is complete, the bundle
      that stays to be written, or an error. */
  lemma ReconcileIff(
    s: State, p: Progress, h: seq<Record>, config: Config, drawn: Result<Id, BenchmarkError>, captured: string,
    c: Capture, r: Receipt, k: FinalCommit)
    ensures Reconcile(s, p, h, config, drawn, captured, c) == Ok(Complete(r)) <==>
            p.IsCompleted(StepId(Three, 13)) && FinalCoherent(s, p, h, r) && Rates(r.average, r.p1, r.runs, c)
    ensures Reconcile(s, p, h, config, drawn, captured, c) == Ok(Pending(k)) <==>
            StaysPending(s, p, h, config, drawn, captured, c, k)
  {
    hide ValidateFinal, FinalCoherent, ReconcilePrefix, StateResumes, NoFinalRecord, OnlyFinalRecord, ResumesFrom, PrepareFinal;
    if p.IsCompleted(StepId(Three, 13)) {
      if ValidateFinal(s, p, h).Ok? { ValidateFinalIff(s, p, h, ValidateFinal(s, p, h).value); }
      ValidateFinalIff(s, p, h, r);
    } else if !p.IsSkipped(StepId(Three, 13)) {
      NeverComplete(s, p, h, config, drawn, captured, c);
      PrefixIff(s, p, h, config, drawn, captured, c, k);
    }
  }

  lemma NeverComplete(
    s: State, p: Progress, h: seq<Record>, config: Config, drawn: Result<Id, BenchmarkError>, captured: string, c: Capture)
    ensures var r := ReconcilePrefix(s, p, h, config, drawn, captured, c); r.Ok? ==> r.value.Pending?
  {
    hide PrepareFinal, State.IsValid, FinalIndices, ReconcileRecord;
  }

  lemma PrefixIff(
    s: State, p: Progress, h: seq<Record>, config: Config, drawn: Result<Id, BenchmarkError>, captured: string,
    c: Capture, k: FinalCommit)
    requires !Settled(p, 13)
    ensures ReconcilePrefix(s, p, h, config, drawn, captured, c) == Ok(Pending(k)) <==>
            StaysPending(s, p, h, config, drawn, captured, c, k)
  {
    hide PrepareFinal, State.IsValid, GoodState, PartialStateFits, FinalIndices, ReconcileRecord, NoFinalRecord,
      OnlyFinalRecord, ResumesFrom, ReconcilePrefix, StateResumes;
    IndicesAre(h);
    PrefixNeeds(s, p, h, config, drawn, captured, c);
    if StateResumes(s, c) {
      ResumableHolds(s, c);
      if NoFinalRecord(h) {
        PendingFresh(s, p, h, config, drawn, captured, c, k);
        NotBoth(h);
      } else if |FinalIndices(h)| == 1 {
        var i := FinalIndices(h)[0];
        PrefixIsRecord(s, p, h, config, drawn, captured, c, i);
        PendingFromRecord(s, p, h, config, i, c, k);
        assert forall j: nat | OnlyFinalRecord(h, j) :: FinalIndices(h) == [j] && j == i;
      }
    }
  }

  lemma ResumableHolds(s: State, c: Capture)
    requires StateResumes(s, c)
    ensures GoodState(s) && (s.receipt.Some? ==> s.transaction.Some?)
  {
    hide GoodState;
    GoodStateHolds(s);
  }

  lemma NotBoth(h: seq<Record>)
    requires NoFinalRecord(h)
    ensures forall i: nat :: !OnlyFinalRecord(h, i)
  {
  }

  lemma PrefixNeeds(
    s: State, p: Progress, h: seq<Record>, config: Config, drawn: Result<Id, BenchmarkError>, captured: string, c: Capture)
    ensures ReconcilePrefix(s, p, h, config, drawn, captured, c).Ok? ==> StateResumes(s, c) && |FinalIndices(h)| <= 1
  {
    hide PrepareFinal, State.IsValid, PartialStateFits, FinalIndices, ReconcileRecord, StateResumes;
    StateResumesIff(s, c);
  }

  lemma PrefixIsRecord(
    s: State, p: Progress, h: seq<Record>, config: Config, drawn: Result<Id, BenchmarkError>, captured: string,
    c: Capture, i: nat)
    requires StateResumes(s, c) && FinalIndices(h) == [i] && i < |h| && (s.receipt.Some? ==> s.transaction.Some?)
    ensures ReconcilePrefix(s, p, h, config, drawn, captured, c) == ReconcileRecord(s, p, h, config, i, c)
  {
    hide PrepareFinal, State.IsValid, PartialStateFits, FinalIndices, ReconcileRecord, StateResumes;
    StateResumesIff(s, c);
  }
}
