/** Durable step progress: the record that is stored, and the object the code updates. */
module ProgressRecord {
  import opened Wrappers
  import opened Catalog

  datatype Progress = Progress(
    phase: nat,
    lastCompleted: nat,
    lastSkipped: nat,
    completed: set<StepId>,
    skipped: set<StepId>,
    advisories: map<StepId, string>,
    timestamps: map<StepId, string>)
  {
    predicate IsCompleted(id: StepId) { id in completed }

    predicate IsSkipped(id: StepId) { id in skipped }

    predicate HasAdvisory(id: StepId) { id in advisories }

    predicate Recorded(id: StepId) {
      id in completed || id in skipped || id in advisories
    }

    /** Advisories do not count as resolved. */
    predicate Resolved(id: StepId) { IsCompleted(id) || IsSkipped(id) }

    function Complete(id: StepId, timestamp: string): Progress {
      Progress(PhaseNumber(id.phase), id.number, lastSkipped,
               completed + {id}, skipped - {id}, advisories - {id}, timestamps[id := timestamp])
    }

    function Skip(id: StepId): Progress {
      Progress(PhaseNumber(id.phase), lastCompleted,
               if id.number > lastSkipped then id.number else lastSkipped,
               completed - {id}, skipped + {id}, advisories - {id}, timestamps)
    }

    function AcknowledgeAdvisory(id: StepId, reason: string): Progress {
      Progress(PhaseNumber(id.phase), lastCompleted, lastSkipped,
               completed - {id}, skipped - {id}, advisories[id := reason], timestamps)
    }

    /** No step is recorded twice. A decoded file need not satisfy this. */
    ghost predicate Disjoint() {
      completed !! skipped && completed !! advisories.Keys && skipped !! advisories.Keys
    }
  }

  function PhaseNumber(phase: Phase): nat {
    match phase
    case One => 1
    case Two => 2
    case Three => 3
  }

  function DefaultProgress(): Progress {
    Progress(0, 0, 0, {}, {}, map[], map[])
  }

  class LiveProgress {
    var phase: nat
    var lastCompleted: nat
    var lastSkipped: nat
    var completed: set<StepId>
    var skipped: set<StepId>
    var advisories: map<StepId, string>
    var timestamps: map<StepId, string>

    function Value(): Progress
      reads this
    {
      Progress(phase, lastCompleted, lastSkipped, completed, skipped, advisories, timestamps)
    }

    constructor (p: Progress)
      ensures Value() == p
    {
      phase, lastCompleted, lastSkipped := p.phase, p.lastCompleted, p.lastSkipped;
      completed, skipped, advisories, timestamps := p.completed, p.skipped, p.advisories, p.timestamps;
    }

    method CompleteStep(id: StepId, timestamp: string)
      modifies this
      ensures Value() == old(Value()).Complete(id, timestamp)
    {
      skipped := skipped - {id};
      advisories := advisories - {id};
      completed := completed + {id};
      timestamps := timestamps[id := timestamp];
      phase := PhaseNumber(id.phase);
      lastCompleted := id.number;
    }

    method SkipStep(id: StepId)
      modifies this
      ensures Value() == old(Value()).Skip(id)
    {
      completed := completed - {id};
      advisories := advisories - {id};
      skipped := skipped + {id};
      phase := PhaseNumber(id.phase);
      lastSkipped := if id.number > lastSkipped then id.number else lastSkipped;
    }

    method AcknowledgeStepAdvisory(id: StepId, reason: string)
      modifies this
      ensures Value() == old(Value()).AcknowledgeAdvisory(id, reason)
    {
      completed := completed - {id};
      skipped := skipped - {id};
      advisories := advisories[id := reason];
      phase := PhaseNumber(id.phase);
    }

    method ResolvedCountInPhase(p: Phase) returns (count: nat)
      ensures count == |ResolvedInPhase(Value(), p)|
    {
      count := 0;
      ghost var seen: set<StepId> := {};
      for n := 1 to PhaseSize(p) + 1
        invariant seen == set k | 1 <= k < n && Value().Resolved(StepId(p, k)) :: StepId(p, k)
        invariant count == |seen|
      {
        if StepId(p, n) in completed || StepId(p, n) in skipped {
          assert StepId(p, n) !in seen;
          seen := seen + {StepId(p, n)};
          count := count + 1;
        }
      }
    }
  }

  function ResolvedInPhase(progress: Progress, p: Phase): set<StepId> {
    set k | 1 <= k < PhaseSize(p) + 1 && progress.Resolved(StepId(p, k)) :: StepId(p, k)
  }

  datatype Update = ToCompleted(id: StepId, timestamp: string) | ToSkipped(id: StepId) | ToAdvisory(id: StepId, reason: string)

  function Updated(p: Progress, u: Update): Progress {
    match u
    case ToCompleted(id, timestamp) => p.Complete(id, timestamp)
    case ToSkipped(id) => p.Skip(id)
    case ToAdvisory(id, reason) => p.AcknowledgeAdvisory(id, reason)
  }

  function UpdatedAll(p: Progress, us: seq<Update>): Progress {
    if us == [] then p else Updated(UpdatedAll(p, us[..|us| - 1]), us[|us| - 1])
  }

  function LastFor(us: seq<Update>, id: StepId): Option<Update> {
    if us == [] then None
    else if us[|us| - 1].id == id then Some(us[|us| - 1])
    else LastFor(us[..|us| - 1], id)
  }

  /** What a step is recorded as is decided by its last update alone, and no
      step is ever recorded twice. */
  lemma {:induction false} LastUpdateWins(p: Progress, us: seq<Update>, id: StepId)
    requires p.Disjoint()
    ensures UpdatedAll(p, us).Disjoint()
    ensures match LastFor(us, id)
            case None =>
              && (UpdatedAll(p, us).IsCompleted(id) <==> p.IsCompleted(id))
              && (UpdatedAll(p, us).IsSkipped(id) <==> p.IsSkipped(id))
              && (UpdatedAll(p, us).HasAdvisory(id) <==> p.HasAdvisory(id))
            case Some(u) =>
              && (UpdatedAll(p, us).IsCompleted(id) <==> u.ToCompleted?)
              && (UpdatedAll(p, us).IsSkipped(id) <==> u.ToSkipped?)
              && (UpdatedAll(p, us).HasAdvisory(id) <==> u.ToAdvisory?)
  {
    if us != [] {
      LastUpdateWins(p, us[..|us| - 1], id);
    }
  }
}
