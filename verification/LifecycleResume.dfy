/** After which crashes, reboots and outside changes the workflow can go on. */
module LifecycleResume {
  import opened Wrappers
  import opened Catalog
  import opened ProgressRecord
  import opened Orchestration
  import opened Lifecycle
  import opened LifecycleProofs

  function Seen(truth: bool): Evidence { if truth then Verified else Absent }

  /** A complete and truthful inspection by the user who armed the handoffs. */
  function Facts(s: Sys): PhaseFacts {
    PhaseFacts(s.boot, s.runtimeSelected,
               HandoffEvidence(Seen(s.runOnce), Seen(s.run), Seen(s.safeBoot), Verified),
               s.state.safeModeReady, Seen(Status(s) == Coherent))
  }

  /** A handoff whose state file is ahead of its progress file. */
  ghost predicate Torn(s: Sys) {
    || (Rank(s) == 1 && !s.progress.IsCompleted(SAFE_MODE_HANDOFF))
    || (Rank(s) == 2 && !s.progress.IsCompleted(SAFE_BOOT_CLEAR))
    || (Rank(s) == 3 && !s.progress.IsCompleted(PHASE_THREE_HANDOFF))
  }

  /** Some command can start now, on some truthful inspection. */
  ghost predicate Startable(s: Sys) {
    exists a :: StartsCommand(a) && Next(s, a).Some?
  }

  /** What each stage needs of the machine, the boot mode aside. */
  ghost predicate NeedsMet(s: Sys) {
    match Rank(s)
    case 0 => (!s.safeBoot && !s.run) || (PhaseOneDone(s.progress) && s.runtimeSelected)
    case 1 => s.progress.IsCompleted(SAFE_MODE_HANDOFF) && s.runtimeSelected && s.safeBoot && s.runOnce
    case 2 => s.progress.IsCompleted(SAFE_BOOT_CLEAR) && s.runtimeSelected && !s.safeBoot && s.runOnce
    case 3 => s.progress.IsCompleted(PHASE_THREE_HANDOFF) && s.runtimeSelected && s.run
    case _ => s.run && (Status(s) == Coherent || s.runtimeSelected)
  }

  /** The same with the boot mode, and without a RunOnce value that Phase 1 refuses. */
  ghost predicate Ready(s: Sys) {
    && NeedsMet(s)
    && match Rank(s)
       case 0 =>
         && s.boot == NormalBoot
         && ((!s.safeBoot && !s.run && !s.runOnce) || (PhaseOneDone(s.progress) && s.runtimeSelected))
       case 1 => s.boot == SafeModeBoot
       case 2 => s.boot == SafeModeBoot
       case 3 => s.boot == NormalBoot
       case _ => s.boot == NormalBoot || Status(s) == Coherent
  }

  // Which command starts when: one lemma for each command, and one for each stage

  lemma OptimizeNeeds(s: Sys, f: PhaseFacts, incomplete: bool)
    requires Inv(s) && s.pc == Idle && StartedFromIdle(s, StartOptimize(f, incomplete)).Some?
    ensures Rank(s) == 0 && Ready(s)
  {
    hide PhaseOneDone, Status;
  }

  lemma ArmNeeds(s: Sys, f: PhaseFacts)
    requires Inv(s) && s.pc == Idle && StartedFromIdle(s, StartArm(f)).Some?
    ensures Rank(s) == 0 && Ready(s)
  {
    hide Status;
  }

  lemma PhaseTwoNeedsRuntime(s: Sys, f: PhaseFacts, t: Transition)
    requires Grants(s, PhaseTwo, f, t)
    ensures s.runtimeSelected
  {
  }

  lemma PhaseTwoNeeds(s: Sys, f: PhaseFacts)
    requires Inv(s) && StartedPhaseTwo(s, f).Some?
    ensures 1 <= Rank(s) <= 2 && Ready(s)
  {
    hide Grants, Status, Inv;
    if Grants(s, PhaseTwo, f, RunPhaseTwoStepOne) {
      PhaseTwoNeedsRuntime(s, f, RunPhaseTwoStepOne);
      PhaseTwoGrant(s, f, RunPhaseTwoStepOne);
    } else {
      PhaseTwoNeedsRuntime(s, f, RunRemainingPhaseTwo);
      PhaseTwoGrant(s, f, RunRemainingPhaseTwo);
    }
  }

  lemma ArmedRunNeeds(s: Sys, request: PhaseRequest, f: PhaseFacts, t: Transition)
    requires request in {PhaseThree, FinalBenchmark, ClearPhaseThreeHandoff} && Grants(s, request, f, t)
    ensures s.run
    ensures request != ClearPhaseThreeHandoff ==> s.boot == NormalBoot && s.runtimeSelected && PhaseTwoDone(s.progress)
    ensures request == PhaseThree ==> Rank(s) == 3
    ensures request == FinalBenchmark ==> 3 <= Rank(s) <= 4
  {
  }

  lemma PhaseThreeNeeds(s: Sys, f: PhaseFacts)
    requires Inv(s) && StartedPhaseThree(s, f).Some?
    ensures 3 <= Rank(s) <= 4 && Ready(s)
  {
    hide Grants, Inv, EarlierPhaseThreeResolved;
    if Status(s) == Coherent {
      ArmedRunNeeds(s, ClearPhaseThreeHandoff, WithFinal(f, Verified), DoClearPhaseThreeHandoff);
    } else {
      ArmedRunNeeds(s, PhaseThree, WithFinal(f, Absent), RunPhaseThree);
      assert s.progress.IsCompleted(StepId(Two, 3));
    }
  }

  lemma FinalNeeds(s: Sys, f: PhaseFacts)
    requires Inv(s) && StartedFinalBenchmark(s, f).Some?
    ensures 3 <= Rank(s) <= 4 && Ready(s)
  {
    hide Grants, Inv, EarlierPhaseThreeResolved;
    ArmedRunNeeds(s, FinalBenchmark, f, PersistFinal);
    assert s.progress.IsCompleted(StepId(Two, 3));
  }

  lemma StartNeeds(s: Sys, a: Action)
    requires Inv(s) && s.pc == Idle && StartsCommand(a) && Next(s, a).Some?
    ensures Ready(s)
  {
    hide Inv, Ready, Grants, StartedPhaseTwo, StartedPhaseThree, StartedFinalBenchmark, AssessInventory;
    match a
    case StartOptimize(f, incomplete) => OptimizeNeeds(s, f, incomplete);
    case StartArm(f) => ArmNeeds(s, f);
    case StartPhaseTwo(f) => PhaseTwoNeeds(s, f);
    case StartPhaseThree(f) => PhaseThreeNeeds(s, f);
    case StartFinalBenchmark(f) => FinalNeeds(s, f);
    case _ =>
  }

  lemma PhaseTwoHasItsFirst(p: Progress)
    ensures PhaseTwoDone(p) ==> p.IsCompleted(SAFE_BOOT_CLEAR)
  {
    assert PhaseTwoDone(p) ==> p.IsCompleted(StepId(Two, 1));
  }

  lemma NothingLater(s: Sys)
    requires Inv(s) && Rank(s) == 0
    ensures !HasPhase(s.progress, Two) && !HasPhase(s.progress, Three)
  {
    forall n | 1 <= n <= PhaseSize(Two) ensures !s.progress.Recorded(StepId(Two, n)) {
      assert StepId(Two, n) in {SAFE_BOOT_CLEAR, DRIVER_CLEANUP, PHASE_THREE_HANDOFF};
    }
    PhaseTwoHasItsFirst(s.progress);
  }

  lemma PhaseOneStarts(s: Sys)
    requires Inv(s) && s.pc == Idle && Rank(s) == 0 && Ready(s)
    ensures Startable(s)
  {
    hide Status, Inv;
    var f := Facts(s);
    if PhaseOneDone(s.progress) && s.runtimeSelected {
      assert Next(s, StartArm(f)).Some?;
    } else {
      NothingLater(s);
      assert s.state == RebootState(false, None) by { NoTransactionYet(s); }
      assert Next(s, StartOptimize(f, false)).Some?;
    }
  }

  lemma NoTransactionYet(s: Sys)
    requires Inv(s) && Rank(s) == 0
    ensures s.state == RebootState(false, None)
  {
  }

  lemma PhaseTwoStarts(s: Sys)
    requires Inv(s) && s.pc == Idle && 1 <= Rank(s) <= 2 && Ready(s)
    ensures Startable(s)
  {
    hide Status, PhaseOneDone, PhaseTwoDone, EarlierPhaseThreeResolved;
    assert Rank(s) == 1 ==> !s.progress.Recorded(DRIVER_CLEANUP) && !s.progress.Recorded(PHASE_THREE_HANDOFF);
    assert Rank(s) == 1 ==> !HasPhaseTwoLaterStep(s.progress) by {
      forall n | 2 <= n <= PhaseSize(Two) ensures StepId(Two, n) in {DRIVER_CLEANUP, PHASE_THREE_HANDOFF} {}
    }
    assert Next(s, StartPhaseTwo(Facts(s))).Some?;
  }

  lemma PhaseTwoIsDone(s: Sys)
    requires Inv(s) && ((Rank(s) == 3 && s.progress.IsCompleted(PHASE_THREE_HANDOFF)) || Rank(s) == 4)
    ensures RequireCompletedPhaseTwo(s.progress).None?
  {
    hide PhaseOneDone, Status, EarlierPhaseThreeResolved;
    assert PhaseTwoDone(s.progress) by {
      assert forall k | 1 <= k <= PhaseSize(Two) :: StepId(Two, k) in {SAFE_BOOT_CLEAR, DRIVER_CLEANUP, PHASE_THREE_HANDOFF};
    }
  }

  /** The final benchmark starts again whatever part of its bundle was written. */
  lemma FinalStarts(s: Sys, f: PhaseFacts)
    requires Inv(s) && s.pc == Idle && RequireCompletedPhaseTwo(s.progress).None?
    requires Rank(s) == 4 || (Rank(s) == 3 && s.historyReceipt)
    requires Truthful(s, f) && f.boot == NormalBoot && f.runtimeVerified
    requires f.handoff.phaseThreeRun == Verified && f.handoff.sameUser == Verified
    ensures Next(s, StartFinalBenchmark(f)).Some?
  {
    hide PhaseOneDone, PhaseTwoDone, EarlierPhaseThreeResolved, RequireCompletedPhaseTwo;
  }

  lemma PhaseThreeStarts(s: Sys)
    requires Inv(s) && s.pc == Idle && Rank(s) == 3 && Ready(s)
    ensures Startable(s)
  {
    hide PhaseOneDone, PhaseTwoDone, EarlierPhaseThreeResolved, RequireCompletedPhaseTwo;
    PhaseTwoIsDone(s);
    if s.historyReceipt {
      FinalStarts(s, Facts(s));
    } else {
      assert Next(s, StartPhaseThree(Facts(s))).Some?;
    }
  }

  lemma EndStarts(s: Sys)
    requires Inv(s) && s.pc == Idle && Rank(s) == 4 && Ready(s)
    ensures Startable(s)
  {
    hide PhaseOneDone, PhaseTwoDone, EarlierPhaseThreeResolved, RequireCompletedPhaseTwo;
    PhaseTwoIsDone(s);
    if Status(s) == Coherent {
      assert Next(s, StartPhaseThree(Facts(s))).Some?;
    } else {
      FinalStarts(s, Facts(s));
    }
  }

  /** In every idle state that can be reached, a command can start exactly on these conditions. */
  lemma StartableIff(s: Sys)
    requires Inv(s) && s.pc == Idle
    ensures Startable(s) <==> Ready(s)
  {
    hide Inv, Ready, Next;
    assert Rank(s) <= 4 by { RankIsBounded(s); }
    if a :| StartsCommand(a) && Next(s, a).Some? {
      StartNeeds(s, a);
    } else if Ready(s) {
      if Rank(s) == 0 { PhaseOneStarts(s); }
      else if Rank(s) <= 2 { PhaseTwoStarts(s); }
      else if Rank(s) == 3 { PhaseThreeStarts(s); }
      else { EndStarts(s); }
    }
  }

  lemma RankIsBounded(s: Sys)
    requires Inv(s)
    ensures Rank(s) <= 4
  {
  }

  // Reboots and outside changes

  ghost function Along(s: Sys, path: seq<Action>): Option<Sys>
    decreases |path|
  {
    if path == [] then Some(s)
    else
      match Next(s, path[0])
      case None => None
      case Some(t) => Along(t, path[1..])
  }

  /** After these actions, in which no command starts, some command can start. */
  ghost predicate Resumes(s: Sys, path: seq<Action>) {
    Along(s, path).Some? && Startable(Along(s, path).value)
  }

  ghost predicate OnlyReboots(path: seq<Action>) { forall a | a in path :: a.Reboot? }

  ghost predicate NoCommands(path: seq<Action>) { forall a | a in path :: a.Reboot? || a.Outside? }

  /** Reboots change the boot mode and may drop the RunOnce value; nothing else. */
  lemma {:induction false} RebootsKeepNeeds(s: Sys, path: seq<Action>)
    requires Inv(s) && s.pc == Idle && OnlyReboots(path)
    ensures Along(s, path).Some?
    ensures var t := Along(s, path).value;
            Inv(t) && t.pc == Idle && (NeedsMet(t) ==> NeedsMet(s))
    decreases |path|
  {
    hide Inv, NeedsMet;
    if path != [] {
      assert path[0] in path;
      RebootKeepsNeeds(s, path[0]);
      RebootsKeepNeeds(Next(s, path[0]).value, path[1..]);
    }
  }

  lemma RebootKeepsNeeds(s: Sys, a: Action)
    requires Inv(s) && s.pc == Idle && a.Reboot?
    ensures Next(s, a).Some?
    ensures var t := Next(s, a).value;
            Inv(t) && t.pc == Idle && (NeedsMet(t) ==> NeedsMet(s))
  {
    hide Inv, PhaseOneDone;
    NextKeepsInv(s, a);
    assert Status(Next(s, a).value) == Status(s);
  }

  /** Rebooting the way the stage wants is enough where its needs are met. */
  lemma RebootReadies(s: Sys) returns (a: Action)
    requires Inv(s) && s.pc == Idle && NeedsMet(s)
    ensures a.Reboot? && Next(s, a).Some? && Ready(Next(s, a).value)
  {
    hide PhaseOneDone, Inv;
    var safe := 1 <= Rank(s) <= 2;
    a := Reboot(if safe then SafeModeBoot else NormalBoot, safe);
    assert Status(Next(s, a).value) == Status(s);
  }

  /** The workflow resumes by reboots alone, if and only if its handoff is not torn and
      Safe Boot, the handoff values and the runtime are as the stage needs them. */
  lemma {:induction false} ResumesByRebootsIff(s: Sys)
    requires Inv(s) && s.pc == Idle
    ensures (exists path :: OnlyReboots(path) && Resumes(s, path)) <==> NeedsMet(s)
    ensures NeedsMet(s) ==> !Torn(s)
  {
    hide Inv, Startable, Ready;
    if NeedsMet(s) {
      var a := RebootReadies(s);
      NextKeepsInv(s, a);
      StartableIff(Next(s, a).value);
      StartsAfter(s, a);
    }
    if path :| OnlyReboots(path) && Resumes(s, path) {
      RebootsKeepNeeds(s, path);
      var t := Along(s, path).value;
      StartableIff(t);
      assert NeedsMet(t) by { ReadyNeeds(t); }
    }
  }

  lemma StartsAfter(s: Sys, a: Action)
    requires Next(s, a).Some? && Startable(Next(s, a).value)
    ensures Resumes(s, [a])
  {
    hide Next, Startable;
    assert [a][1..] == [];
    assert Along(Next(s, a).value, []) == Next(s, a);
  }

  lemma ReadyNeeds(s: Sys)
    requires Ready(s)
    ensures NeedsMet(s)
  {
  }

  lemma TornHasNoNeedsMet(s: Sys)
    requires Torn(s)
    ensures !Ready(s)
  {
  }

  /** A torn handoff fails closed: no command starts, and every other action leaves it
      torn, with the state file and the recorded Phase 2 and 3 progress as they are. */
  lemma TornHandoffStaysClosed(s: Sys, a: Action)
    requires Inv(s) && s.pc == Idle && Torn(s) && Next(s, a).Some?
    ensures !StartsCommand(a)
    ensures var t := Next(s, a).value;
            && Torn(t) && t.state == s.state && t.pc == Idle
            && (t.progress == s.progress || (a.RecordStep? && a.id.phase == One))
  {
    hide Inv, Ready, Started;
    if StartsCommand(a) {
      StartNeeds(s, a);
      TornHasNoNeedsMet(s);
    }
  }

  lemma {:induction false} TornStaysTorn(s: Sys, path: seq<Action>)
    requires Inv(s) && s.pc == Idle && Torn(s) && Along(s, path).Some?
    ensures var t := Along(s, path).value;
            Inv(t) && t.pc == Idle && Torn(t)
    decreases |path|
  {
    hide Inv, Torn, Next;
    if path != [] {
      NextKeepsInv(s, path[0]);
      TornHandoffStaysClosed(s, path[0]);
      TornStaysTorn(Next(s, path[0]).value, path[1..]);
    }
  }

  /** What somebody would have to set from outside for the stage to go on. */
  function Repair(s: Sys): Action {
    Outside(Rank(s) == 1, true, Rank(s) >= 3, true)
  }

  lemma RepairMeetsNeeds(s: Sys)
    requires Inv(s) && s.pc == Idle && !Torn(s)
    ensures Next(s, Repair(s)).Some? && NeedsMet(Next(s, Repair(s)).value) && Next(s, Repair(s)).value.pc == Idle
  {
    hide PhaseOneDone, Status, Inv;
    RankIsBounded(s);
  }

  /** With outside changes allowed, a workflow can resume if and only if its handoff is not torn. */
  lemma {:induction false} ResumesIff(s: Sys)
    requires Inv(s) && s.pc == Idle
    ensures (exists path :: NoCommands(path) && Resumes(s, path)) <==> !Torn(s)
  {
    hide Inv, Startable, Ready, Torn, NeedsMet;
    if Torn(s) {
      forall path | NoCommands(path) ensures !Resumes(s, path) {
        if Along(s, path).Some? {
          TornStaysTorn(s, path);
          StartableIff(Along(s, path).value);
          TornHasNoNeedsMet(Along(s, path).value);
        }
      }
    } else {
      RepairMeetsNeeds(s);
      var t := Next(s, Repair(s)).value;
      NextKeepsInv(s, Repair(s));
      var a := RebootReadies(t);
      NextKeepsInv(t, a);
      StartableIff(Next(t, a).value);
      RepairedResumes(s, Repair(s), a);
    }
  }

  lemma RepairedResumes(s: Sys, repair: Action, a: Action)
    requires repair.Outside? && a.Reboot?
    requires Next(s, repair).Some? && Next(Next(s, repair).value, a).Some?
    requires Startable(Next(Next(s, repair).value, a).value)
    ensures NoCommands([repair, a]) && Resumes(s, [repair, a])
  {
    hide Next, Startable;
    StartsAfter(Next(s, repair).value, a);
    assert [repair, a][1..] == [a];
  }

  // Crashes

  function Crashed(s: Sys): Sys { s.(pc := Idle) }

  /** A command in flight leaves a torn handoff exactly when it crashes between the
      state write and the progress write of P1:38, P2:1 or P2:3. */
  lemma CrashTearsIff(s: Sys)
    requires Inv(s) && s.pc != Idle
    ensures Next(s, Crash) == Some(Crashed(s)) && Inv(Crashed(s))
    ensures Torn(Crashed(s)) <==> s.pc.ArmProgress? || s.pc.ClearProgress? || s.pc.HandoffProgress?
  {
    hide PhaseOneDone, EarlierPhaseThreeResolved;
    if PhaseTwoDone(s.progress) {
      assert s.progress.IsCompleted(StepId(Two, 1)) && s.progress.IsCompleted(StepId(Two, 3));
    }
  }

  /** A command that crashes resumes by reboots alone, unless it tears its handoff,
      removes the Safe Boot flag and does not come to record it, or finds its needs
      changed since it started. */
  lemma CrashResumesByReboots(s: Sys)
    requires Inv(s) && s.pc != Idle && !s.pc.ArmProgress? && !s.pc.ClearProgress? && !s.pc.HandoffProgress?
    ensures (exists path :: OnlyReboots(path) && Resumes(Crashed(s), path)) <==> NeedsMet(s)
    ensures s.pc.ClearState? ==> !NeedsMet(s)
  {
    hide Inv, Resumes, Torn, NeedsMet;
    CrashTearsIff(s);
    ResumesByRebootsIff(Crashed(s));
    SameNeeds(s);
  }

  lemma SameNeeds(s: Sys)
    ensures NeedsMet(Crashed(s)) <==> NeedsMet(s)
    ensures Inv(s) && s.pc.ClearState? ==> !NeedsMet(s)
  {
    hide PhaseOneDone;
    assert Status(Crashed(s)) == Status(s);
  }

  /** A crash of the final benchmark at any of its writes tears nothing: the same
      command starts again, exactly on the evidence it needs. */
  lemma CrashedFinalBenchmarkRestartsIff(s: Sys, f: PhaseFacts)
    requires Inv(s) && (s.pc.FinalHistory? || s.pc.FinalState? || s.pc.FinalProgress? || s.pc.FinalAuthorize?)
    ensures Next(Crashed(s), StartFinalBenchmark(f)).Some?
            <==> && Truthful(Crashed(s), f) && f.boot == NormalBoot && f.runtimeVerified
                 && f.handoff.phaseThreeRun == Verified && f.handoff.sameUser == Verified
  {
    hide PhaseOneDone, EarlierPhaseThreeResolved, RequireCompletedPhaseTwo;
  }
}
