/** The fixed step schedule and the profile policy. */
module Catalog {
  datatype Phase = One | Two | Three

  datatype StepId = StepId(phase: Phase, number: nat)

  datatype Risk = Safe | Moderate | Aggressive | Critical {
    function Rank(): nat {
      match this
      case Safe => 0
      case Moderate => 1
      case Aggressive => 2
      case Critical => 3
    }
  }

  datatype Step = Step(id: StepId, tier: nat, risk: Risk, checkOnly: bool)

  datatype OrchestrationRole =
    Engine | ArmSafeModeHandoff | ClearSafeBoot | ArmPhaseThreeHandoff | PersistFinalBenchmark

  const BASELINE_BENCHMARK := StepId(One, 17)
  const XMP_EXPO_CHECK := StepId(One, 2)
  const RESIZABLE_BAR_CHECK := StepId(One, 9)
  const SAFE_MODE_HANDOFF := StepId(One, 38)
  const SAFE_BOOT_CLEAR := StepId(Two, 1)
  const DRIVER_CLEANUP := StepId(Two, 2)
  const PHASE_THREE_HANDOFF := StepId(Two, 3)
  const DRIVER_INSTALL := StepId(Three, 1)
  const FINAL_BENCHMARK := StepId(Three, 13)

  /** Steps of a phase are numbered from one; the schedule has 54 steps in all. */
  function PhaseSize(phase: Phase): nat {
    match phase
    case One => 38
    case Two => 3
    case Three => 13
  }

  predicate InCatalog(id: StepId) {
    1 <= id.number <= PhaseSize(id.phase)
  }

  function Role(id: StepId): OrchestrationRole {
    if id == SAFE_MODE_HANDOFF then ArmSafeModeHandoff
    else if id == SAFE_BOOT_CLEAR then ClearSafeBoot
    else if id == PHASE_THREE_HANDOFF then ArmPhaseThreeHandoff
    else if id == FINAL_BENCHMARK then PersistFinalBenchmark
    else Engine
  }

  /** Steps that only the custom profile asks consent for; every other profile runs them. */
  predicate IsTierOne(id: StepId) {
    match id.phase
    case One => id.number in {1, 2, 3, 4, 5, 6, 12, 16, 17, 18, 19, 24}
    case Two => 1 <= id.number <= 3
    case Three => id.number in {1, 5, 12, 13}
  }

  datatype Profile = SafeProfile | Recommended | Competitive | Custom | Yolo

  datatype Decision = Auto | Prompt | Skip

  function MaximumRisk(profile: Profile): Risk {
    match profile
    case SafeProfile => Safe
    case Recommended => Moderate
    case Competitive => Aggressive
    case Yolo => Aggressive
    case Custom => Critical
  }

  function Decide(profile: Profile, tier: nat, risk: Risk): Decision {
    if tier == 1 then
      if profile == Custom then Prompt else Auto
    else if risk.Rank() > MaximumRisk(profile).Rank() then Skip
    else
      match profile
      case SafeProfile => if tier == 2 && risk == Safe then Auto else Skip
      case Recommended => if tier == 2 then Prompt else Skip
      case Competitive => Prompt
      case Custom => Prompt
      case Yolo => Auto
  }

  /** Steps a live run goes on with without asking. */
  predicate RunsUnasked(profile: Profile, tier: nat, risk: Risk) {
    || (tier == 1 && profile != Custom)
    || (tier == 2 && risk == Safe && profile == SafeProfile)
    || (risk != Critical && profile == Yolo)
  }

  /** Steps a live run goes on with if the user agrees. */
  predicate RunsIfAgreed(profile: Profile, tier: nat, risk: Risk) {
    || profile == Custom
    || (tier == 2 && (risk == Safe || risk == Moderate) && profile == Recommended)
    || (tier != 1 && risk != Critical && profile == Competitive)
  }

  /** Every step is run, asked for or skipped as the two tables say, whatever its tier and risk. */
  lemma DecideIff(profile: Profile, tier: nat, risk: Risk)
    ensures Decide(profile, tier, risk) == Auto <==> RunsUnasked(profile, tier, risk)
    ensures Decide(profile, tier, risk) == Prompt <==> RunsIfAgreed(profile, tier, risk)
  {
    match profile {
      case _ => match risk { case _ => }
    }
  }
}
