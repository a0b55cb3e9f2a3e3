/**
 * The onboarding store (src/store/useOnboardingStore.ts): the same state cell
 * and gating actions as PermitStore, without a facility address, without the
 * emission-unit list actions, with `updateCompliance` for the step 3 merge, and
 * with an initial record whose two choice fields start as 'other' and
 * 'periodic' rather than unset. Its class is named `PermitApplicationStore`
 * because the onboarding store file exports its hook as `usePermitApplicationStore`.
 */
module OnboardingStore {
  import opened Wrappers
  import opened ApplicationData
  import StepGating

  /** Step 1 fields of the onboarding record (no address). */
  datatype FacilityInfo = FacilityInfo(
    facilityName: string,
    operatorName: string,
    county: string,
    latitude: string,
    longitude: string,
    regulatedEntityNumber: string,
    industryType: string)

  datatype FacilityPatch = FacilityPatch(
    facilityName: Option<string>,
    operatorName: Option<string>,
    county: Option<string>,
    latitude: Option<string>,
    longitude: Option<string>,
    regulatedEntityNumber: Option<string>,
    industryType: Option<string>)

  function MergeFacility(f: FacilityInfo, p: FacilityPatch): (r: FacilityInfo)
    ensures Overwrites(p.facilityName, r.facilityName, f.facilityName)
    ensures Overwrites(p.operatorName, r.operatorName, f.operatorName)
    ensures Overwrites(p.county, r.county, f.county)
    ensures Overwrites(p.latitude, r.latitude, f.latitude)
    ensures Overwrites(p.longitude, r.longitude, f.longitude)
    ensures Overwrites(p.regulatedEntityNumber, r.regulatedEntityNumber, f.regulatedEntityNumber)
    ensures Overwrites(p.industryType, r.industryType, f.industryType)
  {
    FacilityInfo(
      p.facilityName.GetOr(f.facilityName),
      p.operatorName.GetOr(f.operatorName),
      p.county.GetOr(f.county),
      p.latitude.GetOr(f.latitude),
      p.longitude.GetOr(f.longitude),
      p.regulatedEntityNumber.GetOr(f.regulatedEntityNumber),
      p.industryType.GetOr(f.industryType))
  }

  /** The application record, its fields grouped by the step that edits them. */
  datatype PermitApplicationData = PermitApplicationData(
    facility: FacilityInfo,
    emissions: EmissionInfo,
    compliance: ComplianceInfo,
    additional: AdditionalInfo)

  /** Every text field empty, every list empty, every flag false; industry 'other', method 'periodic'. */
  const InitialData: PermitApplicationData := PermitApplicationData(
    FacilityInfo("", "", "", "", "", "", "other"),
    InitialEmission,
    ComplianceInfo(false, false, [], "periodic", false),
    InitialAdditional)

  class PermitApplicationStore {
    var currentStep: int
    var data: PermitApplicationData
    var isCompleted: bool
    var completedSteps: set<int>

    function Gating(): StepGating.Gate
      reads this
    {
      StepGating.Gate(currentStep, completedSteps)
    }

    /** The pointer is on one of the four steps and at most one step past the furthest completed one. */
    ghost predicate Valid()
      reads this
    {
      StepGating.Valid(Gating()) && StepGating.WithinProgress(Gating())
    }

    constructor()
      ensures Valid()
      ensures currentStep == 1 && data == InitialData && !isCompleted && completedSteps == {}
      ensures Gating() == StepGating.Initial
    {
      currentStep := 1;
      data := InitialData;
      isCompleted := false;
      completedSteps := {};
    }

    function IsStepAccessible(step: int): (r: bool)
      reads this
      ensures step == 1 ==> r
      ensures step != 1 ==> (r <==> step - 1 in completedSteps)
    {
      StepGating.IsStepAccessible(completedSteps, step)
    }

    method SetCurrentStep(step: int)
      requires Valid()
      modifies this`currentStep
      ensures Valid()
      ensures Gating() == StepGating.Apply(old(Gating()), StepGating.SetCurrentStep(step))
      ensures old(IsStepAccessible(step)) ==> currentStep == StepGating.Clamp(step)
      ensures !old(IsStepAccessible(step)) ==> currentStep == old(currentStep)
    {
      if IsStepAccessible(step) {
        currentStep := StepGating.Clamp(step);
      }
    }

    method UpdateFacilityInfo(info: FacilityPatch)
      modifies this`data
      ensures data == old(data).(facility := MergeFacility(old(data).facility, info))
    {
      data := data.(facility := MergeFacility(data.facility, info));
    }

    method UpdateEmissionUnits(units: EmissionPatch)
      modifies this`data
      ensures data == old(data).(emissions := MergeEmission(old(data).emissions, units))
    {
      data := data.(emissions := MergeEmission(data.emissions, units));
    }

    method UpdateCompliance(compliance: CompliancePatch)
      modifies this`data
      ensures data == old(data).(compliance := MergeCompliance(old(data).compliance, compliance))
    {
      data := data.(compliance := MergeCompliance(data.compliance, compliance));
    }

    method UpdateAdditionalRequirements(requirements: AdditionalPatch)
      modifies this`data
      ensures data == old(data).(additional := MergeAdditional(old(data).additional, requirements))
    {
      data := data.(additional := MergeAdditional(data.additional, requirements));
    }

    method NextStep()
      requires Valid()
      modifies this`currentStep
      ensures Valid()
      ensures Gating() == StepGating.Apply(old(Gating()), StepGating.NextStep)
      ensures if old(currentStep) + 1 <= 4 && old(IsStepAccessible(currentStep + 1))
              then currentStep == old(currentStep) + 1 else currentStep == old(currentStep)
    {
      var nextStepNumber := currentStep + 1;
      if nextStepNumber <= 4 && IsStepAccessible(nextStepNumber) {
        currentStep := nextStepNumber;
      }
    }

    method PreviousStep()
      requires Valid()
      modifies this`currentStep
      ensures Valid()
      ensures Gating() == StepGating.Apply(old(Gating()), StepGating.PreviousStep)
      ensures currentStep == if old(currentStep) > 1 then old(currentStep) - 1 else old(currentStep)
    {
      if currentStep > 1 {
        currentStep := currentStep - 1;
      }
    }

    method CompleteApplication()
      modifies this`isCompleted
      ensures isCompleted
    {
      isCompleted := true;
    }

    method ResetApplication()
      modifies this
      ensures Valid()
      ensures currentStep == 1 && data == InitialData && !isCompleted && completedSteps == {}
      ensures Gating() == StepGating.Apply(old(Gating()), StepGating.Reset)
    {
      currentStep := 1;
      data := InitialData;
      isCompleted := false;
      completedSteps := {};
    }

    method MarkStepCompleted(step: int)
      requires Valid()
      modifies this`completedSteps
      ensures Valid()
      ensures completedSteps == old(completedSteps) + {step}
      ensures Gating() == StepGating.Apply(old(Gating()), StepGating.MarkStepCompleted(step))
    {
      completedSteps := completedSteps + {step};
    }
  }
}
