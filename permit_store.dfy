/**
 * The permit-application store: one state cell holding the current step, the
 * application record, the completion flag and the set of completed steps,
 * with the actions the wizard's components call.
 *
 * Every gating action is tied to `StepGating.Apply`, so the trace lemmas proved
 * there hold for any sequence of calls on a store.
 */
module PermitStore {
  import opened Wrappers
  import opened ApplicationData
  import StepGating

  /** Step 1 fields of the permit application. */
  datatype FacilityInfo = FacilityInfo(
    facilityName: string,
    operatorName: string,
    facilityAddress: string,
    county: string,
    latitude: string,
    longitude: string,
    regulatedEntityNumber: string,
    industryType: string)

  datatype FacilityPatch = FacilityPatch(
    facilityName: Option<string>,
    operatorName: Option<string>,
    facilityAddress: Option<string>,
    county: Option<string>,
    latitude: Option<string>,
    longitude: Option<string>,
    regulatedEntityNumber: Option<string>,
    industryType: Option<string>)

  function MergeFacility(f: FacilityInfo, p: FacilityPatch): (r: FacilityInfo)
    ensures Overwrites(p.facilityName, r.facilityName, f.facilityName)
    ensures Overwrites(p.operatorName, r.operatorName, f.operatorName)
    ensures Overwrites(p.facilityAddress, r.facilityAddress, f.facilityAddress)
    ensures Overwrites(p.county, r.county, f.county)
    ensures Overwrites(p.latitude, r.latitude, f.latitude)
    ensures Overwrites(p.longitude, r.longitude, f.longitude)
    ensures Overwrites(p.regulatedEntityNumber, r.regulatedEntityNumber, f.regulatedEntityNumber)
    ensures Overwrites(p.industryType, r.industryType, f.industryType)
  {
    FacilityInfo(
      p.facilityName.GetOr(f.facilityName),
      p.operatorName.GetOr(f.operatorName),
      p.facilityAddress.GetOr(f.facilityAddress),
      p.county.GetOr(f.county),
      p.latitude.GetOr(f.latitude),
      p.longitude.GetOr(f.longitude),
      p.regulatedEntityNumber.GetOr(f.regulatedEntityNumber),
      p.industryType.GetOr(f.industryType))
  }

  /** The application record, its fields grouped by the step that edits them. */
  datatype PermitApplicationData = PermitApplicationData(
    facility: FacilityInfo,
    emissions: EmissionInfo,
    compliance: ComplianceInfo,
    additional: AdditionalInfo)

  /** Every text field empty, every list empty, every flag false; the two choice fields unset (''). */
  const InitialData: PermitApplicationData := PermitApplicationData(
    FacilityInfo("", "", "", "", "", "", "", ""),
    InitialEmission,
    ComplianceInfo(false, false, [], "", false),
    InitialAdditional)

  class PermitApplicationStore {
    var currentStep: int
    var data: PermitApplicationData
    var isCompleted: bool
    var completedSteps: set<int>

    function Gating(): StepGating.Gate
      reads this
    {
      StepGating.Gate(currentStep, completedSteps)
    }

    /** The pointer is on one of the four steps and at most one step past the furthest completed one. */
    ghost predicate Valid()
      reads this
    {
      StepGating.Valid(Gating()) && StepGating.WithinProgress(Gating())
    }

    constructor()
      ensures Valid()
      ensures currentStep == 1 && data == InitialData && !isCompleted && completedSteps == {}
      ensures Gating() == StepGating.Initial
    {
      currentStep := 1;
      data := InitialData;
      isCompleted := false;
      completedSteps := {};
    }

    function IsStepAccessible(step: int): (r: bool)
      reads this
      ensures step == 1 ==> r
      ensures step != 1 ==> (r <==> step - 1 in completedSteps)
    {
      StepGating.IsStepAccessible(completedSteps, step)
    }

    method SetCurrentStep(step: int)
      requires Valid()
      modifies this`currentStep
      ensures Valid()
      ensures Gating() == StepGating.Apply(old(Gating()), StepGating.SetCurrentStep(step))
      ensures old(IsStepAccessible(step)) ==> currentStep == StepGating.Clamp(step)
      ensures !old(IsStepAccessible(step)) ==> currentStep == old(currentStep)
    {
      if IsStepAccessible(step) {
        currentStep := StepGating.Clamp(step);
      }
    }

    method UpdateFacilityInfo(info: FacilityPatch)
      modifies this`data
      ensures data == old(data).(facility := MergeFacility(old(data).facility, info))
    {
      data := data.(facility := MergeFacility(data.facility, info));
    }

    method UpdateEmissionUnits(units: EmissionPatch)
      modifies this`data
      ensures data == old(data).(emissions := MergeEmission(old(data).emissions, units))
    {
      data := data.(emissions := MergeEmission(data.emissions, units));
    }

    method UpdateComplianceInfo(compliance: CompliancePatch)
      modifies this`data
      ensures data == old(data).(compliance := MergeCompliance(old(data).compliance, compliance))
    {
      data := data.(compliance := MergeCompliance(data.compliance, compliance));
    }

    method UpdateAdditionalRequirements(requirements: AdditionalPatch)
      modifies this`data
      ensures data == old(data).(additional := MergeAdditional(old(data).additional, requirements))
    {
      data := data.(additional := MergeAdditional(data.additional, requirements));
    }

    /** Appends the unit at the end of the list. */
    method AddEmissionUnit(unit: EmissionUnit)
      modifies this`data
      ensures var before := old(data).emissions.emissionUnits; var after := data.emissions.emissionUnits;
        |after| == |before| + 1 && after[..|before|] == before && after[|before|] == unit
      ensures data == old(data).(emissions := old(data).emissions.(emissionUnits := old(data).emissions.emissionUnits + [unit]))
    {
      data := data.(emissions := data.emissions.(emissionUnits := data.emissions.emissionUnits + [unit]));
    }

    method RemoveEmissionUnit(id: string)
      modifies this`data
      ensures data == old(data).(emissions := old(data).emissions.(
        emissionUnits := RemoveUnitsById(old(data).emissions.emissionUnits, id)))
    {
      data := data.(emissions := data.emissions.(emissionUnits := RemoveUnitsById(data.emissions.emissionUnits, id)));
    }

    method UpdateEmissionUnit(id: string, updates: EmissionUnitPatch)
      modifies this`data
      ensures data == old(data).(emissions := old(data).emissions.(
        emissionUnits := UpdateUnitsById(old(data).emissions.emissionUnits, id, updates)))
    {
      data := data.(emissions := data.emissions.(emissionUnits := UpdateUnitsById(data.emissions.emissionUnits, id, updates)));
    }

    method NextStep()
      requires Valid()
      modifies this`currentStep
      ensures Valid()
      ensures Gating() == StepGating.Apply(old(Gating()), StepGating.NextStep)
      ensures if old(currentStep) + 1 <= 4 && old(IsStepAccessible(currentStep + 1))
              then currentStep == old(currentStep) + 1 else currentStep == old(currentStep)
    {
      var nextStepNumber := currentStep + 1;
      if nextStepNumber <= 4 && IsStepAccessible(nextStepNumber) {
        currentStep := nextStepNumber;
      }
    }

    method PreviousStep()
      requires Valid()
      modifies this`currentStep
      ensures Valid()
      ensures Gating() == StepGating.Apply(old(Gating()), StepGating.PreviousStep)
      ensures currentStep == if old(currentStep) > 1 then old(currentStep) - 1 else old(currentStep)
    {
      if currentStep > 1 {
        currentStep := currentStep - 1;
      }
    }

    method CompleteApplication()
      modifies this`isCompleted
      ensures isCompleted
    {
      isCompleted := true;
    }

    method ResetApplication()
      modifies this
      ensures Valid()
      ensures currentStep == 1 && data == InitialData && !isCompleted && completedSteps == {}
      ensures Gating() == StepGating.Apply(old(Gating()), StepGating.Reset)
    {
      currentStep := 1;
      data := InitialData;
      isCompleted := false;
      completedSteps := {};
    }

    method MarkStepCompleted(step: int)
      requires Valid()
      modifies this`completedSteps
      ensures Valid()
      ensures completedSteps == old(completedSteps) + {step}
      ensures Gating() == StepGating.Apply(old(Gating()), StepGating.MarkStepCompleted(step))
    {
      completedSteps := completedSteps + {step};
    }
  }
}
