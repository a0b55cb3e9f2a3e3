/**
 * The parts of the application record that both wizard stores share: the
 * emission-unit entity, the step 2 to step 4 field groups, the partial
 * updates (`Partial<Pick<...>>` objects) the `update*` actions receive, and the
 * object-spread merge `{ ...before, ...patch }` that applies one.
 *
 * A patch field is `None` when the key is absent from the partial object and
 * `Some(v)` when it is present; a present key always wins.
 */
module ApplicationData {
  import opened Wrappers
  import Lists

  /** A present key overwrites, an absent key keeps the old value. */
  ghost predicate Overwrites<T>(patch: Option<T>, after: T, before: T) {
    match patch
    case Some(v) => after == v
    case None => after == before
  }

  datatype EmissionUnit = EmissionUnit(
    id: string,
    unitType: string,
    description: string,
    pollutants: seq<string>,
    controlDevice: Option<string>)

  /** `Partial<EmissionUnit>`: any key, the id included, may be present. */
  datatype EmissionUnitPatch = EmissionUnitPatch(
    id: Option<string>,
    unitType: Option<string>,
    description: Option<string>,
    pollutants: Option<seq<string>>,
    controlDevice: Option<string>)

  /** `{ ...unit, ...updates }` */
  function MergeUnit(u: EmissionUnit, p: EmissionUnitPatch): (r: EmissionUnit)
    ensures Overwrites(p.id, r.id, u.id)
    ensures Overwrites(p.unitType, r.unitType, u.unitType)
    ensures Overwrites(p.description, r.description, u.description)
    ensures Overwrites(p.pollutants, r.pollutants, u.pollutants)
    ensures p.controlDevice.Some? ==> r.controlDevice == p.controlDevice
    ensures p.controlDevice.None? ==> r.controlDevice == u.controlDevice
  {
    EmissionUnit(
      p.id.GetOr(u.id),
      p.unitType.GetOr(u.unitType),
      p.description.GetOr(u.description),
      p.pollutants.GetOr(u.pollutants),
      if p.controlDevice.Some? then p.controlDevice else u.controlDevice)
  }

  /** `units.filter(unit => unit.id !== id)` */
  function RemoveUnitsById(units: seq<EmissionUnit>, id: string): (r: seq<EmissionUnit>)
    ensures forall i :: 0 <= i < |r| ==> r[i].id != id && r[i] in units
    ensures forall u: EmissionUnit :: u.id != id ==> multiset(r)[u] == multiset(units)[u]
    ensures (forall i :: 0 <= i < |units| ==> units[i].id != id) ==> r == units
  {
    var keep := (u: EmissionUnit) => u.id != id;
    Lists.FilterKeepsOnlyMembers(units, keep);
    Lists.Filter(units, keep)
  }

  /** Units that survive a removal keep their relative order. */
  lemma RemoveUnitsByIdAppend(a: seq<EmissionUnit>, b: seq<EmissionUnit>, id: string)
    ensures RemoveUnitsById(a + b, id) == RemoveUnitsById(a, id) + RemoveUnitsById(b, id)
  {
    Lists.FilterAppend(a, b, (u: EmissionUnit) => u.id != id);
  }

  /** Removing by the id of a unit just appended undoes the append (and drops older units with that id). */
  lemma AppendThenRemoveUnit(units: seq<EmissionUnit>, u: EmissionUnit)
    ensures RemoveUnitsById(units + [u], u.id) == RemoveUnitsById(units, u.id)
    ensures (forall i :: 0 <= i < |units| ==> units[i].id != u.id) ==> RemoveUnitsById(units + [u], u.id) == units
  {
    RemoveUnitsByIdAppend(units, [u], u.id);
    var r := RemoveUnitsById([u], u.id);
    assert [u][1..] == [];
    assert r == [];
  }

  /** Removing the id of the only unit in a list empties it. */
  lemma RemoveSoleUnit(u: EmissionUnit)
    ensures RemoveUnitsById([u], u.id) == []
  {
    AppendThenRemoveUnit([], u);
    assert [] + [u] == [u];
  }

  /** `units.map(unit => unit.id === id ? { ...unit, ...updates } : unit)` */
  function UpdateUnitsById(units: seq<EmissionUnit>, id: string, p: EmissionUnitPatch): (r: seq<EmissionUnit>)
    ensures |r| == |units|
    ensures forall i :: 0 <= i < |units| && units[i].id == id ==> r[i] == MergeUnit(units[i], p)
    ensures forall i :: 0 <= i < |units| && units[i].id != id ==> r[i] == units[i]
  {
    Lists.MapWhere(units, (u: EmissionUnit) => u.id == id, (u: EmissionUnit) => MergeUnit(u, p))
  }

  /** Step 2 fields. */
  datatype EmissionInfo = EmissionInfo(
    primaryOperations: string,
    emissionUnits: seq<EmissionUnit>,
    hasVOCStorage: bool,
    hasParticulates: bool,
    hasCombustionSources: bool,
    estimatedAnnualEmissions: string)

  datatype EmissionPatch = EmissionPatch(
    primaryOperations: Option<string>,
    emissionUnits: Option<seq<EmissionUnit>>,
    hasVOCStorage: Option<bool>,
    hasParticulates: Option<bool>,
    hasCombustionSources: Option<bool>,
    estimatedAnnualEmissions: Option<string>)

  function MergeEmission(e: EmissionInfo, p: EmissionPatch): (r: EmissionInfo)
    ensures Overwrites(p.primaryOperations, r.primaryOperations, e.primaryOperations)
    ensures Overwrites(p.emissionUnits, r.emissionUnits, e.emissionUnits)
    ensures Overwrites(p.hasVOCStorage, r.hasVOCStorage, e.hasVOCStorage)
    ensures Overwrites(p.hasParticulates, r.hasParticulates, e.hasParticulates)
    ensures Overwrites(p.hasCombustionSources, r.hasCombustionSources, e.hasCombustionSources)
    ensures Overwrites(p.estimatedAnnualEmissions, r.estimatedAnnualEmissions, e.estimatedAnnualEmissions)
  {
    EmissionInfo(
      p.primaryOperations.GetOr(e.primaryOperations),
      p.emissionUnits.GetOr(e.emissionUnits),
      p.hasVOCStorage.GetOr(e.hasVOCStorage),
      p.hasParticulates.GetOr(e.hasParticulates),
      p.hasCombustionSources.GetOr(e.hasCombustionSources),
      p.estimatedAnnualEmissions.GetOr(e.estimatedAnnualEmissions))
  }

  /** Step 3 fields. */
  datatype ComplianceInfo = ComplianceInfo(
    subjectToNSR: bool,
    hasRiskManagementPlan: bool,
    monitoringRequirements: seq<string>,
    complianceMethod: string,
    stratosphericOzoneCompliance: bool)

  datatype CompliancePatch = CompliancePatch(
    subjectToNSR: Option<bool>,
    hasRiskManagementPlan: Option<bool>,
    monitoringRequirements: Option<seq<string>>,
    complianceMethod: Option<string>,
    stratosphericOzoneCompliance: Option<bool>)

  function MergeCompliance(c: ComplianceInfo, p: CompliancePatch): (r: ComplianceInfo)
    ensures Overwrites(p.subjectToNSR, r.subjectToNSR, c.subjectToNSR)
    ensures Overwrites(p.hasRiskManagementPlan, r.hasRiskManagementPlan, c.hasRiskManagementPlan)
    ensures Overwrites(p.monitoringRequirements, r.monitoringRequirements, c.monitoringRequirements)
    ensures Overwrites(p.complianceMethod, r.complianceMethod, c.complianceMethod)
    ensures Overwrites(p.stratosphericOzoneCompliance, r.stratosphericOzoneCompliance, c.stratosphericOzoneCompliance)
  {
    ComplianceInfo(
      p.subjectToNSR.GetOr(c.subjectToNSR),
      p.hasRiskManagementPlan.GetOr(c.hasRiskManagementPlan),
      p.monitoringRequirements.GetOr(c.monitoringRequirements),
      p.complianceMethod.GetOr(c.complianceMethod),
      p.stratosphericOzoneCompliance.GetOr(c.stratosphericOzoneCompliance))
  }

  /** Step 4 fields. */
  datatype AdditionalInfo = AdditionalInfo(
    emissionCreditsUsed: bool,
    volatileOrganicCompounds: bool,
    subscribeToUpdates: bool)

  datatype AdditionalPatch = AdditionalPatch(
    emissionCreditsUsed: Option<bool>,
    volatileOrganicCompounds: Option<bool>,
    subscribeToUpdates: Option<bool>)

  function MergeAdditional(a: AdditionalInfo, p: AdditionalPatch): (r: AdditionalInfo)
    ensures Overwrites(p.emissionCreditsUsed, r.emissionCreditsUsed, a.emissionCreditsUsed)
    ensures Overwrites(p.volatileOrganicCompounds, r.volatileOrganicCompounds, a.volatileOrganicCompounds)
    ensures Overwrites(p.subscribeToUpdates, r.subscribeToUpdates, a.subscribeToUpdates)
  {
    AdditionalInfo(
      p.emissionCreditsUsed.GetOr(a.emissionCreditsUsed),
      p.volatileOrganicCompounds.GetOr(a.volatileOrganicCompounds),
      p.subscribeToUpdates.GetOr(a.subscribeToUpdates))
  }

  const NoEmissionChange := EmissionPatch(None, None, None, None, None, None)
  const NoComplianceChange := CompliancePatch(None, None, None, None, None)

  /** Merging the same partial object twice is the same as merging it once. */
  lemma MergeEmissionIdempotent(e: EmissionInfo, p: EmissionPatch)
    ensures MergeEmission(MergeEmission(e, p), p) == MergeEmission(e, p)
    ensures MergeEmission(e, NoEmissionChange) == e
  {
  }

  lemma MergeComplianceIdempotent(c: ComplianceInfo, p: CompliancePatch)
    ensures MergeCompliance(MergeCompliance(c, p), p) == MergeCompliance(c, p)
    ensures MergeCompliance(c, NoComplianceChange) == c
  {
  }

  /** The patch a submitted step form makes: every key of the group present. */
  function FullEmissionPatch(e: EmissionInfo): (p: EmissionPatch)
    ensures forall before :: MergeEmission(before, p) == e
  {
    EmissionPatch(Some(e.primaryOperations), Some(e.emissionUnits), Some(e.hasVOCStorage),
                  Some(e.hasParticulates), Some(e.hasCombustionSources), Some(e.estimatedAnnualEmissions))
  }

  function FullCompliancePatch(c: ComplianceInfo): (p: CompliancePatch)
    ensures forall before :: MergeCompliance(before, p) == c
  {
    CompliancePatch(Some(c.subjectToNSR), Some(c.hasRiskManagementPlan), Some(c.monitoringRequirements),
                    Some(c.complianceMethod), Some(c.stratosphericOzoneCompliance))
  }

  function FullAdditionalPatch(a: AdditionalInfo): (p: AdditionalPatch)
    ensures forall before :: MergeAdditional(before, p) == a
  {
    AdditionalPatch(Some(a.emissionCreditsUsed), Some(a.volatileOrganicCompounds), Some(a.subscribeToUpdates))
  }

  /** Step 2 and 3 starting values (identical in both stores). */
  const InitialEmission := EmissionInfo("", [], false, false, false, "")
  const InitialAdditional := AdditionalInfo(false, false, false)
}
