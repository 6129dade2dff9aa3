/**
 * The top-level project: its soil investigations and foundation designs, the
 * re-parenting `add_*` operations, and the choice of the active investigation.
 */
module Projects {
  import opened Wrappers
  import opened Investigations

  datatype ProjectStatus =
    | Initiated | Investigation | PreliminaryDesign | DetailedDesign | Review
    | Approved | Construction | Completed | OnHold

  datatype FoundationType =
    | ShallowFoundation | DeepPile | DeepCaisson | RetainingWall | Combined | Mat

  /** Dates are ticks since `datetime.min`; parameters and results hold numbers only. */
  datatype FoundationDesign = FoundationDesign(
    id: string,
    name: string,
    foundationType: FoundationType,
    projectId: string,
    soilInvestigationId: Option<string>,
    designParameters: map<string, real>,
    results: map<string, real>,
    designStandard: string,
    safetyFactor: Option<real>,
    status: string,
    notes: string,
    createdDate: Option<nat>,
    modifiedDate: Option<nat>)

  datatype GeotechnicalProject = GeotechnicalProject(
    id: string,
    name: string,
    client: string,
    location: string,
    address: string,
    coordinates: Option<(real, real)>,
    projectNumber: string,
    status: ProjectStatus,
    startDate: Option<nat>,
    targetCompletion: Option<nat>,
    projectManager: string,
    structuralEngineer: string,
    geotechnicalEngineer: string,
    description: string,
    soilInvestigations: seq<SoilInvestigation>,
    foundationDesigns: seq<FoundationDesign>,
    documents: seq<string>,
    notes: string)

  /** Every investigation and design of the project points back at it. */
  predicate Owned(p: GeotechnicalProject) {
    && (forall i :: 0 <= i < |p.soilInvestigations| ==> p.soilInvestigations[i].projectId == p.id)
    && (forall i :: 0 <= i < |p.foundationDesigns| ==> p.foundationDesigns[i].projectId == p.id)
  }

  /** `add_soil_investigation`: re-parents the investigation and appends it. */
  function AddSoilInvestigation(p: GeotechnicalProject, inv: SoilInvestigation): (r: GeotechnicalProject)
    ensures r == p.(soilInvestigations := r.soilInvestigations)
    ensures |r.soilInvestigations| == |p.soilInvestigations| + 1
    ensures r.soilInvestigations[..|p.soilInvestigations|] == p.soilInvestigations
    ensures r.soilInvestigations[|p.soilInvestigations|] == inv.(projectId := p.id)
  {
    p.(soilInvestigations := p.soilInvestigations + [inv.(projectId := p.id)])
  }

  /** `add_foundation_design`: re-parents the design and appends it. */
  function AddFoundationDesign(p: GeotechnicalProject, d: FoundationDesign): (r: GeotechnicalProject)
    ensures r == p.(foundationDesigns := r.foundationDesigns)
    ensures |r.foundationDesigns| == |p.foundationDesigns| + 1
    ensures r.foundationDesigns[..|p.foundationDesigns|] == p.foundationDesigns
    ensures r.foundationDesigns[|p.foundationDesigns|] == d.(projectId := p.id)
  {
    p.(foundationDesigns := p.foundationDesigns + [d.(projectId := p.id)])
  }

  /** Whatever the added item's former parent, both additions keep a project owning its children. */
  lemma AddsPreserveOwned(p: GeotechnicalProject, inv: SoilInvestigation, d: FoundationDesign)
    requires Owned(p)
    ensures Owned(AddSoilInvestigation(p, inv))
    ensures Owned(AddFoundationDesign(p, d))
  {
    var r := AddSoilInvestigation(p, inv);
    assert forall i :: 0 <= i < |p.soilInvestigations| ==> r.soilInvestigations[i] == p.soilInvestigations[i];
    var q := AddFoundationDesign(p, d);
    assert forall i :: 0 <= i < |p.foundationDesigns| ==> q.foundationDesigns[i] == p.foundationDesigns[i];
  }

  /** The `max` key: the date, with an undated investigation at `datetime.min`. */
  function DateKey(inv: SoilInvestigation): nat {
    match inv.investigationDate
    case None => 0
    case Some(ticks) => ticks
  }

  /**
   * The position Python's `max` picks: a largest key, and the first one
   * among equals.
   */
  function ActiveIndex(s: seq<SoilInvestigation>): (i: nat)
    requires |s| > 0
    ensures i < |s|
    ensures forall j :: 0 <= j < |s| ==> DateKey(s[j]) <= DateKey(s[i])
    ensures forall j :: 0 <= j < i ==> DateKey(s[j]) < DateKey(s[i])
  {
    if |s| == 1 then 0
    else
      var i := ActiveIndex(s[..|s| - 1]);
      if DateKey(s[i]) < DateKey(s[|s| - 1]) then |s| - 1 else i
  }

  /** Any index that is a first maximum is the one `ActiveIndex` finds. */
  lemma ActiveIndexUnique(s: seq<SoilInvestigation>, k: nat)
    requires k < |s|
    requires forall j :: 0 <= j < |s| ==> DateKey(s[j]) <= DateKey(s[k])
    requires forall j :: 0 <= j < k ==> DateKey(s[j]) < DateKey(s[k])
    ensures ActiveIndex(s) == k
  {
  }

  /** `get_active_soil_investigation`: the most recently dated investigation. */
  function GetActiveSoilInvestigation(p: GeotechnicalProject): (r: Option<SoilInvestigation>)
    ensures r.None? <==> |p.soilInvestigations| == 0
    ensures r.Some? ==>
              exists i :: 0 <= i < |p.soilInvestigations| && p.soilInvestigations[i] == r.value
                          && (forall j :: 0 <= j < |p.soilInvestigations| ==>
                                         DateKey(p.soilInvestigations[j]) <= DateKey(r.value))
                          && (forall j :: 0 <= j < i ==> DateKey(p.soilInvestigations[j]) < DateKey(r.value))
  {
    var s := p.soilInvestigations;
    if |s| == 0 then None else Some(s[ActiveIndex(s)])
  }

  /** An investigation dated after all others becomes the active one once added. */
  lemma NewestBecomesActive(p: GeotechnicalProject, inv: SoilInvestigation)
    requires forall j :: 0 <= j < |p.soilInvestigations| ==> DateKey(p.soilInvestigations[j]) < DateKey(inv)
    ensures GetActiveSoilInvestigation(AddSoilInvestigation(p, inv)) == Some(inv.(projectId := p.id))
  {
    var s := AddSoilInvestigation(p, inv).soilInvestigations;
    assert forall j :: 0 <= j < |p.soilInvestigations| ==> s[j] == p.soilInvestigations[j];
    ActiveIndexUnique(s, |s| - 1);
  }

  /**
   * An investigation dated no later than the active one (an undated one in
   * particular) leaves the active investigation unchanged: ties go to the
   * earlier entry.
   */
  lemma NotNewerKeepsActive(p: GeotechnicalProject, inv: SoilInvestigation)
    requires |p.soilInvestigations| > 0
    requires DateKey(inv) <= DateKey(GetActiveSoilInvestigation(p).value)
    ensures GetActiveSoilInvestigation(AddSoilInvestigation(p, inv)) == GetActiveSoilInvestigation(p)
  {
    var old_ := p.soilInvestigations;
    var s := AddSoilInvestigation(p, inv).soilInvestigations;
    var k := ActiveIndex(old_);
    assert s[..|s| - 1] == old_;
    assert forall j :: 0 <= j < |old_| ==> s[j] == old_[j];
    ActiveIndexUnique(s, k);
  }

  /** With no investigations dated, the first one entered stays active. */
  lemma UndatedKeepsFirst(p: GeotechnicalProject)
    requires |p.soilInvestigations| > 0
    requires forall j :: 0 <= j < |p.soilInvestigations| ==> p.soilInvestigations[j].investigationDate.None?
    ensures GetActiveSoilInvestigation(p) == Some(p.soilInvestigations[0])
  {
    ActiveIndexUnique(p.soilInvestigations, 0);
  }
}
