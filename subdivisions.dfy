/** The subdivision list operations of views/SubdivisionInput.tsx. Each
    builds a new list (spread, `filter`, `map`); none changes one in place. */
module SubdivisionView {
  import opened Types
  import opened JsMath
  import opened Constants

  /** No subdivision in the list carries `id`. */
  predicate FreshId(subs: seq<Subdivision>, id: string)
  {
    forall k :: 0 <= k < |subs| ==> subs[k].id != id
  }

  /** The subdivision addSubdivision creates: zero figures, the global
      five-year rates, empty land use at every stage. */
  function NewSubdivision(data: ForecastData, id: string): (s: Subdivision)
    ensures s.id == id
    ensures s.name == "Phân khu " + NatToString(|data.subdivisions| + 1)
    ensures s.area == s.currentPop == s.approvedProjectPop == s.convertedPop == 0.0
    ensures s.naturalGrowthRate == data.naturalGrowthRate5y
    ensures s.mechanicalGrowthRate == data.mechanicalGrowthRate5y
    ensures s.landUseCurrent == s.landUse10y == s.landUse20y == s.landUse50y == EmptyLandUse
  {
    Subdivision(
      id := id,
      name := "Phân khu " + NatToString(|data.subdivisions| + 1),
      area := 0.0,
      currentPop := 0.0,
      approvedProjectPop := 0.0,
      naturalGrowthRate := data.naturalGrowthRate5y,
      mechanicalGrowthRate := data.mechanicalGrowthRate5y,
      convertedPop := 0.0,
      landUseCurrent := EmptyLandUse,
      landUse10y := EmptyLandUse,
      landUse20y := EmptyLandUse,
      landUse50y := EmptyLandUse)
  }

  /** addSubdivision, with `generateId()` supplied as `id`. */
  function AddSubdivision(data: ForecastData, id: string): (r: ForecastData)
    ensures |r.subdivisions| == |data.subdivisions| + 1
    ensures r.subdivisions[..|data.subdivisions|] == data.subdivisions
    ensures r.subdivisions[|data.subdivisions|] == NewSubdivision(data, id)
    ensures r == data.(subdivisions := r.subdivisions)
  {
    data.(subdivisions := data.subdivisions + [NewSubdivision(data, id)])
  }

  /** `subs.filter(s => s.id !== id)`. */
  function WithoutId(subs: seq<Subdivision>, id: string): (r: seq<Subdivision>)
    ensures |r| <= |subs|
    ensures FreshId(r, id)
  {
    if |subs| == 0 then []
    else (if subs[0].id != id then [subs[0]] else []) + WithoutId(subs[1..], id)
  }

  /** Exactly the elements whose id differs are kept. */
  lemma {:induction false} WithoutIdMembers(subs: seq<Subdivision>, id: string, x: Subdivision)
    ensures x in WithoutId(subs, id) <==> x in subs && x.id != id
  {
    if |subs| > 0 {
      WithoutIdMembers(subs[1..], id, x);
      assert subs == [subs[0]] + subs[1..];
    }
  }

  /** The filter works piecewise, so the kept elements keep their order. */
  lemma {:induction false} WithoutIdConcat(a: seq<Subdivision>, b: seq<Subdivision>, id: string)
    ensures WithoutId(a + b, id) == WithoutId(a, id) + WithoutId(b, id)
  {
    if |a| > 0 {
      var head := if a[0].id != id then [a[0]] else [];
      assert (a + b)[0] == a[0];
      assert (a + b)[1..] == a[1..] + b;
      assert WithoutId(a + b, id) == head + WithoutId(a[1..] + b, id);
      WithoutIdConcat(a[1..], b, id);
      assert WithoutId(a, id) == head + WithoutId(a[1..], id);
    } else {
      assert a + b == b;
    }
  }

  /** Removing an id nobody carries leaves the list as it is. */
  lemma {:induction false} WithoutFreshId(subs: seq<Subdivision>, id: string)
    requires FreshId(subs, id)
    ensures WithoutId(subs, id) == subs
  {
    if |subs| > 0 {
      WithoutFreshId(subs[1..], id);
      assert subs == [subs[0]] + subs[1..];
    }
  }

  /** removeSubdivision, once the user has confirmed. */
  function RemoveSubdivision(data: ForecastData, id: string): (r: ForecastData)
    ensures r.subdivisions == WithoutId(data.subdivisions, id)
    ensures r == data.(subdivisions := r.subdivisions)
  {
    data.(subdivisions := WithoutId(data.subdivisions, id))
  }

  /** Adding a subdivision under a fresh id and removing that id again gives
      back the snapshot. */
  lemma AddThenRemove(data: ForecastData, id: string)
    requires FreshId(data.subdivisions, id)
    ensures RemoveSubdivision(AddSubdivision(data, id), id) == data
  {
    var s := NewSubdivision(data, id);
    WithoutIdConcat(data.subdivisions, [s], id);
    WithoutFreshId(data.subdivisions, id);
    assert WithoutId([s], id) == [];
  }

  /** Removing twice is removing once. */
  lemma RemoveIdempotent(data: ForecastData, id: string)
    ensures RemoveSubdivision(RemoveSubdivision(data, id), id) == RemoveSubdivision(data, id)
  {
    WithoutFreshId(WithoutId(data.subdivisions, id), id);
  }

  /** The fields the subdivision form edits, each with its new value. */
  datatype SubdivisionEdit =
    | SetName(name: string)
    | SetArea(area: real)
    | SetCurrentPop(currentPop: real)
    | SetApprovedProjectPop(approvedProjectPop: real)
    | SetNaturalGrowthRate(naturalGrowthRate: real)
    | SetMechanicalGrowthRate(mechanicalGrowthRate: real)

  /** `{ ...s, [field]: val }`. */
  function ApplyEdit(s: Subdivision, edit: SubdivisionEdit): (r: Subdivision)
    ensures r.id == s.id
    ensures r.landUseCurrent == s.landUseCurrent && r.landUse10y == s.landUse10y
    ensures r.landUse20y == s.landUse20y && r.landUse50y == s.landUse50y
    ensures r.convertedPop == s.convertedPop
    ensures r.area == (if edit.SetArea? then edit.area else s.area)
    ensures r.currentPop == (if edit.SetCurrentPop? then edit.currentPop else s.currentPop)
    ensures r.approvedProjectPop ==
      (if edit.SetApprovedProjectPop? then edit.approvedProjectPop else s.approvedProjectPop)
    ensures r.name == (if edit.SetName? then edit.name else s.name)
    ensures r.naturalGrowthRate ==
      (if edit.SetNaturalGrowthRate? then edit.naturalGrowthRate else s.naturalGrowthRate)
    ensures r.mechanicalGrowthRate ==
      (if edit.SetMechanicalGrowthRate? then edit.mechanicalGrowthRate else s.mechanicalGrowthRate)
  {
    match edit
    case SetName(v) => s.(name := v)
    case SetArea(v) => s.(area := v)
    case SetCurrentPop(v) => s.(currentPop := v)
    case SetApprovedProjectPop(v) => s.(approvedProjectPop := v)
    case SetNaturalGrowthRate(v) => s.(naturalGrowthRate := v)
    case SetMechanicalGrowthRate(v) => s.(mechanicalGrowthRate := v)
  }

  /** updateSubdivision: `map` the edit over the elements carrying `id`. */
  function UpdateSubdivision(data: ForecastData, id: string, edit: SubdivisionEdit): (r: ForecastData)
    ensures |r.subdivisions| == |data.subdivisions|
    ensures forall k :: 0 <= k < |data.subdivisions| ==>
      r.subdivisions[k] == if data.subdivisions[k].id == id
                           then ApplyEdit(data.subdivisions[k], edit)
                           else data.subdivisions[k]
    ensures r == data.(subdivisions := r.subdivisions)
  {
    var subs := data.subdivisions;
    data.(subdivisions := seq(|subs|, k requires 0 <= k < |subs| =>
      if subs[k].id == id then ApplyEdit(subs[k], edit) else subs[k]))
  }

  /** An edit never touches ids, so the list keeps its ids in order, and an
      edit for an id nobody carries changes nothing. */
  lemma UpdateKeepsIds(data: ForecastData, id: string, edit: SubdivisionEdit)
    ensures var r := UpdateSubdivision(data, id, edit).subdivisions;
      forall k :: 0 <= k < |r| ==> r[k].id == data.subdivisions[k].id
    ensures FreshId(data.subdivisions, id) ==> UpdateSubdivision(data, id, edit) == data
  {
    if FreshId(data.subdivisions, id) {
      assert UpdateSubdivision(data, id, edit).subdivisions == data.subdivisions;
    }
  }

  // ---------------------------------------------------------------
  // Land-use indicators
  // ---------------------------------------------------------------

  /** The nine indicator names; the last three are the optional extension. */
  datatype LandUseField =
    | ResidentialUnit | UrbanService | UnitService | UrbanGreen | UnitGreen | Traffic
    | MaxDensity | MaxHeight | MaxLandUseCoef

  predicate IsExtension(f: LandUseField)
  {
    f == MaxDensity || f == MaxHeight || f == MaxLandUseCoef
  }

  /** The value of one indicator; an absent optional one is `None`. */
  function Indicator(lu: LandUseIndicators, f: LandUseField): (v: Option<real>)
    ensures !IsExtension(f) ==> v.Some?
  {
    match f
    case ResidentialUnit => Some(lu.residentialUnit)
    case UrbanService => Some(lu.urbanService)
    case UnitService => Some(lu.unitService)
    case UrbanGreen => Some(lu.urbanGreen)
    case UnitGreen => Some(lu.unitGreen)
    case Traffic => Some(lu.traffic)
    case MaxDensity => lu.maxDensity
    case MaxHeight => lu.maxHeight
    case MaxLandUseCoef => lu.maxLandUseCoef
  }

  /** `{ ...lu, [f]: v }`; writing an optional indicator makes it present. */
  function SetIndicator(lu: LandUseIndicators, f: LandUseField, v: real): (r: LandUseIndicators)
    ensures Indicator(r, f) == Some(v)
    ensures forall g :: g != f ==> Indicator(r, g) == Indicator(lu, g)
  {
    match f
    case ResidentialUnit => lu.(residentialUnit := v)
    case UrbanService => lu.(urbanService := v)
    case UnitService => lu.(unitService := v)
    case UrbanGreen => lu.(urbanGreen := v)
    case UnitGreen => lu.(unitGreen := v)
    case Traffic => lu.(traffic := v)
    case MaxDensity => lu.(maxDensity := Some(v))
    case MaxHeight => lu.(maxHeight := Some(v))
    case MaxLandUseCoef => lu.(maxLandUseCoef := Some(v))
  }

  /** The written indicator reads back the new value; every other one keeps its own. */
  lemma SetIndicatorReadsBack(lu: LandUseIndicators, f: LandUseField, v: real, g: LandUseField)
    ensures Indicator(SetIndicator(lu, f, v), g) == if g == f then Some(v) else Indicator(lu, g)
  {
  }

  /** EMPTY_LAND_USE carries all nine indicators, each 0. */
  lemma EmptyLandUseAllZero(g: LandUseField)
    ensures Indicator(EmptyLandUse, g) == Some(0.0)
  {
  }

  /** The three stages the form edits; the 50-year one is never edited. */
  datatype Stage = StageCurrent | Stage10y | Stage20y

  function SetStage(s: Subdivision, stage: Stage, f: LandUseField, v: real): (r: Subdivision)
    ensures r.landUse50y == s.landUse50y
    ensures r == s.(landUseCurrent := r.landUseCurrent, landUse10y := r.landUse10y, landUse20y := r.landUse20y)
    ensures r.landUseCurrent == (if stage == StageCurrent then SetIndicator(s.landUseCurrent, f, v) else s.landUseCurrent)
    ensures r.landUse10y == (if stage == Stage10y then SetIndicator(s.landUse10y, f, v) else s.landUse10y)
    ensures r.landUse20y == (if stage == Stage20y then SetIndicator(s.landUse20y, f, v) else s.landUse20y)
  {
    match stage
    case StageCurrent => s.(landUseCurrent := SetIndicator(s.landUseCurrent, f, v))
    case Stage10y => s.(landUse10y := SetIndicator(s.landUse10y, f, v))
    case Stage20y => s.(landUse20y := SetIndicator(s.landUse20y, f, v))
  }

  /** updateLandUse: one indicator of one stage of the subdivisions with `subId`. */
  function UpdateLandUse(data: ForecastData, subId: string, stage: Stage, f: LandUseField, v: real)
    : (r: ForecastData)
    ensures |r.subdivisions| == |data.subdivisions|
    ensures forall k :: 0 <= k < |data.subdivisions| ==>
      r.subdivisions[k] == if data.subdivisions[k].id == subId
                           then SetStage(data.subdivisions[k], stage, f, v)
                           else data.subdivisions[k]
    ensures r == data.(subdivisions := r.subdivisions)
  {
    var subs := data.subdivisions;
    data.(subdivisions := seq(|subs|, k requires 0 <= k < |subs| =>
      if subs[k].id == subId then SetStage(subs[k], stage, f, v) else subs[k]))
  }

  /** After updateLandUse the chosen indicator of the chosen stage of every
      matching subdivision reads `v`; every other indicator, the other
      stages and the 50-year stage are as before. */
  lemma UpdateLandUseReadsBack(data: ForecastData, subId: string, stage: Stage, f: LandUseField,
                               v: real, k: nat, g: LandUseField)
    requires k < |data.subdivisions| && data.subdivisions[k].id == subId
    ensures var s, s' := data.subdivisions[k], UpdateLandUse(data, subId, stage, f, v).subdivisions[k];
      && s'.landUse50y == s.landUse50y
      && Indicator(s'.landUseCurrent, g) ==
           (if stage == StageCurrent && g == f then Some(v) else Indicator(s.landUseCurrent, g))
      && Indicator(s'.landUse10y, g) ==
           (if stage == Stage10y && g == f then Some(v) else Indicator(s.landUse10y, g))
      && Indicator(s'.landUse20y, g) ==
           (if stage == Stage20y && g == f then Some(v) else Indicator(s.landUse20y, g))
  {
    var s := data.subdivisions[k];
    SetIndicatorReadsBack(s.landUseCurrent, f, v, g);
    SetIndicatorReadsBack(s.landUse10y, f, v, g);
    SetIndicatorReadsBack(s.landUse20y, f, v, g);
  }

  /** runCalculations maps each subdivision to itself before asking for the
      forecast to be saved, so the snapshot it hands on is the one it got. */
  function RunCalculations(data: ForecastData): (r: ForecastData)
    ensures r == data
  {
    var subs := data.subdivisions;
    var calculated := seq(|subs|, k requires 0 <= k < |subs| => subs[k]);
    assert calculated == subs;
    data.(subdivisions := calculated)
  }

  /** isExtraIndicatorsNeeded: every planning type but the general plan. */
  function ExtraIndicatorsNeeded(pt: PlanningType): (b: bool)
    ensures b <==> pt != General
  {
    pt != General
  }

  /** The indicator rows of the land-use table: the six core ones, then the
      three extension ones when the planning type needs them. */
  function VisibleIndicators(pt: PlanningType): (fs: seq<LandUseField>)
    ensures |fs| == if ExtraIndicatorsNeeded(pt) then 9 else 6
  {
    [ResidentialUnit, UrbanService, UnitService, UrbanGreen, UnitGreen, Traffic]
    + (if ExtraIndicatorsNeeded(pt) then [MaxDensity, MaxHeight, MaxLandUseCoef] else [])
  }

  /** A row is shown for an indicator exactly when it is a core one or the
      planning type needs the extension. */
  lemma VisibleIndicatorsExactly(pt: PlanningType, f: LandUseField)
    ensures f in VisibleIndicators(pt) <==> (!IsExtension(f) || ExtraIndicatorsNeeded(pt))
  {
    var fs := VisibleIndicators(pt);
    match f
    case ResidentialUnit => assert fs[0] == f;
    case UrbanService => assert fs[1] == f;
    case UnitService => assert fs[2] == f;
    case UrbanGreen => assert fs[3] == f;
    case UnitGreen => assert fs[4] == f;
    case Traffic => assert fs[5] == f;
    case MaxDensity => if ExtraIndicatorsNeeded(pt) { assert fs[6] == f; }
    case MaxHeight => if ExtraIndicatorsNeeded(pt) { assert fs[7] == f; }
    case MaxLandUseCoef => if ExtraIndicatorsNeeded(pt) { assert fs[8] == f; }
  }
}
