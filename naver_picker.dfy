/**
 * `src/components/region/NaverStyleRegionPicker.jsx`: polygon styling, the selected-polygon
 * test, and the 시·군 → 읍/면/동 selection state machine driven by polygon and breadcrumb
 * clicks.
 */
module NaverPicker {
  import opened Wrappers
  import opened Geo

  // ---------------------------------------------------------------- getPolygonStyle

  datatype PolygonStyle = PolygonStyle(
    fillColor: string,
    fillOpacity: real,
    strokeColor: string,
    strokeWeight: int,
    strokeOpacity: real)

  const BaseFill := "#F7F8FA"
  const BaseStroke := "#D0D4DA"
  const Accent := "#FF7419"
  const HoverFill := "#000000"

  /** `getPolygonStyle`: the selected style wins over the hovered one; stroke opacity is always 0.8. */
  function GetPolygonStyle(isHovered: bool, isSelected: bool): (r: PolygonStyle)
    ensures r.strokeOpacity == 0.8
    ensures isSelected ==> r == PolygonStyle(Accent, 0.15, Accent, 2, 0.8)
    ensures !isSelected && isHovered ==> r == PolygonStyle(HoverFill, 0.04, BaseStroke, 2, 0.8)
    ensures !isSelected && !isHovered ==> r == PolygonStyle(BaseFill, 0.6, BaseStroke, 1, 0.8)
  {
    var base := PolygonStyle(BaseFill, 0.6, BaseStroke, 1, 0.8);
    if isSelected then base.(fillColor := Accent, fillOpacity := 0.15, strokeColor := Accent, strokeWeight := 2)
    else if isHovered then base.(fillColor := HoverFill, fillOpacity := 0.04, strokeWeight := 2)
    else base
  }

  /** Hovering a selected polygon does not change its style. */
  lemma SelectedIgnoresHover(h1: bool, h2: bool)
    ensures GetPolygonStyle(h1, true) == GetPolygonStyle(h2, true)
  {
  }

  /** Only the selected style uses the accent stroke; only the plain style has weight 1. */
  lemma StrokeTellsState(h: bool, s: bool)
    ensures GetPolygonStyle(h, s).strokeColor == Accent <==> s
    ensures GetPolygonStyle(h, s).strokeWeight == 1 <==> !s && !h
  {
  }

  // ---------------------------------------------------------------- isHovered / isSelected

  /** `f?.properties.code`: `undefined` (here `None`) without a feature. */
  function CodeOf(f: Option<Feature>): Option<string>
  {
    if f.None? then None else f.value.properties.code
  }

  /**
   * `hoveredPolygon?.properties.code === feature.properties.code`: with a hovered polygon the
   * codes are compared; with none, `undefined === undefined` holds only for a feature without
   * a code.
   */
  predicate IsHovered(hovered: Option<Feature>, feature: Feature): (r: bool)
    ensures hovered.Some? ==> (r <==> hovered.value.properties.code == feature.properties.code)
    ensures hovered.None? ==> (r <==> feature.properties.code.None?)
  {
    CodeOf(hovered) == feature.properties.code
  }

  /** At level `sig` the test is against `selectedSig`, at any other level against `selectedEmd`. */
  predicate IsSelected(level: string, selectedSig: Option<Feature>, selectedEmd: Option<Feature>, feature: Feature): (r: bool)
    ensures level == "sig" ==> (r <==> IsHovered(selectedSig, feature))
    ensures level != "sig" ==> (r <==> IsHovered(selectedEmd, feature))
  {
    (if level == "sig" then CodeOf(selectedSig) else CodeOf(selectedEmd)) == feature.properties.code
  }

  /** A selected polygon at level `sig` is one whose code is the selected 시·군's; `selectedEmd` plays no part. */
  lemma SigLevelUsesSigOnly(sig: Feature, e1: Option<Feature>, e2: Option<Feature>, feature: Feature)
    requires sig.properties.code.Some?
    ensures IsSelected("sig", Some(sig), e1, feature) <==> feature.properties.code == sig.properties.code
    ensures IsSelected("sig", Some(sig), e1, feature) == IsSelected("sig", Some(sig), e2, feature)
  {
  }

  /** Strict equality with `undefined`: with nothing selected, a feature without a code counts as selected. */
  lemma CodelessFeatureMatchesNoSelection(level: string, feature: Feature)
    requires feature.properties.code.None?
    ensures IsSelected(level, None, None, feature)
  {
  }

  // ---------------------------------------------------------------- the picker

  /** What `onSelect` receives. */
  datatype Selection = Selection(
    province: string,
    sigCode: Option<string>,
    sigName: Option<string>,
    emdCode: Option<string>,
    emdName: Option<string>)

  /** What `loadGyeonggiEmd` did for the clicked 시·군. */
  datatype EmdLoad = EmdFailed(message: string) | EmdLoaded(features: seq<Feature>)

  /** The caught error: a failed load, or reading `selectedSig.properties` with no 시·군 selected. */
  datatype PickerError = LoadError(message: string) | MissingSig

  class RegionPicker {
    var level: string
    var selectedSig: Option<Feature>
    var selectedEmd: Option<Feature>
    var emdData: Option<seq<Feature>>
    var loading: bool
    var error: Option<PickerError>
    const province: string

    constructor (initialProvince: string)
      ensures province == initialProvince && level == "sig"
      ensures selectedSig.None? && selectedEmd.None? && emdData.None? && loading && error.None?
    {
      province := initialProvince;
      level := "sig";
      selectedSig := None;
      selectedEmd := None;
      emdData := None;
      loading := true;
      error := None;
    }

    /**
     * `handlePolygonClick`. At `sig`: select the 시·군, clear the 읍/면/동, and move to `emd`
     * only once its data loaded. At `emd`: select the 읍/면/동 and emit the selection, which
     * fails without a selected 시·군. Loading always ends false.
     */
    method HandlePolygonClick(feature: Feature, currentLevel: string, load: EmdLoad)
      returns (emitted: Option<Selection>)
      modifies this`level, this`selectedSig, this`selectedEmd, this`emdData, this`loading, this`error
      ensures !loading
      ensures currentLevel == "sig" ==>
        selectedSig == Some(feature) && selectedEmd.None? && emitted.None?
        && (load.EmdLoaded? ==> emdData == Some(load.features) && level == "emd" && error == old(error))
        && (load.EmdFailed? ==>
              emdData == old(emdData) && level == old(level) && error == Some(LoadError(load.message)))
      ensures currentLevel == "emd" ==>
        selectedEmd == Some(feature) && selectedSig == old(selectedSig)
        && level == old(level) && emdData == old(emdData)
        && (old(selectedSig).Some? ==>
              error == old(error)
              && emitted == Some(Selection(province,
                                           old(selectedSig).value.properties.code, old(selectedSig).value.properties.name,
                                           feature.properties.code, feature.properties.name)))
        && (old(selectedSig).None? ==> error == Some(MissingSig) && emitted.None?)
      ensures currentLevel != "sig" && currentLevel != "emd" ==>
        emitted.None? && level == old(level) && selectedSig == old(selectedSig) && selectedEmd == old(selectedEmd)
        && emdData == old(emdData) && error == old(error)
    {
      emitted := None;
      if currentLevel == "sig" {
        selectedSig := Some(feature);
        selectedEmd := None;
        loading := true;
        match load
        case EmdFailed(message) =>
          error := Some(LoadError(message));
        case EmdLoaded(features) =>
          emdData := Some(features);
          level := "emd";
      } else if currentLevel == "emd" {
        selectedEmd := Some(feature);
        if selectedSig.None? {
          error := Some(MissingSig);
        } else {
          var sig := selectedSig.value;
          emitted := Some(Selection(province, sig.properties.code, sig.properties.name,
                                    feature.properties.code, feature.properties.name));
        }
      }
      loading := false;
    }

    /** `handleBreadcrumbClick`: back to `sig`, dropping the 읍/면/동 and its data but keeping the 시·군. */
    method HandleBreadcrumbClick(targetLevel: string)
      modifies this`level, this`selectedEmd, this`emdData
      ensures targetLevel == "sig" ==> level == "sig" && selectedEmd.None? && emdData.None?
      ensures targetLevel != "sig" ==>
        level == old(level) && selectedEmd == old(selectedEmd) && emdData == old(emdData)
    {
      if targetLevel == "sig" {
        level := "sig";
        selectedEmd := None;
        emdData := None;
      }
    }
  }

  /**
   * A 시·군 click that loads, then a 읍/면/동 click, emits both names; the breadcrumb then
   * returns to `sig` with the 시·군 still selected.
   */
  method SelectThenReturn(sig: Feature, emd: Feature, features: seq<Feature>) returns (emitted: Option<Selection>)
    ensures emitted == Some(Selection("경기도", sig.properties.code, sig.properties.name,
                                      emd.properties.code, emd.properties.name))
  {
    var picker := new RegionPicker("경기도");
    var none := picker.HandlePolygonClick(sig, "sig", EmdLoaded(features));
    assert picker.level == "emd" && picker.selectedSig == Some(sig);
    emitted := picker.HandlePolygonClick(emd, picker.level, EmdLoaded([]));
    picker.HandleBreadcrumbClick("sig");
    assert picker.level == "sig" && picker.selectedSig == Some(sig) && picker.selectedEmd.None?;
  }
}
