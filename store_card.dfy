/** `src/components/StoreCard.jsx`: the Korean label shown for a store's category. */
module StoreCard {
  import opened Wrappers
  import opened Js
  import Stores

  const Labels: seq<string> := ["음식점", "카페", "약국", "마트", "미용", "기타"]

  /** `categoryMap[category]`: the table entry under a key, if it has one. */
  function Entry(key: string): (r: Option<string>)
  {
    match key
    case "restaurant" => Some("음식점")
    case "cafe" => Some("카페")
    case "pharmacy" => Some("약국")
    case "mart" => Some("마트")
    case "beauty" => Some("미용")
    case "etc" => Some("기타")
    case _ => None
  }

  /**
   * `getCategoryLabel`: the table entry for the category, and `기타` for any other key and
   * for a missing category (`undefined` and `null` are looked up as the keys "undefined"
   * and "null", which the table lacks).
   */
  function GetCategoryLabel(category: Field): (r: string)
    ensures r in Labels
    ensures category.Str? && Entry(category.s).Some? ==> r == Entry(category.s).value
    ensures !(category.Str? && Entry(category.s).Some?) ==> r == "기타"
  {
    var entry := Entry(Show(category));
    if entry.Some? then entry.value else "기타"
  }

  /** The six category ids map, in order, onto the six labels. */
  lemma CategoriesMapOntoLabels()
    ensures |Stores.Categories| == |Labels|
    ensures forall k :: 0 <= k < |Labels| ==> GetCategoryLabel(Str(Stores.Categories[k])) == Labels[k]
  {
  }

  /** Every category the store classifier produces has its own entry in the table. */
  lemma ClassifiedStoresHaveEntries(name: string)
    ensures Entry(Stores.MapIndustryToCategory(name)).Some?
  {
    var c := Stores.MapIndustryToCategory(name);
    assert c in Stores.Categories;
  }

  /** Distinct categories get distinct labels, so the label tells the category. */
  lemma LabelsIdentifyCategories(a: string, b: string)
    requires a in Stores.Categories && b in Stores.Categories
    requires GetCategoryLabel(Str(a)) == GetCategoryLabel(Str(b))
    ensures a == b
  {
    CategoriesMapOntoLabels();
    var i :| 0 <= i < |Stores.Categories| && Stores.Categories[i] == a;
    var j :| 0 <= j < |Stores.Categories| && Stores.Categories[j] == b;
    assert Labels[i] == Labels[j];
    LabelsDistinct();
  }

  lemma LabelsDistinct()
    ensures forall i, j :: 0 <= i < j < |Labels| ==> Labels[i] != Labels[j]
  {
  }

  /** Only `etc` among the categories shares its label with keys outside the table. */
  lemma UnknownKeysShowEtc(key: string)
    requires key !in Stores.Categories
    ensures GetCategoryLabel(Str(key)) == GetCategoryLabel(Str("etc"))
  {
  }
}
