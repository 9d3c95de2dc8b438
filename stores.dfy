/**
 * The store pipeline of the `useStores` hook: the industry classifier, the rows of the
 * Gyeonggi open-data API turned into store records, the three-page city load into the
 * hook's state, and the photo lookup with its keyword-search fallback.
 */
module Stores {
  import opened Wrappers
  import opened Js
  import opened Text
  import opened Seqs

  // ---------------------------------------------------------------- mapIndustryToCategory

  const RestaurantKeywords: seq<string> := [
    "한식", "분식", "중식", "일식", "양식", "음식", "식당", "요리", "치킨", "피자", "고기", "횟집",
    "레스토랑", "식사", "밥집", "맛집", "음식점", "외식", "식품", "음료", "술집", "호프", "바", "펍"]
  const CafeKeywords: seq<string> := [
    "카페", "coffee", "coffe", "tea", "디저트", "베이커리", "빵집", "제과", "제빵", "커피", "차", "음료",
    "스무디", "주스", "아이스크림", "케이크", "도넛"]
  const PharmacyKeywords: seq<string> := [
    "약국", "pharmacy", "약품", "의약품", "한약", "약초", "약사", "약방", "의료", "병원", "클리닉", "진료소"]
  const MartKeywords: seq<string> := [
    "마트", "슈퍼", "식자재", "편의점", "상점", "소매", "도매", "식품점", "식료품", "생활용품", "잡화", "문구",
    "서점", "도서", "책방"]
  const BeautyKeywords: seq<string> := [
    "미용", "이용", "헤어", "뷰티", "네일", "화장품", "미용실", "이발소", "네일샵", "뷰티샵", "화장", "메이크업",
    "에스테틱", "피부관리", "마사지", "안마", "지압"]

  const Categories: seq<string> := ["restaurant", "cafe", "pharmacy", "mart", "beauty", "etc"]

  /** `/(k1|k2|…)/.test(name)`: an alternation of literals matches where one of them occurs. */
  predicate MatchesAny(name: string, keywords: seq<string>)
  {
    exists i :: 0 <= i < |keywords| && Contains(name, keywords[i])
  }

  /**
   * `mapIndustryToCategory`: the first category, in the fixed order restaurant, cafe,
   * pharmacy, mart, beauty, one of whose keywords occurs in the name as given (the cafe
   * test also accepts `카페` in the lower-cased name); otherwise `etc`.
   */
  function MapIndustryToCategory(name: string): (r: string)
    ensures r in Categories
    ensures r == "restaurant" <==> MatchesAny(name, RestaurantKeywords)
    ensures r == "cafe" <==> (!MatchesAny(name, RestaurantKeywords)
      && (MatchesAny(name, CafeKeywords) || Contains(ToLower(name), "카페")))
    ensures r == "pharmacy" <==> (!MatchesAny(name, RestaurantKeywords) && !MatchesAny(name, CafeKeywords)
      && !Contains(ToLower(name), "카페") && MatchesAny(name, PharmacyKeywords))
    ensures r == "mart" <==> (!MatchesAny(name, RestaurantKeywords) && !MatchesAny(name, CafeKeywords)
      && !Contains(ToLower(name), "카페") && !MatchesAny(name, PharmacyKeywords) && MatchesAny(name, MartKeywords))
    ensures r == "beauty" <==> (!MatchesAny(name, RestaurantKeywords) && !MatchesAny(name, CafeKeywords)
      && !Contains(ToLower(name), "카페") && !MatchesAny(name, PharmacyKeywords) && !MatchesAny(name, MartKeywords)
      && MatchesAny(name, BeautyKeywords))
    ensures r == "etc" <==> (!MatchesAny(name, RestaurantKeywords) && !MatchesAny(name, CafeKeywords)
      && !Contains(ToLower(name), "카페") && !MatchesAny(name, PharmacyKeywords) && !MatchesAny(name, MartKeywords)
      && !MatchesAny(name, BeautyKeywords))
  {
    if MatchesAny(name, RestaurantKeywords) then "restaurant"
    else if MatchesAny(name, CafeKeywords) || Contains(ToLower(name), "카페") then "cafe"
    else if MatchesAny(name, PharmacyKeywords) then "pharmacy"
    else if MatchesAny(name, MartKeywords) then "mart"
    else if MatchesAny(name, BeautyKeywords) then "beauty"
    else "etc"
  }

  /** `음료` is listed under restaurant and cafe; restaurant is checked first and wins. */
  lemma BeverageIsRestaurant(name: string)
    requires Contains(name, "음료")
    ensures MapIndustryToCategory(name) == "restaurant"
  {
    assert RestaurantKeywords[19] == "음료";
  }

  /** Every `식품점` also contains `식품`, so the mart keyword `식품점` always classifies as restaurant. */
  lemma FoodStoreIsRestaurant(name: string)
    requires Contains(name, "식품점")
    ensures MapIndustryToCategory(name) == "restaurant"
  {
    ContainsPrefixOf(name, "식품점", "식품");
    assert RestaurantKeywords[18] == "식품";
  }

  /** Lower-casing only touches ASCII letters, so `카페` in the lower-cased name is `카페` in the name. */
  lemma LowerCafeOccursInName(name: string)
    requires Contains(ToLower(name), "카페")
    ensures Contains(name, "카페")
  {
    var lower := ToLower(name);
    ContainsIff(lower, "카페");
    var i :| OccursAt(lower, "카페", i);
    assert lower[i] == '카' && lower[i + 1] == '페';
    assert name[i..i + 2] == "카페";
    ContainsAt(name, "카페", i);
  }

  /** The extra `n.includes("카페")` test adds nothing: the cafe branch is the regex alone. */
  lemma CafeBranchIsRegexAlone(name: string)
    ensures MatchesAny(name, CafeKeywords) || Contains(ToLower(name), "카페") <==> MatchesAny(name, CafeKeywords)
  {
    if Contains(ToLower(name), "카페") {
      LowerCafeOccursInName(name);
      assert CafeKeywords[0] == "카페";
    }
  }

  /** Every keyword starts with a Hangul syllable or a lower-case ASCII letter. */
  predicate StartsHangulOrLower(k: string)
  {
    |k| > 0 && (IsHangul(k[0]) || 'a' <= k[0] <= 'z')
  }

  lemma KeywordsStartHangulOrLower()
    ensures forall i :: 0 <= i < |RestaurantKeywords| ==> StartsHangulOrLower(RestaurantKeywords[i])
    ensures forall i :: 0 <= i < |CafeKeywords| ==> StartsHangulOrLower(CafeKeywords[i])
    ensures forall i :: 0 <= i < |PharmacyKeywords| ==> StartsHangulOrLower(PharmacyKeywords[i])
    ensures forall i :: 0 <= i < |MartKeywords| ==> StartsHangulOrLower(MartKeywords[i])
    ensures forall i :: 0 <= i < |BeautyKeywords| ==> StartsHangulOrLower(BeautyKeywords[i])
  {
  }

  /** A name with neither Hangul nor lower-case letters matches no keyword. */
  lemma NoKeywordIn(name: string, keywords: seq<string>)
    requires forall k :: 0 <= k < |name| ==> !IsHangul(name[k]) && !('a' <= name[k] <= 'z')
    requires forall i :: 0 <= i < |keywords| ==> StartsHangulOrLower(keywords[i])
    ensures !MatchesAny(name, keywords)
  {
    forall i | 0 <= i < |keywords|
      ensures !Contains(name, keywords[i])
    {
      var c := keywords[i][0];
      assert c !in name;
      LacksChar(name, keywords[i], c);
    }
  }

  /**
   * Keywords are matched against the name as written, so an upper-case Latin name is `etc`
   * even where its lower-case spelling is a keyword (`COFFEE` versus `coffee`).
   */
  lemma UpperLatinNameIsEtc(name: string)
    requires forall k :: 0 <= k < |name| ==> !IsHangul(name[k]) && !('a' <= name[k] <= 'z')
    ensures MapIndustryToCategory(name) == "etc"
  {
    KeywordsStartHangulOrLower();
    NoKeywordIn(name, RestaurantKeywords);
    NoKeywordIn(name, CafeKeywords);
    NoKeywordIn(name, PharmacyKeywords);
    NoKeywordIn(name, MartKeywords);
    NoKeywordIn(name, BeautyKeywords);
    assert '카' !in ToLower(name);
    LacksChar(ToLower(name), "카페", '카');
  }

  /** Every restaurant keyword is Hangul from its first character on. */
  lemma RestaurantKeywordsStartHangul()
    ensures forall i :: 0 <= i < |RestaurantKeywords| ==> |RestaurantKeywords[i]| > 0 && IsHangul(RestaurantKeywords[i][0])
  {
  }

  /** The same word classifies differently by case: `coffee` is a cafe, `COFFEE` is `etc`. */
  lemma KeywordCaseMatters()
    ensures MapIndustryToCategory("coffee") == "cafe"
    ensures MapIndustryToCategory("COFFEE") == "etc"
  {
    RestaurantKeywordsStartHangul();
    forall i | 0 <= i < |RestaurantKeywords|
      ensures !Contains("coffee", RestaurantKeywords[i])
    {
      LacksChar("coffee", RestaurantKeywords[i], RestaurantKeywords[i][0]);
    }
    assert IsPrefix("coffee", "coffee");
    assert CafeKeywords[1] == "coffee";
    UpperLatinNameIsEtc("COFFEE");
  }

  /** The default empty name is `etc`. */
  lemma EmptyNameIsEtc()
    ensures MapIndustryToCategory("") == "etc"
  {
    UpperLatinNameIsEtc("");
  }

  // ---------------------------------------------------------------- fetchGgStoresByCity rows

  /** The columns of a `RegionMnyFacltStus` row that the hook reads. */
  datatype Row = Row(
    sigunCd: Field,          // SIGUN_CD
    mgtno: Field,            // MGTNO
    cmpnmNm: Field,          // CMPNM_NM
    lat: Field,              // REFINE_WGS84_LAT
    lng: Field,              // REFINE_WGS84_LOGT
    roadAddr: Field,         // REFINE_ROADNM_ADDR
    lotAddr: Field,          // REFINE_LOTNO_ADDR
    indutyName: Field,       // INDUTY_CODE_SE_NM
    indutyCode: Field)       // INDUTY_CODE_SE

  /** A store record; `name` is the row's `CMPNM_NM` as it is, `openNow` is always null. */
  datatype Store = Store(
    id: string,
    name: Field,
    address: string,
    lat: real,
    lng: real,
    rawCategory: string,
    category: string,
    photo: string)

  /** The row filter: both coordinates present and truthy. */
  predicate HasCoordinates(r: Row)
  {
    Truthy(r.lat) && Truthy(r.lng)
  }

  /**
   * One row mapped to a store. `number` is the unary `+` on a coordinate string and
   * `photoFor` the photo lookup for a name and position.
   */
  function BuildStore(r: Row, number: string -> real, photoFor: (string, real, real) -> string): (s: Store)
    requires HasCoordinates(r)
    ensures s.id == TextOr(r.sigunCd) + "-" + Show(Or(r.mgtno, r.cmpnmNm)) + "-" + r.lat.s + "-" + r.lng.s
    ensures s.address == (if Truthy(r.roadAddr) then r.roadAddr.s else TextOr(r.lotAddr))
    ensures s.rawCategory == (if Truthy(r.indutyName) then r.indutyName.s else TextOr(r.indutyCode))
    ensures s.category == MapIndustryToCategory(s.rawCategory + " " + TextOr(r.cmpnmNm))
    ensures s.category in Categories
    ensures s.lat == number(r.lat.s) && s.lng == number(r.lng.s) && s.name == r.cmpnmNm
  {
    var rawCategory := TextOr(Or(r.indutyName, r.indutyCode));
    var storeName := TextOr(r.cmpnmNm);
    var lat := number(r.lat.s);
    var lng := number(r.lng.s);
    Store(
      TextOr(r.sigunCd) + "-" + Show(Or(r.mgtno, r.cmpnmNm)) + "-" + Show(r.lat) + "-" + Show(r.lng),
      r.cmpnmNm,
      TextOr(Or(r.roadAddr, r.lotAddr)),
      lat, lng,
      rawCategory,
      MapIndustryToCategory(rawCategory + " " + storeName),
      photoFor(storeName, lat, lng))
  }

  /** The rows with coordinates, each made a store, in row order. */
  function StoresOfRows(rows: seq<Row>, number: string -> real, photoFor: (string, real, real) -> string)
    : (r: seq<Store>)
    ensures |r| == |Filter(HasCoordinates, rows)|
    ensures forall k :: 0 <= k < |r| ==> r[k] == BuildStore(Filter(HasCoordinates, rows)[k], number, photoFor)
  {
    var kept := Filter(HasCoordinates, rows);
    seq(|kept|, k requires 0 <= k < |kept| => BuildStore(kept[k], number, photoFor))
  }

  /** Rows without coordinates contribute nothing; appending rows appends their stores. */
  lemma StoresOfRowsAppend(a: seq<Row>, b: seq<Row>, number: string -> real, photoFor: (string, real, real) -> string)
    ensures StoresOfRows(a + b, number, photoFor) == StoresOfRows(a, number, photoFor) + StoresOfRows(b, number, photoFor)
  {
    FilterAppend(HasCoordinates, a, b);
    var fa, fb := Filter(HasCoordinates, a), Filter(HasCoordinates, b);
    var whole := StoresOfRows(a + b, number, photoFor);
    var left, right := StoresOfRows(a, number, photoFor), StoresOfRows(b, number, photoFor);
    forall k | 0 <= k < |whole|
      ensures whole[k] == (left + right)[k]
    {
      if k < |fa| {
        assert (fa + fb)[k] == fa[k];
      } else {
        assert (fa + fb)[k] == fb[k - |fa|];
      }
    }
  }

  lemma RowWithoutCoordinatesDropped(r: Row, number: string -> real, photoFor: (string, real, real) -> string)
    requires !HasCoordinates(r)
    ensures StoresOfRows([r], number, photoFor) == []
  {
    assert Filter(HasCoordinates, [r]) == [];
  }

  /** What the GG open API returned for one page: a failure, or the `row` list (`[]` when absent). */
  datatype Page = PageFailed | PageRows(rows: seq<Row>)

  /** `fetchGgStoresByCity`: the page's stores, or `[]` when the request failed. */
  function FetchGgStoresByCity(page: Page, number: string -> real, photoFor: (string, real, real) -> string)
    : (r: seq<Store>)
    ensures page.PageFailed? ==> r == []
    ensures page.PageRows? ==> r == StoresOfRows(page.rows, number, photoFor)
  {
    match page
    case PageFailed => []
    case PageRows(rows) => StoresOfRows(rows, number, photoFor)
  }

  // ---------------------------------------------------------------- loadStoresByCity

  /** The number of pages `loadStoresByCity` requests. */
  const CityPages: nat := 3

  /** Pages 1 to `n` of a city, concatenated in page order. */
  function CityStores(pageOf: nat -> Page, number: string -> real, photoFor: (string, real, real) -> string, n: nat)
    : seq<Store>
  {
    if n == 0 then [] else CityStores(pageOf, number, photoFor, n - 1) + FetchGgStoresByCity(pageOf(n), number, photoFor)
  }

  /** The hook's state: `stores`, `filtered` and `loading`. */
  class StoreState {
    var stores: seq<Store>
    var filtered: seq<Store>
    var loading: bool

    constructor ()
      ensures stores == [] && filtered == [] && !loading
    {
      stores := [];
      filtered := [];
      loading := false;
    }

    /**
     * `loadStoresByCity`: pages 1, 2 and 3 of the city, flattened in page order, become
     * both `stores` and `filtered` and are returned; `loading` ends false. `pageOf` is what
     * the API answered for each page number.
     */
    method LoadStoresByCity(pageOf: nat -> Page, number: string -> real, photoFor: (string, real, real) -> string)
      returns (all: seq<Store>)
      modifies this
      ensures all == CityStores(pageOf, number, photoFor, CityPages)
      ensures stores == all && filtered == all && !loading
    {
      loading := true;
      var pages := [
        FetchGgStoresByCity(pageOf(1), number, photoFor),
        FetchGgStoresByCity(pageOf(2), number, photoFor),
        FetchGgStoresByCity(pageOf(3), number, photoFor)];
      all := Flatten(pages);
      FlattenThree(pages[0], pages[1], pages[2]);
      assert pages == [pages[0], pages[1], pages[2]];
      assert CityStores(pageOf, number, photoFor, 1) == pages[0];
      stores := all;
      filtered := all;
      loading := false;
    }
  }

  // ---------------------------------------------------------------- fetchStoreImage

  /** A keyword-search result of the Kakao SDK: its id and `y`/`x` coordinate strings. */
  datatype Place = Place(id: Field, y: Field, x: Field)

  predicate PlaceHasCoordinates(p: Place)
  {
    Truthy(p.y) && Truthy(p.x)
  }

  /**
   * The square of the straight-line distance from `(lat, lng)`, for a place with coordinates;
   * `Math.sqrt` keeps its order. `number` is JavaScript's string-to-number coercion, `None`
   * standing for `NaN`; a coordinate that does not parse makes the distance `NaN`, here `None`,
   * and `NaN < minDistance` never holds. A coordinate coercing to an infinity gives an infinite
   * distance, which is never below `minDistance` either, so `number` maps it to `None` as well.
   */
  function Distance(p: Place, lat: real, lng: real, number: string -> Option<real>): (d: Option<real>)
    ensures d.Some? <==> PlaceHasCoordinates(p) && number(p.y.s).Some? && number(p.x.s).Some?
    ensures d.Some? ==> d.value >= 0.0
  {
    if PlaceHasCoordinates(p) && number(p.y.s).Some? && number(p.x.s).Some? then
      var dy := number(p.y.s).value - lat;
      var dx := number(p.x.s).value - lng;
      Some(dy * dy + dx * dx)
    else None
  }

  /**
   * The fallback `forEach` over the first `n` places as a function: the index it keeps and the
   * least distance seen (`None` for `Infinity`). A place replaces the current one only when its
   * distance is strictly smaller.
   */
  function Scan(data: seq<Place>, n: nat, lat: real, lng: real, number: string -> Option<real>): (r: (nat, Option<real>))
    requires n <= |data|
    ensures r.0 < |data| || (r.0 == 0 && r.1.None?)
    ensures r.1.None? ==> r.0 == 0
    ensures r.1.Some? ==> r.0 < n && r.1 == Distance(data[r.0], lat, lng, number)
    decreases n
  {
    if n == 0 then (0, None)
    else
      var prev := Scan(data, n - 1, lat, lng, number);
      var d := Distance(data[n - 1], lat, lng, number);
      if d.Some? && (prev.1.None? || d.value < prev.1.value) then (n - 1, d) else prev
  }

  /** The place `fetchStoreImage` falls back to: the index the whole scan keeps. */
  function ClosestIndex(data: seq<Place>, lat: real, lng: real, number: string -> Option<real>): nat
  {
    Scan(data, |data|, lat, lng, number).0
  }

  /**
   * The fallback `forEach`: the place with a numeric distance at the least distance, the
   * first of them on a tie; `data[0]` when no place has one (`minDistance` stays `Infinity`,
   * here `None`).
   */
  method ClosestPlace(data: seq<Place>, lat: real, lng: real, number: string -> Option<real>)
    returns (closest: nat, minDistance: Option<real>)
    requires |data| > 0
    ensures (closest, minDistance) == Scan(data, |data|, lat, lng, number)
    ensures closest < |data|
    ensures minDistance.None? <==> forall j :: 0 <= j < |data| ==> Distance(data[j], lat, lng, number).None?
    ensures minDistance.None? ==> closest == 0
    ensures minDistance.Some? ==> minDistance == Distance(data[closest], lat, lng, number)
    ensures minDistance.Some? ==> forall j :: 0 <= j < |data| && Distance(data[j], lat, lng, number).Some? ==>
      minDistance.value <= Distance(data[j], lat, lng, number).value
    ensures minDistance.Some? ==> forall j :: 0 <= j < closest && Distance(data[j], lat, lng, number).Some? ==>
      minDistance.value < Distance(data[j], lat, lng, number).value
  {
    closest := 0;
    minDistance := None;
    var i := 0;
    while i < |data|
      invariant 0 <= i <= |data|
      invariant (closest, minDistance) == Scan(data, i, lat, lng, number)
      invariant closest < |data|
      invariant minDistance.None? <==> forall j :: 0 <= j < i ==> Distance(data[j], lat, lng, number).None?
      invariant minDistance.None? ==> closest == 0
      invariant minDistance.Some? ==> (closest < i && minDistance == Distance(data[closest], lat, lng, number))
      invariant minDistance.Some? ==> forall j :: 0 <= j < i && Distance(data[j], lat, lng, number).Some? ==>
        minDistance.value <= Distance(data[j], lat, lng, number).value
      invariant minDistance.Some? ==> forall j :: 0 <= j < closest && Distance(data[j], lat, lng, number).Some? ==>
        minDistance.value < Distance(data[j], lat, lng, number).value
    {
      var d := Distance(data[i], lat, lng, number);
      if d.Some? && (minDistance.None? || d.value < minDistance.value) {
        minDistance := d;
        closest := i;
      }
      i := i + 1;
    }
  }

  const PicsumSeed := "https://picsum.photos/seed/"
  const KakaoThumbnail := "https://img1.kakaocdn.net/cthumb/local/C400x300.q50/?fname="
  const KakaoStore := "https://t1.kakaocdn.net/mystore/"

  /** The default picture, seeded with the store name: the encoded name sits between the fixed prefix and `/400/300`. */
  function PicsumUrl(storeName: string): (u: string)
    ensures IsPrefix(PicsumSeed, u) && |u| == |PicsumSeed| + |Encode(storeName)| + 8
    ensures u[|PicsumSeed|..|u| - 8] == Encode(storeName) && u[|u| - 8..] == "/400/300"
  {
    PicsumSeed + Encode(storeName) + "/400/300"
  }

  /** The picture URL built from a Kakao place id: the thumbnail prefix, then the encoded store address. */
  function KakaoImageUrl(placeId: string): (u: string)
    ensures IsPrefix(KakaoThumbnail, u) && u[|KakaoThumbnail|..] == Encode(KakaoStore + placeId)
  {
    KakaoThumbnail + Encode(KakaoStore + placeId)
  }

  /** Different encoded names give different default URLs. */
  lemma PicsumUrlInjective(a: string, b: string)
    requires PicsumUrl(a) == PicsumUrl(b)
    ensures Encode(a) == Encode(b)
  {
    var u := PicsumUrl(a);
    assert u[|PicsumSeed|..|u| - 8] == Encode(b);
  }

  /** What the FastAPI `/image` call gave: a failure (network, non-ok, bad JSON) or its `image_url`. */
  datatype Backend = BackendFailed | BackendImage(imageUrl: Field)

  /** The fallback: no SDK loaded, or the search status with its results. */
  datatype KakaoSearch = NoSdk | SearchResult(statusOk: bool, data: seq<Place>)

  /**
   * `fetchStoreImage`: a truthy `image_url` from the backend; otherwise the picsum picture,
   * except that a failed backend falls back to the nearest Kakao keyword-search result and
   * uses its id when it has one. `search` answers a trimmed query.
   */
  method FetchStoreImage(storeName: string, lat: real, lng: real, backend: Backend,
                         search: string -> KakaoSearch, number: string -> Option<real>)
    returns (url: string)
    ensures backend.BackendImage? && Truthy(backend.imageUrl) ==> url == backend.imageUrl.s
    ensures backend.BackendImage? && !Truthy(backend.imageUrl) ==> url == PicsumUrl(storeName)
    ensures backend.BackendFailed? ==>
      var found := search(Trim(storeName));
      (found.NoSdk? || !found.statusOk || found.data == [] ==> url == PicsumUrl(storeName))
    ensures backend.BackendFailed? ==>
      var found := search(Trim(storeName));
      (found.SearchResult? && found.statusOk && found.data != [] ==>
        var place := found.data[ClosestIndex(found.data, lat, lng, number)];
        url == (if Truthy(place.id) then KakaoImageUrl(place.id.s) else PicsumUrl(storeName)))
    ensures url == PicsumUrl(storeName)
      || (backend.BackendImage? && Truthy(backend.imageUrl) && url == backend.imageUrl.s)
      || (backend.BackendFailed? && (exists id :: url == KakaoImageUrl(id)))
  {
    match backend {
      case BackendImage(imageUrl) =>
        if Truthy(imageUrl) {
          return imageUrl.s;
        }
        return PicsumUrl(storeName);
      case BackendFailed =>
        var found := search(Trim(storeName));
        if found.NoSdk? || !found.statusOk || found.data == [] {
          return PicsumUrl(storeName);
        }
        var closest, _ := ClosestPlace(found.data, lat, lng, number);
        var place := found.data[closest];
        if Truthy(place.id) {
          return KakaoImageUrl(place.id.s);
        }
        return PicsumUrl(storeName);
    }
  }
}
