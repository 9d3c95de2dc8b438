/**
 * `src/components/PlaceDetailView.jsx`: the Google Places text-search request of the
 * development branch, the shaping of the returned photos, the dummy and development photo
 * lists, and the loader's `photos`/`loading`/`error`/`attributionVisible` state.
 */
module PlaceDetail {
  import opened Wrappers
  import opened Js
  import opened Text

  // ---------------------------------------------------------------- the search request

  /** The store fields the view reads; a coordinate is `None` when missing. */
  datatype StoreInfo = StoreInfo(name: Field, address: Field, lat: Option<real>, lng: Option<real>)

  /** A number is truthy unless it is missing or zero. */
  predicate NumTruthy(x: Option<real>)
  {
    x.Some? && x.value != 0.0
  }

  /** `[name, address].filter(Boolean).join(' ')` */
  function SearchQuery(name: Field, address: Field): (r: string)
    ensures Truthy(name) && Truthy(address) ==> r == name.s + " " + address.s
    ensures Truthy(name) && !Truthy(address) ==> r == name.s
    ensures !Truthy(name) && Truthy(address) ==> r == address.s
    ensures !Truthy(name) && !Truthy(address) ==> r == ""
  {
    var parts := (if Truthy(name) then [name.s] else []) + (if Truthy(address) then [address.s] else []);
    assert Truthy(name) && Truthy(address) ==>
      parts == [name.s, address.s] && Join(parts, " ") == name.s + " " + Join([address.s], " ");
    Join(parts, " ")
  }

  /** The location part: present only when both coordinates are truthy. */
  function LocationSuffix(lat: Option<real>, lng: Option<real>): (r: string)
    ensures NumTruthy(lat) && NumTruthy(lng) ==>
      r == "&" + ("location=" + NumStr(lat.value) + "," + NumStr(lng.value)) + "&" + "radius=1000"
    ensures !(NumTruthy(lat) && NumTruthy(lng)) ==> r == ""
  {
    if NumTruthy(lat) && NumTruthy(lng) then
      "&" + ("location=" + NumStr(lat.value) + "," + NumStr(lng.value)) + "&" + "radius=1000"
    else ""
  }

  const TextSearch := "https://maps.googleapis.com/maps/api/place/textsearch/json?query="

  /** The parameters after the location part. */
  function Trailer(key: string): string
  {
    "&" + ("key=" + key + "&region=KR&language=ko")
  }

  /** What follows `?query=`: the encoded query, the location part, the key, region and language. */
  function SearchParams(store: StoreInfo, key: string): string
  {
    Encode(SearchQuery(store.name, store.address)) + LocationSuffix(store.lat, store.lng) + Trailer(key)
  }

  /** The text-search URL; `key` is the development key the view embeds. */
  function SearchUrl(store: StoreInfo, key: string): (r: string)
    ensures r == TextSearch + SearchParams(store, key)
  {
    TextSearch + (Encode(SearchQuery(store.name, store.address)) + LocationSuffix(store.lat, store.lng) + Trailer(key))
  }

  /** The query parameter holds exactly the encoded query: the encoding cannot end it early. */
  lemma QueryParamFirst(store: StoreInfo, key: string)
    ensures SplitOn(SearchParams(store, key), "&")[0] == Encode(SearchQuery(store.name, store.address))
  {
    var q := Encode(SearchQuery(store.name, store.address));
    EncodeHasNoDelimiter(SearchQuery(store.name, store.address));
    var l := LocationSuffix(store.lat, store.lng);
    var t := "key=" + key + "&region=KR&language=ko";
    if NumTruthy(store.lat) && NumTruthy(store.lng) {
      var x := "location=" + NumStr(store.lat.value) + "," + NumStr(store.lng.value);
      var y := "radius=1000";
      Regroup(q, x, y, "&" + t);
      SplitPrefixPiece(q, '&', x + "&" + y + ("&" + t));
    } else {
      assert q + l + ("&" + t) == q + "&" + t;
      SplitPrefixPiece(q, '&', t);
    }
  }

  lemma Regroup(q: string, x: string, y: string, t: string)
    ensures q + ("&" + x + "&" + y) + t == q + "&" + (x + "&" + y + t)
  {
  }

  /** Name and address without spaces come back out of the query, missing ones dropped. */
  lemma QueryPartsRecovered(name: Field, address: Field)
    requires name.Str? ==> ' ' !in name.s
    requires address.Str? ==> ' ' !in address.s
    ensures Truthy(name) || Truthy(address) ==>
      SplitOn(SearchQuery(name, address), " ")
      == (if Truthy(name) then [name.s] else []) + (if Truthy(address) then [address.s] else [])
  {
    if Truthy(name) && Truthy(address) {
      SplitPrefixPiece(name.s, ' ', address.s);
      SplitNoSep(address.s, ' ');
    } else if Truthy(name) {
      SplitNoSep(name.s, ' ');
    } else if Truthy(address) {
      SplitNoSep(address.s, ' ');
    }
  }

  // ---------------------------------------------------------------- photo shaping

  /** A photo of the Place Details result. */
  datatype GooglePhoto = GooglePhoto(width: int, height: int, htmlAttributions: Option<seq<string>>,
                                     photoReference: Field)

  /** A photo as the view shows it; the development photos carry no index. */
  datatype PhotoCard = PhotoCard(index: Option<nat>, width: int, height: int, attributions: string, url: string)

  const MaxPhotos := 6
  const PhotoEndpoint := "https://maps.googleapis.com/maps/api/place/photo?maxwidth=800&photo_reference="

  /** `photo.html_attributions?.join(' ') || ''` */
  function Attributions(p: GooglePhoto): (r: string)
    ensures p.htmlAttributions.None? ==> r == ""
    ensures p.htmlAttributions.Some? ==> r == Join(p.htmlAttributions.value, " ")
  {
    if p.htmlAttributions.None? then "" else Join(p.htmlAttributions.value, " ")
  }

  function PhotoUrl(p: GooglePhoto, key: string): string
  {
    PhotoEndpoint + Show(p.photoReference) + "&key=" + key
  }

  /** The card for the photo at position `index`. */
  function Card(p: GooglePhoto, index: nat, key: string): PhotoCard
  {
    PhotoCard(Some(index), p.width, p.height, Attributions(p), PhotoUrl(p, key))
  }

  /** The `map` over the first photos, each card numbered from `start`. */
  function CardsFrom(ps: seq<GooglePhoto>, start: nat, key: string): (r: seq<PhotoCard>)
    ensures |r| == |ps|
    ensures forall k :: 0 <= k < |r| ==> r[k] == Card(ps[k], start + k, key)
  {
    if ps == [] then [] else [Card(ps[0], start, key)] + CardsFrom(ps[1..], start + 1, key)
  }

  /** `(result.photos || []).slice(0, 6).map((photo, index) => …)` */
  function ShapePhotos(photos: Option<seq<GooglePhoto>>, key: string): (r: seq<PhotoCard>)
    ensures photos.None? ==> r == []
    ensures photos.Some? ==> |r| == (if |photos.value| < MaxPhotos then |photos.value| else MaxPhotos)
    ensures forall k :: 0 <= k < |r| ==>
      photos.Some? && k < |photos.value|
      && r[k].index == Some(k) && r[k].width == photos.value[k].width && r[k].height == photos.value[k].height
      && r[k].attributions == Attributions(photos.value[k]) && r[k].url == PhotoUrl(photos.value[k], key)
  {
    if photos.None? then []
    else
      var n := if |photos.value| < MaxPhotos then |photos.value| else MaxPhotos;
      CardsFrom(photos.value[..n], 0, key)
  }

  /** More photos after the first ones do not change the first cards. */
  lemma ShapeIsPrefixStable(ps: seq<GooglePhoto>, more: seq<GooglePhoto>, key: string)
    ensures var short := ShapePhotos(Some(ps), key);
      var long := ShapePhotos(Some(ps + more), key);
      |short| <= |long| && forall k :: 0 <= k < |short| ==> long[k] == short[k]
  {
    var short := ShapePhotos(Some(ps), key);
    var long := ShapePhotos(Some(ps + more), key);
    forall k | 0 <= k < |short|
      ensures long[k] == short[k]
    {
      assert (ps + more)[k] == ps[k];
    }
  }

  /** A card's url names the photo's own reference, so distinct references give distinct urls. */
  lemma PhotoUrlsTellReferences(p: GooglePhoto, q: GooglePhoto, key: string)
    requires PhotoUrl(p, key) == PhotoUrl(q, key)
    ensures Show(p.photoReference) == Show(q.photoReference)
  {
    var a := Show(p.photoReference);
    var b := Show(q.photoReference);
    var t := "&key=" + key;
    var u := PhotoUrl(p, key);
    assert u == PhotoEndpoint + a + t;
    assert u == PhotoEndpoint + b + t;
    assert |a| == |b|;
    assert a == u[|PhotoEndpoint|..|PhotoEndpoint| + |a|];
    assert b == u[|PhotoEndpoint|..|PhotoEndpoint| + |b|];
  }

  // ---------------------------------------------------------------- dummy and development photos

  const PicsumSeed := "https://picsum.photos/seed/"

  function Picsum(seed: string, size: string): string
  {
    PicsumSeed + Encode(seed) + size
  }

  const DummyAttribution := "Google Places (더미 데이터)"
  const DevAttribution := "개발 테스트 이미지"
  const FallbackError :=
    "CORS 문제로 인해 더미 데이터를 사용합니다. 프로덕션에서는 서버 프록시를 통해 실제 Google Places 데이터를 사용합니다."

  /** The three picsum photos of a failed lookup, seeded by the name and the name with `2` and `3`. */
  function DummyPhotos(name: Field): (r: seq<PhotoCard>)
    ensures |r| == 3
    ensures forall k :: 0 <= k < 3 ==>
      r[k].index == Some(k) && r[k].width == 800 && r[k].height == 600 && r[k].attributions == DummyAttribution
    ensures r[0].url == Picsum(Show(name), "/800/600")
    ensures r[1].url == Picsum(Show(name) + "2", "/800/600") && r[2].url == Picsum(Show(name) + "3", "/800/600")
  {
    [PhotoCard(Some(0), 800, 600, DummyAttribution, Picsum(Show(name), "/800/600")),
     PhotoCard(Some(1), 800, 600, DummyAttribution, Picsum(Show(name) + "2", "/800/600")),
     PhotoCard(Some(2), 800, 600, DummyAttribution, Picsum(Show(name) + "3", "/800/600"))]
  }

  /** The three development photos shown when the feature flag is off: no index, 400×300. */
  function DevPhotos(name: Field): (r: seq<PhotoCard>)
    ensures |r| == 3
    ensures forall k :: 0 <= k < 3 ==>
      r[k].index.None? && r[k].width == 400 && r[k].height == 300 && r[k].attributions == DevAttribution
    ensures r[0].url == Picsum(Show(name), "/400/300")
    ensures r[1].url == Picsum(Show(name) + "2", "/400/300") && r[2].url == Picsum(Show(name) + "3", "/400/300")
  {
    [PhotoCard(None, 400, 300, DevAttribution, Picsum(Show(name), "/400/300")),
     PhotoCard(None, 400, 300, DevAttribution, Picsum(Show(name) + "2", "/400/300")),
     PhotoCard(None, 400, 300, DevAttribution, Picsum(Show(name) + "3", "/400/300"))]
  }

  /** The three seeds encode to three different path segments, so the three pictures differ. */
  lemma DummySeedsDiffer(name: Field)
    ensures Encode(Show(name)) != Encode(Show(name) + "2")
    ensures Encode(Show(name)) != Encode(Show(name) + "3")
    ensures Encode(Show(name) + "2") != Encode(Show(name) + "3")
  {
    var n := Show(name);
    EncodeAppend(n, "2");
    EncodeAppend(n, "3");
    DigitEncodes();
    assert Encode(n + "2") == Encode(n) + "2";
    assert Encode(n + "3") == Encode(n) + "3";
    assert |Encode(n + "2")| == |Encode(n)| + 1;
    assert Encode(n + "2")[|Encode(n)|] == '2';
    assert Encode(n + "3")[|Encode(n)|] == '3';
  }

  lemma DigitEncodes()
    ensures Encode("2") == "2" && Encode("3") == "3"
  {
    assert IsUnreserved('2') && IsUnreserved('3');
    assert "2"[1..] == [] && "3"[1..] == [];
  }

  // ---------------------------------------------------------------- the loader

  /** What the development lookup produced: a failed step, or the details result's `photos`. */
  datatype Lookup = LookupFailed | Details(photos: Option<seq<GooglePhoto>>)

  class PhotoLoader {
    var photos: seq<PhotoCard>
    var loading: bool
    var error: Option<string>
    var attributionVisible: bool

    constructor ()
      ensures photos == [] && !loading && error.None? && !attributionVisible
    {
      photos := [];
      loading := false;
      error := None;
      attributionVisible := false;
    }

    /**
     * The effect run when the view opens. Closed or without a store it does nothing. With the
     * flag off it shows the development photos. With the flag on, production always falls
     * back to the dummy photos; development shapes the details photos unless the lookup
     * failed, in which case the dummy photos and the error text are shown. Loading ends false.
     */
    method Open(isOpen: bool, store: Option<StoreInfo>, enableGooglePhotos: bool, isProduction: bool,
                key: string, lookup: string -> Lookup)
      returns (requested: Option<string>)
      modifies this
      ensures !isOpen || store.None? ==>
        requested.None? && photos == old(photos) && loading == old(loading) && error == old(error)
        && attributionVisible == old(attributionVisible)
      ensures isOpen && store.Some? ==> !loading && attributionVisible
      ensures isOpen && store.Some? && !enableGooglePhotos ==>
        requested.None? && photos == DevPhotos(store.value.name) && error == old(error)
      ensures isOpen && store.Some? && enableGooglePhotos && isProduction ==>
        requested.None? && photos == DummyPhotos(store.value.name) && error == Some(FallbackError)
      ensures isOpen && store.Some? && enableGooglePhotos && !isProduction ==>
        requested == Some(SearchUrl(store.value, key))
        && (lookup(requested.value).LookupFailed? ==>
              photos == DummyPhotos(store.value.name) && error == Some(FallbackError))
        && (lookup(requested.value).Details? ==>
              photos == ShapePhotos(lookup(requested.value).photos, key) && error.None?)
    {
      requested := None;
      if !isOpen || store.None? {
        return;
      }
      var s := store.value;
      if !enableGooglePhotos {
        ShowDevPhotos(s);
      } else {
        requested := LoadGooglePhotos(s, isProduction, key, lookup);
      }
    }

    /** The branch with Google photos turned off: the test photos, shown at once. */
    method ShowDevPhotos(s: StoreInfo)
      modifies this`photos, this`attributionVisible, this`loading
      ensures photos == DevPhotos(s.name) && attributionVisible && !loading
    {
      photos := DevPhotos(s.name);
      attributionVisible := true;
      loading := false;
    }

    /**
     * The Google branch of the effect: a search request outside production, its photos when
     * the lookup gave details, and otherwise the dummy photos with the error text.
     */
    method LoadGooglePhotos(s: StoreInfo, isProduction: bool, key: string, lookup: string -> Lookup)
      returns (requested: Option<string>)
      modifies this
      ensures !loading && attributionVisible
      ensures isProduction ==> requested.None? && photos == DummyPhotos(s.name) && error == Some(FallbackError)
      ensures !isProduction ==>
        requested == Some(SearchUrl(s, key))
        && (lookup(requested.value).LookupFailed? ==> photos == DummyPhotos(s.name) && error == Some(FallbackError))
        && (lookup(requested.value).Details? ==> photos == ShapePhotos(lookup(requested.value).photos, key) && error.None?)
    {
      requested := None;
      loading := true;
      error := None;
      photos := [];
      var failed := true;
      if !isProduction {
        var url := SearchUrl(s, key);
        requested := Some(url);
        var outcome := lookup(url);
        if outcome.Details? {
          photos := ShapePhotos(outcome.photos, key);
          attributionVisible := true;
          failed := false;
        }
      }
      if failed {
        photos := DummyPhotos(s.name);
        attributionVisible := true;
        error := Some(FallbackError);
      }
      loading := false;
    }
  }
}
