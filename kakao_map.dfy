/**
 * `src/hooks/useKakaoMap.js`: the API-key check and the marker layer. Kakao SDK markers
 * are objects shared between the marker list and the id-to-marker map; the model keeps
 * one image per marker position and maps each store id to a position, so a reset through
 * the map reaches exactly the markers the map still holds.
 */
module KakaoMap {
  import opened Wrappers
  import opened Js

  // ---------------------------------------------------------------- validateApiKey

  const DefaultKey := "cf29dccdc1b81db907bf3cab84679703"
  const MinKeyLength := 20

  /** `VITE_KAKAO_JS_KEY || DEFAULT`: the key the SDK is loaded with. */
  function JavascriptKey(env: Field): (r: string)
    ensures Truthy(env) ==> r == env.s
    ensures !Truthy(env) ==> r == DefaultKey
  {
    if Truthy(env) then env.s else DefaultKey
  }

  /** `validateApiKey`: false for a missing or default key and for one shorter than 20 characters. */
  function ValidateApiKey(key: Field): (r: bool)
    ensures r <==> Truthy(key) && key.s != DefaultKey && |key.s| >= MinKeyLength
  {
    if !Truthy(key) || key.s == DefaultKey then false
    else if |key.s| < MinKeyLength then false
    else true
  }

  /** Without the environment variable the key in use never validates. */
  lemma FallbackKeyIsRejected(env: Field)
    requires !Truthy(env)
    ensures !ValidateApiKey(Str(JavascriptKey(env)))
  {
  }

  /** Any long enough key other than the default is accepted. */
  lemma LongOwnKeyIsAccepted(key: string)
    requires |key| >= MinKeyLength && key != DefaultKey
    ensures ValidateApiKey(Str(key))
  {
  }

  // ---------------------------------------------------------------- markers

  datatype MarkerImage = DefaultImage | SelectedImage

  /** What a marker was created with: its store's id, position and title. */
  datatype MarkerInfo = MarkerInfo(storeId: string, lat: real, lng: real, title: Field)

  /** The store fields `updateMarkers` reads. */
  datatype MarkerStore = MarkerStore(id: string, name: Field, lat: real, lng: real)

  /**
   * One marker per store, in order, selected exactly for `selectedId`; the map holds
   * every store id, each at the last store with that id.
   */
  ghost predicate MarkersFor(stores: seq<MarkerStore>, selectedId: Option<string>, markers: seq<MarkerInfo>,
                             images: seq<MarkerImage>, mm: map<string, nat>): (r: bool)
    ensures r ==> forall k :: 0 <= k < |stores| ==> stores[k].id in mm && k <= mm[stores[k].id]
  {
    |markers| == |stores| && |images| == |stores|
    && (forall k :: 0 <= k < |stores| ==>
          markers[k] == MarkerInfo(stores[k].id, stores[k].lat, stores[k].lng, stores[k].name)
          && (images[k] == SelectedImage <==> selectedId == Some(stores[k].id)))
    && (forall id :: id in mm <==> exists k :: 0 <= k < |stores| && stores[k].id == id)
    && (forall id :: id in mm ==> mm[id] < |stores| && stores[mm[id]].id == id)
    && (forall id :: id in mm ==> forall j :: mm[id] < j < |stores| ==> stores[j].id != id)
  }

  /** The `stores.map` loop of `updateMarkers`, which also fills the id-to-marker map. */
  method BuildMarkers(stores: seq<MarkerStore>, selectedId: Option<string>)
    returns (markers: seq<MarkerInfo>, images: seq<MarkerImage>, mm: map<string, nat>)
    ensures MarkersFor(stores, selectedId, markers, images, mm)
  {
    markers, images, mm := [], [], map[];
    var k := 0;
    while k < |stores|
      invariant 0 <= k <= |stores|
      invariant |markers| == k && |images| == k
      invariant forall i :: 0 <= i < k ==>
        markers[i] == MarkerInfo(stores[i].id, stores[i].lat, stores[i].lng, stores[i].name)
        && (images[i] == SelectedImage <==> selectedId == Some(stores[i].id))
      invariant forall id :: id in mm <==> exists i :: 0 <= i < k && stores[i].id == id
      invariant forall id :: id in mm ==> mm[id] < k && stores[mm[id]].id == id
      invariant forall id :: id in mm ==> forall j :: mm[id] < j < k ==> stores[j].id != id
    {
      var store := stores[k];
      var image := if selectedId == Some(store.id) then SelectedImage else DefaultImage;
      markers := markers + [MarkerInfo(store.id, store.lat, store.lng, store.name)];
      images := images + [image];
      mm := mm[store.id := k];
      k := k + 1;
    }
  }

  class MarkerLayer {
    var markers: seq<MarkerInfo>
    /** `images[k]`: the image marker `k` currently shows. */
    var images: seq<MarkerImage>
    /** `markerMap`: store id to marker position. */
    var markerMap: map<string, nat>
    var selectedMarkerId: Option<string>

    predicate Valid()
      reads this
    {
      |images| == |markers|
      && forall id :: id in markerMap ==> markerMap[id] < |markers| && markers[markerMap[id]].storeId == id
    }

    constructor ()
      ensures Valid() && markers == [] && images == [] && markerMap == map[] && selectedMarkerId.None?
    {
      markers := [];
      images := [];
      markerMap := map[];
      selectedMarkerId := None;
    }

    /**
     * `updateMarkers`: without a map and SDK nothing happens. Otherwise the markers built
     * for the stores replace the old ones, and `selectedMarkerId` follows a truthy `selectedId`.
     */
    method UpdateMarkers(mapReady: bool, stores: seq<MarkerStore>, selectedId: Option<string>)
      requires Valid()
      modifies this
      ensures Valid()
      ensures !mapReady ==>
        markers == old(markers) && images == old(images) && markerMap == old(markerMap)
        && selectedMarkerId == old(selectedMarkerId)
      ensures mapReady ==> MarkersFor(stores, selectedId, markers, images, markerMap)
      ensures mapReady ==>
        selectedMarkerId == (if selectedId.Some? && selectedId.value != "" then selectedId else old(selectedMarkerId))
    {
      if !mapReady {
        return;
      }
      var newMarkers, newImages, mm := BuildMarkers(stores, selectedId);
      if selectedId.Some? && selectedId.value != "" {
        selectedMarkerId := selectedId;
      }
      markers := newMarkers;
      images := newImages;
      markerMap := mm;
    }

    /** Every marker the map holds back to the default image; the others keep theirs. */
    method ResetMappedImages()
      requires Valid()
      modifies this`images
      ensures Valid()
      ensures |images| == |old(images)|
      ensures forall j :: 0 <= j < |images| ==>
        images[j] == (if j in markerMap.Values then DefaultImage else old(images)[j])
    {
      var j := 0;
      while j < |images|
        invariant 0 <= j <= |images| == |old(images)|
        invariant forall i :: 0 <= i < |images| ==>
          images[i] == (if i < j && i in markerMap.Values then DefaultImage else old(images)[i])
      {
        if j in markerMap.Values {
          images := images[j := DefaultImage];
        }
        j := j + 1;
      }
    }

    /**
     * A click on marker `i`: the mapped markers reset, marker `i` selected, and its store's
     * id becomes `selectedMarkerId` and is handed to the click callback.
     */
    method Click(i: nat) returns (clicked: string)
      requires Valid() && i < |markers|
      modifies this`images, this`selectedMarkerId
      ensures Valid()
      ensures clicked == markers[i].storeId && selectedMarkerId == Some(clicked)
      ensures |images| == |old(images)| && images[i] == SelectedImage
      ensures forall j :: 0 <= j < |images| && j != i ==>
        images[j] == (if j in markerMap.Values then DefaultImage else old(images)[j])
    {
      ResetMappedImages();
      images := images[i := SelectedImage];
      clicked := markers[i].storeId;
      selectedMarkerId := Some(clicked);
    }

    /** `clearMarkerHighlight`: with a map and SDK, every mapped marker shows the default and nothing is selected. */
    method ClearMarkerHighlight(mapReady: bool)
      requires Valid()
      modifies this`images, this`selectedMarkerId
      ensures Valid()
      ensures !mapReady ==> images == old(images) && selectedMarkerId == old(selectedMarkerId)
      ensures mapReady ==> selectedMarkerId.None? && |images| == |old(images)|
      ensures mapReady ==> forall j :: 0 <= j < |images| ==>
        images[j] == (if j in markerMap.Values then DefaultImage else old(images)[j])
    {
      if !mapReady {
        return;
      }
      ResetMappedImages();
      selectedMarkerId := None;
    }
  }

  /** With distinct ids every marker is in the map, so a click leaves exactly one marker selected. */
  lemma DistinctIdsMapEveryMarker(stores: seq<MarkerStore>, markerMap: map<string, nat>, j: nat)
    requires forall a, b :: 0 <= a < b < |stores| ==> stores[a].id != stores[b].id
    requires forall id :: id in markerMap <==> exists k :: 0 <= k < |stores| && stores[k].id == id
    requires forall id :: id in markerMap ==> markerMap[id] < |stores| && stores[markerMap[id]].id == id
    requires j < |stores|
    ensures j in markerMap.Values
  {
    var id := stores[j].id;
    assert id in markerMap;
    assert markerMap[id] == j;
  }
}
