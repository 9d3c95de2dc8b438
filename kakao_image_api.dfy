/**
 * The FastAPI scraper that finds a Kakao place id for a keyword and then the place's
 * main photo. The browser session and the HTTP request are inputs: the model starts
 * from what each step observed.
 */
module KakaoImageApi {
  import opened Wrappers
  import opened Text

  // ---------------------------------------------------------------- get_place_id

  /** What the browser step observed on the search page. */
  datatype BrowserOutcome =
    | NoMoreviewLink          // `soup.select_one("a.moreview")` found nothing
    | MoreviewLink(href: string)
    | BrowserFailed           // any exception while driving the page or reading `href`

  const PlaceIdKey := "placeId="

  /** `href.split("placeId=")[-1].split("&")[0]`, when `placeId=` occurs at all. */
  function PlaceIdFromHref(href: string): (r: Option<string>)
    ensures r.Some? <==> Contains(href, PlaceIdKey)
  {
    if Contains(href, PlaceIdKey) then
      var pieces := SplitOn(href, PlaceIdKey);
      Some(SplitOn(pieces[|pieces| - 1], "&")[0])
    else None
  }

  /** `get_place_id` after the browser step. */
  function GetPlaceId(b: BrowserOutcome): (r: Option<string>)
    ensures b.NoMoreviewLink? || b.BrowserFailed? ==> r.None?
    ensures b.MoreviewLink? ==> r == PlaceIdFromHref(b.href)
  {
    match b
    case MoreviewLink(href) => PlaceIdFromHref(href)
    case _ => None
  }

  lemma CharContained(s: string, c: char)
    requires c in s
    ensures Contains(s, [c])
  {
    var k :| 0 <= k < |s| && s[k] == c;
    assert s[k..k + 1] == [c];
    ContainsAt(s, [c], k);
  }

  /**
   * The extracted id is the text after the last `placeId=` up to, not including, the first
   * `&` that follows; so it never contains `&`.
   */
  lemma PlaceIdIsAfterLastKey(href: string)
    requires Contains(href, PlaceIdKey)
    ensures var id := PlaceIdFromHref(href).value;
      '&' !in id
      && exists i :: OccursAt(href, PlaceIdKey, i)
           && !Contains(href[i + |PlaceIdKey|..], PlaceIdKey)
           && (id == href[i + |PlaceIdKey|..] || IsPrefix(id + "&", href[i + |PlaceIdKey|..]))
  {
    var pieces := SplitOn(href, PlaceIdKey);
    var n := |pieces|;
    var last := pieces[n - 1];
    var id := PlaceIdFromHref(href).value;
    var parts := SplitOn(last, "&");
    assert id == parts[0];
    // no '&' in the id
    PiecesLackSeparator(last, "&");
    if '&' in id {
      CharContained(id, '&');
    }
    // the last piece follows the last occurrence
    SplitCountIff(href, PlaceIdKey);
    JoinSplit(href, PlaceIdKey);
    JoinLast(pieces, PlaceIdKey);
    var front := Join(pieces[..n - 1], PlaceIdKey);
    var i := |front|;
    assert href == front + PlaceIdKey + last;
    assert href[i..i + |PlaceIdKey|] == PlaceIdKey;
    assert href[i + |PlaceIdKey|..] == last;
    PiecesLackSeparator(href, PlaceIdKey);
    // the id stops at the first '&'
    JoinSplit(last, "&");
    SplitCountIff(last, "&");
    if |parts| >= 2 {
      assert last == parts[0] + "&" + Join(parts[1..], "&");
      assert (id + "&") == last[..|id| + 1];
    }
    assert OccursAt(href, PlaceIdKey, i);
  }

  // ---------------------------------------------------------------- get_place_image_url

  /** `data['basicInfo']`: whether it has a `mainphotourl` key, and its value (`None` for JSON null). */
  datatype BasicInfo = BasicInfo(hasMainphotourl: bool, mainphotourl: Option<string>)

  datatype Detail = Detail(basicInfo: Option<BasicInfo>)

  /** The HTTP step: a failed request, or a status and a body that may not parse as JSON. */
  datatype HttpOutcome = RequestFailed | HttpResponse(status: int, body: Option<Detail>)

  /** `get_place_image_url` after the request: the photo URL only for status 200 with both keys present. */
  function GetPlaceImageUrl(h: HttpOutcome): (r: Option<string>)
    ensures r.Some? <==>
      h.HttpResponse? && h.status == 200 && h.body.Some? && h.body.value.basicInfo.Some?
      && h.body.value.basicInfo.value.hasMainphotourl && h.body.value.basicInfo.value.mainphotourl.Some?
    ensures r.Some? ==> r == h.body.value.basicInfo.value.mainphotourl
  {
    match h
    case RequestFailed => None
    case HttpResponse(status, body) =>
      if status != 200 then None
      else if body.None? then None
      else match body.value.basicInfo
        case None => None
        case Some(info) => if info.hasMainphotourl then info.mainphotourl else None
  }

  // ---------------------------------------------------------------- fetch_kakao_place_image

  /** The JSON body of `/image`; `error` is `None` where the dictionary has no `error` key. */
  datatype ImageResponse = ImageResponse(
    keyword: string,
    placeId: Option<string>,
    imageUrl: Option<string>,
    error: Option<string>,
    success: bool)

  const NoPlaceIdError := "장소 ID를 찾을 수 없습니다."
  const NoImageError := "업체 이미지를 찾을 수 없습니다."
  const ServerErrorPrefix := "서버 오류: "

  /** Python truthiness of an optional string. */
  predicate Present(o: Option<string>)
  {
    o.Some? && o.value != ""
  }

  /**
   * `fetch_kakao_place_image` with the browser observation for `keyword` and the HTTP
   * outcome for each place id as inputs.
   */
  function FetchKakaoPlaceImage(keyword: string, browser: BrowserOutcome, lookup: string -> HttpOutcome)
    : (r: ImageResponse)
    ensures r.keyword == keyword
    ensures r.success <==> Present(GetPlaceId(browser)) && Present(GetPlaceImageUrl(lookup(GetPlaceId(browser).value)))
    ensures r.success <==> r.error.None?
    ensures !Present(GetPlaceId(browser)) ==>
      r == ImageResponse(keyword, None, None, Some(NoPlaceIdError), false)
    ensures Present(GetPlaceId(browser)) && !r.success ==>
      r == ImageResponse(keyword, GetPlaceId(browser), None, Some(NoImageError), false)
    ensures r.success ==> Present(r.placeId) && Present(r.imageUrl)
    ensures r.success ==>
      r == ImageResponse(keyword, GetPlaceId(browser), GetPlaceImageUrl(lookup(GetPlaceId(browser).value)), None, true)
  {
    var placeId := GetPlaceId(browser);
    if !Present(placeId) then
      ImageResponse(keyword, None, None, Some(NoPlaceIdError), false)
    else
      var imageUrl := GetPlaceImageUrl(lookup(placeId.value));
      if !Present(imageUrl) then
        ImageResponse(keyword, placeId, None, Some(NoImageError), false)
      else
        ImageResponse(keyword, placeId, imageUrl, None, true)
  }

  /** Without a place id the image step is never consulted: any lookup gives the same answer. */
  lemma NoPlaceIdIgnoresLookup(keyword: string, browser: BrowserOutcome, l1: string -> HttpOutcome, l2: string -> HttpOutcome)
    requires !Present(GetPlaceId(browser))
    ensures FetchKakaoPlaceImage(keyword, browser, l1) == FetchKakaoPlaceImage(keyword, browser, l2)
  {
  }

  /** The `except` branch of `fetch_kakao_place_image`, given the text of the exception. */
  function ServerErrorResponse(keyword: string, exceptionText: string): (r: ImageResponse)
    ensures r.keyword == keyword && r.placeId.None? && r.imageUrl.None? && !r.success
    ensures r.error.Some? && IsPrefix(ServerErrorPrefix, r.error.value)
    ensures r.error.value[|ServerErrorPrefix|..] == exceptionText
  {
    ImageResponse(keyword, None, None, Some(ServerErrorPrefix + exceptionText), false)
  }

  // ---------------------------------------------------------------- health_check

  datatype Health = Health(status: string, timestamp: real)

  /** `health_check`, with the clock reading as input. */
  function HealthCheck(now: real): (r: Health)
    ensures r.status == "healthy" && r.timestamp == now
  {
    Health("healthy", now)
  }
}
