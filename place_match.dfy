/**
 * The Vercel function that matches a store against Google Places text-search results:
 * text normalisation, the weighted match score, the best-candidate loop, the 0.7
 * confidence threshold and the order of the request guards.
 */
module PlaceMatch {
  import opened Wrappers
  import opened Js
  import opened Text
  import opened Seqs
  import Geo

  // ---------------------------------------------------------------- normalizeText

  /** The characters `/[^\w\s가-힣]/g` keeps. */
  predicate Kept(c: char)
  {
    IsWordChar(c) || IsSpace(c) || IsHangul(c)
  }

  predicate NoDoubleSpace(s: string)
  {
    forall k :: 0 <= k < |s| - 1 ==> !(s[k] == ' ' && s[k + 1] == ' ')
  }

  /** `s.replace(/\s+/g, ' ')`: every maximal run of white space becomes one space. */
  function CollapseSpaces(s: string): (r: string)
    ensures forall k :: 0 <= k < |r| ==> r[k] == ' ' || (!IsSpace(r[k]) && r[k] in s)
    ensures NoDoubleSpace(r)
    ensures |s| > 0 ==> |r| > 0 && (r[0] == ' ' <==> IsSpace(s[0]))
    decreases |s|
  {
    if s == [] then []
    else if IsSpace(s[0]) then
      var t := s[LeadCount(s)..];
      var rest := CollapseSpaces(t);
      assert forall c :: c in t ==> c in s;
      " " + rest
    else [s[0]] + CollapseSpaces(s[1..])
  }


  /** The characters a normalised text can hold. */
  predicate NormalChar(c: char)
  {
    'a' <= c <= 'z' || '0' <= c <= '9' || c == '_' || c == ' ' || IsHangul(c)
  }

  predicate AllNormal(s: string)
  {
    forall k :: 0 <= k < |s| ==> NormalChar(s[k])
  }

  predicate SpaceOrNormal(s: string)
  {
    forall k :: 0 <= k < |s| ==> (IsSpace(s[k]) || NormalChar(s[k]))
  }

  /** What `normalizeText` promises of its output. */
  predicate IsNormalized(r: string)
  {
    AllNormal(r) && NoDoubleSpace(r) && (r == [] || (r[0] != ' ' && r[|r| - 1] != ' '))
  }

  /** After dropping symbols from lower-cased text, every non-space character is a normal one. */
  lemma KeptChars(s: string)
    ensures SpaceOrNormal(Filter(Kept, ToLower(s)))
  {
    var lower := ToLower(s);
    var kept := Filter(Kept, lower);
    ToLowerLower(s);
    forall k | 0 <= k < |kept|
      ensures IsSpace(kept[k]) || NormalChar(kept[k])
    {
      FilterMembership(Kept, lower, kept[k]);
    }
  }

  /** After collapsing, every character is a normal one. */
  lemma CollapsedChars(s: string)
    requires SpaceOrNormal(s)
    ensures AllNormal(CollapseSpaces(s))
  {
    var c := CollapseSpaces(s);
    forall k | 0 <= k < |c|
      ensures NormalChar(c[k])
    {
      if c[k] != ' ' {
        var m :| 0 <= m < |s| && s[m] == c[k];
      }
    }
  }

  lemma SliceNormal(c: string, i: int, j: int)
    requires 0 <= i <= j <= |c|
    requires AllNormal(c) && NoDoubleSpace(c)
    ensures AllNormal(c[i..j]) && NoDoubleSpace(c[i..j])
  {
    var r := c[i..j];
    assert forall k :: 0 <= k < |r| ==> r[k] == c[i + k];
  }

  /** Lower-casing, dropping symbols, collapsing and trimming leaves a normalised text. */
  lemma NormalizedSteps(s: string)
    ensures IsNormalized(Trim(CollapseSpaces(Filter(Kept, ToLower(s)))))
    ensures IsLower(Trim(CollapseSpaces(Filter(Kept, ToLower(s)))))
  {
    var kept := Filter(Kept, ToLower(s));
    var c := CollapseSpaces(kept);
    KeptChars(s);
    CollapsedChars(kept);
    var r := Trim(c);
    TrimShape(c);
    var i, j :| 0 <= i <= j <= |c| && r == c[i..j];
    SliceNormal(c, i, j);
  }

  /**
   * `normalizeText`: lower-case, drop symbols, collapse white space, trim. The result holds
   * only lower-case word characters, Hangul syllables and plain spaces; no two spaces are
   * adjacent and none starts or ends it.
   */
  function NormalizeText(s: string): (r: string)
    ensures IsNormalized(r) && IsLower(r)
  {
    NormalizedSteps(s);
    Trim(CollapseSpaces(Filter(Kept, ToLower(s))))
  }

  /** Collapsing changes nothing once every space is a single plain space. */
  lemma {:induction false} CollapseFixed(s: string)
    requires forall k :: 0 <= k < |s| ==> (IsSpace(s[k]) ==> s[k] == ' ')
    requires NoDoubleSpace(s)
    ensures CollapseSpaces(s) == s
    decreases |s|
  {
    if s != [] {
      var t := s[1..];
      assert forall k :: 0 <= k < |t| ==> t[k] == s[k + 1];
      CollapseFixed(t);
      if IsSpace(s[0]) {
        if |s| > 1 {
          assert !IsSpace(t[0]);
        }
        assert LeadCount(t) == 0;
        assert LeadCount(s) == 1;
      }
      assert [s[0]] + t == s;
    }
  }

  /** Normalising a normalised text gives it back. */
  lemma NormalizeTextIdempotent(s: string)
    ensures NormalizeText(NormalizeText(s)) == NormalizeText(s)
  {
    var n := NormalizeText(s);
    LowerFixed(n);
    FilterAll(Kept, n);
    CollapseFixed(n);
    TrimNoop(n);
  }

  // ---------------------------------------------------------------- calculateMatchScore

  /** The query parameters the handler builds the store from. */
  datatype Store = Store(name: Field, address: Field, phone: Field, lat: Field, lng: Field)

  /** The fields of a text-search result that the matcher reads. */
  datatype Candidate = Candidate(
    placeId: Field,
    name: Field,
    phone: Field,          // formatted_phone_number
    address: Field,        // formatted_address
    location: Option<Geo.LatLng>,
    rating: Option<real>)

  /** Name weight: 0.5 for equal normalised names, 0.3 when one contains the other. */
  function NameScore(store: Store, c: Candidate): (r: real)
    ensures r == 0.0 || r == 0.3 || r == 0.5
    ensures r == 0.5 <==> Truthy(store.name) && Truthy(c.name) && NormalizeText(store.name.s) == NormalizeText(c.name.s)
    ensures r > 0.0 <==> (Truthy(store.name) && Truthy(c.name)
      && (Contains(NormalizeText(c.name.s), NormalizeText(store.name.s))
          || Contains(NormalizeText(store.name.s), NormalizeText(c.name.s))))
  {
    if Truthy(store.name) && Truthy(c.name) then
      var sn := NormalizeText(store.name.s);
      var cn := NormalizeText(c.name.s);
      if sn == cn then
        assert IsPrefix(sn, cn);
        0.5
      else if Contains(cn, sn) || Contains(sn, cn) then 0.3
      else 0.0
    else 0.0
  }

  /** `s.replace(/[^\d]/g, '')` */
  function DigitsOf(s: string): (r: string)
    ensures forall k :: 0 <= k < |r| ==> IsDigit(r[k])
  {
    Filter(IsDigit, s)
  }

  /** Phone weight: 0.3 exactly when both phones are present with the same digits. */
  function PhoneScore(store: Store, c: Candidate): (r: real)
    ensures r == 0.0 || r == 0.3
    ensures r == 0.3 <==> Truthy(store.phone) && Truthy(c.phone) && DigitsOf(store.phone.s) == DigitsOf(c.phone.s)
  {
    if Truthy(store.phone) && Truthy(c.phone) && DigitsOf(store.phone.s) == DigitsOf(c.phone.s) then 0.3 else 0.0
  }

  /** A store-address token overlaps some candidate token (`cToken.includes(token) || token.includes(cToken)`). */
  predicate SharedToken(candidateTokens: seq<string>, token: string)
  {
    exists ct :: ct in candidateTokens && (Contains(ct, token) || Contains(token, ct))
  }

  function AddressTokens(address: string): (r: seq<string>)
    ensures |r| >= 1
  {
    SplitOn(NormalizeText(address), " ")
  }

  /** The store-address tokens that overlap a candidate token, in order. */
  function CommonTokens(storeAddress: string, candidateAddress: string): (r: seq<string>)
    ensures |r| <= |AddressTokens(storeAddress)|
  {
    var candidateTokens := AddressTokens(candidateAddress);
    Filter(t => SharedToken(candidateTokens, t), AddressTokens(storeAddress))
  }

  /** `0.2 * (common / total)` with `common` out of `total` tokens shared. */
  function TokenShare(common: nat, total: nat): (r: real)
    requires 0 < total && common <= total
    ensures 0.0 <= r <= 0.2
    ensures r > 0.0 <==> common > 0
    ensures common == total ==> r == 0.2
  {
    var q := (common as real) / (total as real);
    assert q * (total as real) == common as real;
    0.2 * q
  }

  /** Address weight: 0.2 times the share of store tokens that overlap a candidate token. */
  function AddressScore(store: Store, c: Candidate): (r: real)
    ensures 0.0 <= r <= 0.2
    ensures r > 0.0 <==> Truthy(store.address) && Truthy(c.address) && |CommonTokens(store.address.s, c.address.s)| > 0
  {
    if Truthy(store.address) && Truthy(c.address) then
      var common := |CommonTokens(store.address.s, c.address.s)|;
      if common > 0 then TokenShare(common, |AddressTokens(store.address.s)|) else 0.0
    else 0.0
  }

  /** Every store token shared gives the full address weight. */
  lemma AllTokensSharedScoresFull(store: Store, c: Candidate)
    requires Truthy(store.address) && Truthy(c.address)
    requires var ct := AddressTokens(c.address.s);
      forall t :: t in AddressTokens(store.address.s) ==> SharedToken(ct, t)
    ensures AddressScore(store, c) == 0.2
  {
    var ct := AddressTokens(c.address.s);
    var st := AddressTokens(store.address.s);
    FilterAll(t => SharedToken(ct, t), st);
    assert CommonTokens(store.address.s, c.address.s) == st;
  }

  /**
   * Distance weight: 0.2 when the store has coordinates, the candidate a location, and the
   * distance between them is at most 300 m. `distance` is the distance from the store's
   * position to a location.
   */
  function DistanceScore(store: Store, c: Candidate, distance: Geo.LatLng -> real): (r: real)
    ensures r == 0.0 || r == 0.2
    ensures r == 0.2 <==> Truthy(store.lat) && Truthy(store.lng) && c.location.Some? && distance(c.location.value) <= 300.0
  {
    if Truthy(store.lat) && Truthy(store.lng) && c.location.Some? && distance(c.location.value) <= 300.0 then 0.2 else 0.0
  }

  /** `calculateMatchScore`: the four weights added up, so a score lies between 0 and 1.2. */
  function MatchScore(store: Store, c: Candidate, distance: Geo.LatLng -> real): (r: real)
    ensures 0.0 <= r <= 1.2
  {
    NameScore(store, c) + PhoneScore(store, c) + AddressScore(store, c) + DistanceScore(store, c, distance)
  }

  /** No weight exceeds 0.5, so a score of 0.7 needs at least two of them. */
  lemma PassingNeedsTwoComponents(store: Store, c: Candidate, distance: Geo.LatLng -> real)
    requires MatchScore(store, c, distance) >= 0.7
    ensures var ws := [NameScore(store, c), PhoneScore(store, c), AddressScore(store, c), DistanceScore(store, c, distance)];
      exists i, j :: 0 <= i < j < 4 && ws[i] > 0.0 && ws[j] > 0.0
  {
    var ws := [NameScore(store, c), PhoneScore(store, c), AddressScore(store, c), DistanceScore(store, c, distance)];
    if ws[0] > 0.0 {
      if ws[1] > 0.0 { assert ws[0] > 0.0 && ws[1] > 0.0; }
      else if ws[2] > 0.0 { assert ws[0] > 0.0 && ws[2] > 0.0; }
      else { assert ws[3] > 0.0; }
    } else if ws[1] > 0.0 {
      if ws[2] > 0.0 { assert ws[1] > 0.0 && ws[2] > 0.0; }
      else { assert false; }
    } else {
      assert false;
    }
  }

  // ---------------------------------------------------------------- best-candidate loop

  /** The `for` loop over the first `n` results as a function: the kept index and score. */
  function BestOf(candidates: seq<Candidate>, n: nat, score: Candidate -> real): (r: (Option<nat>, real))
    requires n <= |candidates|
    ensures r.0.None? ==> r.1 == 0.0
    ensures r.0.Some? ==> r.0.value < n && score(candidates[r.0.value]) == r.1
    decreases n
  {
    if n == 0 then (None, 0.0)
    else
      var prev := BestOf(candidates, n - 1, score);
      var s := score(candidates[n - 1]);
      if s > prev.1 then (Some(n - 1), s) else prev
  }

  /** The scoring the handler applies to each candidate. */
  function Scorer(store: Store, distance: Geo.LatLng -> real): Candidate -> real
  {
    c => MatchScore(store, c, distance)
  }

  /**
   * The `for` loop over the results, for any scoring: `bestScore` starts at 0 and is
   * replaced only by a strictly larger score, so the earliest maximal candidate wins and
   * none wins when no score is positive. `BestOf` is the same loop as a function.
   */
  method BestMatch(candidates: seq<Candidate>, score: Candidate -> real)
    returns (best: Option<nat>, bestScore: real)
    ensures (best, bestScore) == BestOf(candidates, |candidates|, score)
    ensures bestScore >= 0.0
    ensures forall j :: 0 <= j < |candidates| ==> score(candidates[j]) <= bestScore
    ensures best.None? ==> bestScore == 0.0
    ensures best.None? <==> forall j :: 0 <= j < |candidates| ==> score(candidates[j]) <= 0.0
    ensures best.Some? ==> best.value < |candidates| && score(candidates[best.value]) == bestScore
    ensures best.Some? ==> forall j :: 0 <= j < best.value ==> score(candidates[j]) < bestScore
  {
    best := None;
    bestScore := 0.0;
    var i := 0;
    while i < |candidates|
      invariant 0 <= i <= |candidates|
      invariant (best, bestScore) == BestOf(candidates, i, score)
      invariant bestScore >= 0.0
      invariant forall j :: 0 <= j < i ==> score(candidates[j]) <= bestScore
      invariant best.None? ==> bestScore == 0.0
      invariant best.Some? ==> best.value < i && score(candidates[best.value]) == bestScore
      invariant best.Some? ==> bestScore > 0.0
      invariant best.Some? ==> forall j :: 0 <= j < best.value ==> score(candidates[j]) < bestScore
    {
      var s := score(candidates[i]);
      if s > bestScore {
        bestScore := s;
        best := Some(i);
      }
      i := i + 1;
    }
  }

  // ---------------------------------------------------------------- handler

  const GoogleMaps := "https://maps.googleapis.com"
  const TextSearchPath := "/maps/api/place/textsearch/json"
  const TextSearch := GoogleMaps + TextSearchPath
  const QueryField := "?query="
  const KeyField := "&key="
  const RegionLanguage := "&region=KR&language=ko"

  /** `[name, address].join(' ')`, with the address only when it is truthy. */
  function SearchQuery(name: string, address: Field): (r: string)
    ensures Truthy(address) ==> r == name + " " + address.s
    ensures !Truthy(address) ==> r == name
  {
    if Truthy(address) then name + " " + address.s else name
  }

  /** The `location` part of the search URL, present only when both coordinates are truthy. */
  function LocationPart(lat: Field, lng: Field): (r: string)
    ensures Truthy(lat) && Truthy(lng) ==> r == "&location=" + lat.s + "," + lng.s + "&radius=1000"
    ensures !(Truthy(lat) && Truthy(lng)) ==> r == ""
  {
    if Truthy(lat) && Truthy(lng) then "&location=" + lat.s + "," + lng.s + "&radius=1000" else ""
  }

  /** The URL up to the end of the encoded query. */
  function QueryPart(store: Store): string
    requires Truthy(store.name)
  {
    TextSearch + QueryField + Encode(SearchQuery(store.name.s, store.address))
  }

  /** The parameters after the query; they always start with `&`. */
  function TrailingParams(store: Store, key: string): (r: string)
    ensures |r| > 0 && r[0] == '&'
  {
    LocationPart(store.lat, store.lng) + KeyField + key + RegionLanguage
  }

  /** The text-search URL the handler fetches: the endpoint and query first. */
  function SearchUrl(store: Store, key: string): (r: string)
    requires Truthy(store.name)
    ensures IsPrefix(TextSearch + QueryField, r)
  {
    QueryPart(store) + TrailingParams(store, key)
  }

  /** The URL ends with the key, region and language parameters. */
  lemma SearchUrlEnds(store: Store, key: string)
    requires Truthy(store.name)
    ensures var r, tail := SearchUrl(store, key), KeyField + key + RegionLanguage;
      |tail| <= |r| && r[|r| - |tail|..] == tail
  {
    var head := QueryPart(store) + LocationPart(store.lat, store.lng);
    var tail := KeyField + key + RegionLanguage;
    assert SearchUrl(store, key) == head + tail;
    assert (head + tail)[|head|..] == tail;
  }

  lemma UrlConstantsLackAmpersand()
    ensures '&' !in TextSearch && '&' !in QueryField
  {
    assert '&' !in GoogleMaps;
    assert '&' !in TextSearchPath;
  }

  /** The encoded query cannot run into the next parameter: the URL's first `&` ends it. */
  lemma SearchUrlQuery(store: Store, key: string)
    requires Truthy(store.name)
    ensures SplitOn(SearchUrl(store, key), "&")[0] == TextSearch + QueryField + Encode(SearchQuery(store.name.s, store.address))
  {
    var head := QueryPart(store);
    EncodeHasNoDelimiter(SearchQuery(store.name.s, store.address));
    UrlConstantsLackAmpersand();
    assert '&' !in head;
    var tail := TrailingParams(store, key);
    assert tail == "&" + tail[1..];
    assert SearchUrl(store, key) == head + "&" + tail[1..];
    SplitPrefixPiece(head, '&', tail[1..]);
  }

  /** What fetching and parsing the search URL gave. */
  datatype SearchOutcome =
    | SearchFailed(message: string)          // network or JSON failure
    | SearchNotOk(httpStatus: int)           // `searchResponse.ok` is false
    | SearchData(status: Field, results: Option<seq<Candidate>>)

  datatype Body =
    | NoBody
    | ErrorBody(error: string)
    | ErrorMessage(error: string, message: string)
    | LowConfidence(message: string, confidence: real)
    | Matched(placeId: Field, confidence: real, name: Field, address: Field, phone: Field,
              rating: Option<real>, matchedAt: string)

  datatype Reply = Reply(status: int, body: Body)

  const NoMatchMessage := "Google Places에서 해당 업체를 찾을 수 없습니다"
  const LowConfidencePrefix := "매칭 신뢰도가 낮습니다 ("

  /**
   * The `message` of the LOW_CONFIDENCE reply: the best score written by `toFixed(2)`
   * (the parameter `fixed2`) inside the fixed sentence and a closing parenthesis.
   */
  function LowConfidenceMessage(score: real, fixed2: real -> string): (m: string)
    ensures IsPrefix(LowConfidencePrefix, m) && m[|m| - 1] == ')'
    ensures m[|LowConfidencePrefix|..|m| - 1] == fixed2(score)
  {
    LowConfidencePrefix + fixed2(score) + ")"
  }

  /** The request's method and query, the configured key, and what a search for a URL returns. */
  datatype Request = Request(httpMethod: string, store: Store)

  /**
   * `handler`: the guards in order (OPTIONS, method, name, key), then the search, then
   * the best candidate against the 0.7 threshold. `fixed2` stands for `toFixed(2)` and `now` is
   * the ISO time of the match.
   */
  method Handle(req: Request, googleKey: Field, search: string -> SearchOutcome,
                distance: Geo.LatLng -> real, fixed2: real -> string, now: string)
    returns (r: Reply)
    ensures req.httpMethod == "OPTIONS" ==> r == Reply(200, NoBody)
    ensures req.httpMethod != "OPTIONS" && req.httpMethod != "GET" ==> r == Reply(405, ErrorBody("Method not allowed"))
    ensures req.httpMethod == "GET" && !Truthy(req.store.name) ==> r == Reply(400, ErrorBody("Name is required"))
    ensures req.httpMethod == "GET" && Truthy(req.store.name) && !Truthy(googleKey) ==>
      r == Reply(500, ErrorBody("Google Maps API key not configured"))
    ensures req.httpMethod == "GET" && Truthy(req.store.name) && Truthy(googleKey) ==>
      var outcome := search(SearchUrl(req.store, googleKey.s));
      (outcome.SearchFailed? ==> r == Reply(500, ErrorMessage("INTERNAL_ERROR", outcome.message)))
      && (outcome.SearchNotOk? ==>
            r == Reply(500, ErrorMessage("INTERNAL_ERROR", "Google Places API failed: " + IntStr(outcome.httpStatus))))
      && (outcome.SearchData? && (outcome.status != Str("OK") || outcome.results.None? || outcome.results.value == []) ==>
            r == Reply(404, ErrorMessage("NO_MATCH", NoMatchMessage)))
      && (outcome.SearchData? && outcome.status == Str("OK") && outcome.results.Some? && outcome.results.value != [] ==>
            var cs := outcome.results.value;
            (r.body.LowConfidence? <==> forall j :: 0 <= j < |cs| ==> MatchScore(req.store, cs[j], distance) < 0.7)
            && (r.body.LowConfidence? ==> r.status == 404)
            && (!r.body.LowConfidence? ==> r.status == 200 && r.body.Matched?)
            && var (best, score) := BestOf(cs, |cs|, Scorer(req.store, distance));
            (score < 0.7 ==> r == Reply(404, LowConfidence(LowConfidenceMessage(score, fixed2), score)))
            && (score >= 0.7 ==> best.Some? && r == Reply(200,
                  Matched(cs[best.value].placeId, score, cs[best.value].name, cs[best.value].address,
                          cs[best.value].phone, cs[best.value].rating, now))))
    ensures r.body.Matched? ==>
      var cs := search(SearchUrl(req.store, googleKey.s)).results.value;
      r.body.confidence >= 0.7
      && (exists i :: 0 <= i < |cs| && cs[i].placeId == r.body.placeId && MatchScore(req.store, cs[i], distance) == r.body.confidence)
      && (forall j :: 0 <= j < |cs| ==> MatchScore(req.store, cs[j], distance) <= r.body.confidence)
  {
    if req.httpMethod == "OPTIONS" {
      return Reply(200, NoBody);
    }
    if req.httpMethod != "GET" {
      return Reply(405, ErrorBody("Method not allowed"));
    }
    if !Truthy(req.store.name) {
      return Reply(400, ErrorBody("Name is required"));
    }
    if !Truthy(googleKey) {
      return Reply(500, ErrorBody("Google Maps API key not configured"));
    }
    var outcome := search(SearchUrl(req.store, googleKey.s));
    match outcome {
      case SearchFailed(message) =>
        return Reply(500, ErrorMessage("INTERNAL_ERROR", message));
      case SearchNotOk(httpStatus) =>
        return Reply(500, ErrorMessage("INTERNAL_ERROR", "Google Places API failed: " + IntStr(httpStatus)));
      case SearchData(status, results) =>
        if status != Str("OK") || results.None? || results.value == [] {
          return Reply(404, ErrorMessage("NO_MATCH", NoMatchMessage));
        }
        var cs := results.value;
        var best, bestScore := BestMatch(cs, Scorer(req.store, distance));
        if bestScore < 0.7 {
          return Reply(404, LowConfidence(LowConfidenceMessage(bestScore, fixed2), bestScore));
        }
        var m := cs[best.value];
        r := Reply(200, Matched(m.placeId, bestScore, m.name, m.address, m.phone, m.rating, now));
    }
  }
}
