# ssgot-beta, modelled in Dafny

ssgot-beta is a store finder for Gyeonggi-do built on Kakao Maps. A visitor picks a 시·군 (city or county) on a region map and gets the map screen for it. That screen shows the stores from the Gyeonggi open-data API, filtered by name, category and viewport, and offers Kakao directions and store photos. The system has five parts:

- a FastAPI scraper that finds a Kakao place id and its main photo (`kakao_image_api.py`);
- two Vercel functions, one matching a store against Google Places results (`api/places/match.ts`) and one proxying Google place photos (`api/places/photo-proxy.ts`);
- the TopoJSON helper libraries (`lib/geo/topo.ts`, `lib/geo/topo.js`);
- the React hooks and components: the store pipeline, the map screen, the marker layer, the two region pickers, the store card and the place detail view;
- Node scripts that generate sample geodata and SVG region maps.

Each core source file is one Dafny module. Five shared modules support them:

- `Wrappers` holds `Option` and a JavaScript-style outcome.
- `Js` models a property that may be `undefined`, `null` or a string, and JavaScript truthiness.
- `Text` models `includes`, `split`, `join`, `trim`, ASCII `toLowerCase`, `encodeURIComponent` and number-to-string.
- `Seqs` models `Array.prototype.filter`.
- `Geo` models positions, rings, geometries and bounding boxes.

Pure source code is modelled as functions over datatypes. Code that updates local variables in a loop becomes a method with loop invariants, proved against a specification function. Components and hooks with state become classes whose fields are that state, with one method per handler. Those are the store hook, the map screen, the marker layer, the Naver-style picker, the Gyeonggi picker, the photo loader and `URLSearchParams`.

In the image scraper (kakao_image_api.py:127-156), `success` is true only when both the place id and the image URL are non-empty: an empty id or an empty URL counts as missing. Heuristics are modelled as the code applies them, for example the first-match category classifier, the inclusive viewport filter and the 0.001 move threshold. Constant tables (category keywords, the 42- and 43-entry region tables, the 31 cities and their zones) are copied from the code.

## Model

| member | source | states |
|---|---|---|
| Js.Or | src/hooks/useStores.js:162-172 | logical or gives a when a is truthy and b otherwise, and is truthy exactly when one of them is |
| Js.Show | src/hooks/useStores.js:170 | a template interpolation writes a string as it is, undefined as `undefined` and null as `null` |
| Js.TextOr | src/hooks/useStores.js:162-172 | logical or with the empty text gives x when truthy and the empty text otherwise |
| Geo.HullCovers | lib/geo/topo.ts:141-161 | the running minimum and maximum of a non-empty run of points contain every point |
| Geo.HullTight | lib/geo/topo.ts:141-161 | each side of that box is attained by some point |
| Geo.HullOrdered | lib/geo/topo.ts:141-161 | the minimum never exceeds the maximum on either axis |
| Geo.NonEmptyHasPoints | lib/geo/topo.ts:151-157 | coordinates without an empty array hold at least one position |
| Geo.BoundsCover | lib/geo/topo.ts:139-161 | finite bounds contain every position of the geometry, and each of the four sides (min and max x, min and max y) is reached by some position |
| Geo.BoundsFiniteIff | lib/geo/topo.ts:141-161 | the walk leaves infinite bounds exactly when the coordinates hold an empty array |
| KakaoImageApi.PlaceIdFromHref | kakao_image_api.py:56-63 | an id is extracted exactly when the link contains `placeId=` |
| KakaoImageApi.GetPlaceId | kakao_image_api.py:27-71 | a missing `a.moreview` link or a failed browser step gives no id; otherwise the id is the one read from the link's `href` |
| KakaoImageApi.PlaceIdIsAfterLastKey | kakao_image_api.py:57-58 | the id never contains `&`; it starts right after the last `placeId=` and is either the rest of the link or the text before the first `&` after it |
| KakaoImageApi.GetPlaceImageUrl | kakao_image_api.py:78-107 | a URL comes back exactly for status 200 with a JSON body holding `basicInfo.mainphotourl`, and it is that value |
| KakaoImageApi.FetchKakaoPlaceImage | kakao_image_api.py:121-156 | `success` holds exactly when both the id and the image are non-empty, and exactly when there is no `error`; on success the reply carries the id the browser step found and the image URL the lookup gave for that id; no id gives null id and image with the place-id error; an id without an image keeps the id with the image error |
| KakaoImageApi.NoPlaceIdIgnoresLookup | kakao_image_api.py:127-136 | without a place id the image request is never consulted: any lookup gives the same response |
| KakaoImageApi.ServerErrorResponse | kakao_image_api.py:158-166 | the exception response keeps the keyword, has null id and image, fails, and its error is the `서버 오류: ` prefix followed by the exception text |
| KakaoImageApi.HealthCheck | kakao_image_api.py:168-171 | the status is `healthy` and the timestamp is the clock reading |
| PlaceMatch.CollapseSpaces | api/places/match.ts:11 | every run of whitespace becomes one space: no two spaces in a row, no other whitespace left, every other character taken from the input, and the result starts with a space exactly when the input starts with whitespace |
| PlaceMatch.KeptChars | api/places/match.ts:9-10 | after lowering and dropping everything but word characters, whitespace and Hangul syllables, each character is whitespace or such a normal character |
| PlaceMatch.CollapsedChars | api/places/match.ts:10-11 | collapsing whitespace in such a text leaves only single spaces and normal characters |
| PlaceMatch.SliceNormal | api/places/match.ts:12 | the trimmed slice of a collapsed text still has only normal characters and no double space |
| PlaceMatch.NormalizeText | api/places/match.ts:7-13 | a normalised text is lower-case, made of normal characters and single inner spaces, with no space at either end |
| PlaceMatch.CollapseFixed | api/places/match.ts:11 | a text whose only whitespace is single spaces is unchanged by the collapse |
| PlaceMatch.NormalizeTextIdempotent | api/places/match.ts:7-13 | normalising twice is normalising once |
| PlaceMatch.NameScore | api/places/match.ts:19-29 | the name weight is 0, 0.3 or 0.5; 0.5 exactly when both names are present and normalise equal; positive exactly when one normalised name contains the other |
| PlaceMatch.DigitsOf | api/places/match.ts:33-34 | stripping non-digits leaves only digits |
| PlaceMatch.PhoneScore | api/places/match.ts:31-39 | the phone weight is 0 or 0.3, and 0.3 exactly when both phones are present and have the same digits |
| PlaceMatch.AddressTokens | api/places/match.ts:47-48 | splitting an address on spaces gives at least one token |
| PlaceMatch.CommonTokens | api/places/match.ts:49-51 | the shared tokens are at most the store's tokens |
| PlaceMatch.TokenShare | api/places/match.ts:53-55 | the address weight lies in [0, 0.2], is positive exactly when some token is shared, and is 0.2 when all are |
| PlaceMatch.AddressScore | api/places/match.ts:41-56 | the address weight lies in [0, 0.2] and is positive exactly when both addresses are present and share a token |
| PlaceMatch.AllTokensSharedScoresFull | api/places/match.ts:49-55 | when every token of the store address is shared, the address weight is the full 0.2 |
| PlaceMatch.DistanceScore | api/places/match.ts:58-70 | the distance bonus is 0 or 0.2, and 0.2 exactly when both store coordinates and a candidate location are present and within 300 m |
| PlaceMatch.MatchScore | api/places/match.ts:16-73 | a match score, the sum of the four weights, lies between 0 and 1.2 |
| PlaceMatch.PassingNeedsTwoComponents | api/places/match.ts:157-158 | a score at the 0.7 threshold needs at least two of the four components to contribute |
| PlaceMatch.BestMatch | api/places/match.ts:144-155 | the best score is at least every candidate's score and is never negative; there is no best exactly when no candidate scores above 0; otherwise the best is the first candidate reaching the maximum; the pair is what `BestOf`, the loop as a left-to-right function, keeps |
| PlaceMatch.SearchQuery | api/places/match.ts:117-120 | the query is the name, followed by a space and the address when one is given |
| PlaceMatch.LocationPart | api/places/match.ts:121 | the location parameters appear exactly when both coordinates are given, with a radius of 1000 |
| PlaceMatch.TrailingParams | api/places/match.ts:121-123 | everything after the query starts with `&` |
| PlaceMatch.UrlConstantsLackAmpersand | api/places/match.ts:4 | the endpoint and the `?query=` prefix contain no `&` |
| PlaceMatch.SearchUrlQuery | api/places/match.ts:123 | the part of the request URL before the first `&` is the endpoint, `?query=` and the encoded query |
| PlaceMatch.Handle | api/places/match.ts:91-185 | OPTIONS answers 200; other methods but GET answer 405; a missing name 400 before a missing key 500; a failed or non-OK request is 500 with its message; no results 404 `NO_MATCH`; low confidence 404 exactly when every candidate scores under 0.7, carrying the best score and the low-confidence message with that score in two decimals; otherwise 200 with the place id, name, address, phone and rating of the first top-scoring candidate, its score and the match time |
| PlaceMatch.LowConfidenceMessage | api/places/match.ts:159-163 | the message is the fixed low-confidence sentence, then the score as `toFixed(2)` writes it, then `)` |
| PlaceMatch.SearchUrl | api/places/match.ts:117-123 | the request URL starts with the text-search endpoint and `?query=` |
| PlaceMatch.SearchUrlEnds | api/places/match.ts:117-123 | the request URL ends with `&key=`, the key and `&region=KR&language=ko` |
| Topo.ToGeoJSON | lib/geo/topo.ts:66-88 | converts exactly when the topology has objects and one under the requested key, and then yields the feature conversion of that object; otherwise throws the not-found message naming the key and the available keys |
| Topo.EnsureLatLngOrder | lib/geo/topo.ts:96-108 | a non-array is returned as is; a pair of numbers is swapped; any other array keeps its length and has each element converted |
| Topo.EnsureLatLngOrderInvolution | lib/geo/topo.ts:96-108 | applying the coordinate swap twice gives back the original value |
| Topo.EnsureLatLngOrderKeepsShape | lib/geo/topo.ts:96-108 | the swap keeps the nesting shape of the coordinate value |
| Topo.GetBbox | lib/geo/topo.ts:115-126 | exactly a four-number box is accepted and gives south-west (minY, minX) and north-east (maxY, maxX); otherwise it throws the invalid-bbox message |
| Topo.ScanPoints | lib/geo/topo.ts:143-149 | the running minimum and maximum after a run of points is the hull of every point seen so far |
| Topo.ScanRings | lib/geo/topo.ts:151-157 | walking the rings recursively leaves the hull of all their points and records whether an empty ring was met |
| Topo.CalculateBbox | lib/geo/topo.ts:133-162 | the stored bbox when present, otherwise the hull of the geometry's points as [minX, minY, maxX, maxY], or the non-finite result when there is no point to take |
| Topo.CalculatedBboxCovers | lib/geo/topo.ts:139-161 | a computed bbox has four numbers and contains every point of the geometry |
| Topo.GetCenter | lib/geo/topo.ts:169-183 | the stored centre when present, otherwise the midpoint of the calculated bbox |
| Topo.ComputedCenterInside | lib/geo/topo.ts:175-182 | a centre computed from finite bounds lies inside the geometry's bounding box |
| Topo.SwapRing | lib/geo/topo.ts:195-197 | each point of a ring becomes a latitude-longitude pair with the coordinates swapped, keeping length and order |
| Topo.PolygonPaths | lib/geo/topo.ts:195-197 | one path per ring, in order, each the swapped ring |
| Topo.ToKakaoPolygonPaths | lib/geo/topo.ts:190-208 | a polygon gives its swapped rings, a multipolygon the swapped rings of all its polygons in order, anything else no path |
| Topo.ToNaverPolygonPaths | lib/geo/topo.ts:215-218 | the Naver paths are the Kakao paths |
| Topo.SwapRingIsEnsureLatLngOrder | lib/geo/topo.ts:196 | converting a ring point by point is the same as the generic coordinate swap of the ring |
| Topo.PolygonPathsRoundTrip | lib/geo/topo.ts:195-197 | swapping the paths back recovers the rings |
| Topo.MultiPolygonPathCount | lib/geo/topo.ts:200-204 | a multipolygon yields one path per ring over all its polygons |
| Topo.MultiPolygonPathsAppend | lib/geo/topo.ts:200-204 | the paths of two runs of polygons are the paths of each, concatenated |
| Topo.GetCoordSamples | lib/geo/topo.ts:226-238 | the first samples of the first outer ring of a polygon or of the first polygon; a missing ring throws the TypeError of reading `slice`, and a multi-polygon without polygons the TypeError of reading `0`; no sample for other geometries; never more than the count asked for |
| Topo.DefaultSamples | lib/geo/topo.ts:226-231 | with the default count a polygon gives the first three points of its outer ring, or all of them when it has fewer |
| Topo.GetErrorMessage | lib/geo/topo.ts:245-263 | the checks run in order: 401 or 403 gives the key message, then 404 the missing-file message, then SyntaxError the format message, then the object-missing phrase the message itself with a magnifier, else the generic error text |
| Topo.NotFoundMessageLacks | lib/geo/topo.ts:72 | for lower-case ASCII keys the not-found message contains neither `4` nor `E` |
| Topo.NotFoundMessageNamesPhrase | lib/geo/topo.ts:72 | the not-found message contains the object-missing phrase |
| Topo.MissingObjectMessageShown | lib/geo/topo.ts:245-263 | a not-found error for lower-case keys is shown to the user as the message itself behind a magnifier, not as an HTTP or format error |
| TopoJs.GetObjects | lib/geo/topo.js:33-39 | converts exactly when the topology has objects and one under the name, yielding its feature conversion; otherwise throws a message naming the object that carries the object-missing phrase |
| TopoJs.MissingObjectMessagesAgree | lib/geo/topo.js:35 | the JavaScript not-found message is the head of the TypeScript one, which only adds the list of available keys |
| TopoJs.PolygonArea | lib/geo/topo.js:105-113 | the loop accumulates the shoelace sum over each edge and its predecessor, and the area is never negative |
| TopoJs.PolygonCentroid | lib/geo/topo.js:81-98 | the centroid is the first moments over six times the half signed area, and there is none when that area is zero |
| TopoJs.CentroidSums | lib/geo/topo.js:82-91 | the loop ends with twice the signed area and the two first moments summed over every edge and its predecessor |
| TopoJs.AreaSumIsNegatedCrossSum | lib/geo/topo.js:81-113 | the area loop's sum is the negated sum of the centroid loop's cross terms |
| TopoJs.AreaIsAbsSignedArea | lib/geo/topo.js:105-113 | the area is the absolute value of the centroid loop's signed half area |
| TopoJs.CentroidDefinedIff | lib/geo/topo.js:93-97 | a centroid is finite exactly when the ring's area is positive |
| TopoJs.Centroid | lib/geo/topo.js:46-74 | the stored centre wins; a polygon gives its outer ring's centroid, throwing when it has no ring; a multipolygon gives the centroid of the first polygon of largest area, throwing when it or one of its polygons is empty; anything else gives (0, 0) |
| TopoJs.FlattenIsMultiPolygonPaths | lib/geo/topo.js:129-133 | mapping each polygon to its rings and flattening gives the multipolygon paths of the TypeScript helper |
| TopoJs.ToLatLngPathsAgrees | lib/geo/topo.js:121-137 | the SDK paths are those of the TypeScript Kakao path conversion for every geometry |
| TopoJs.ToBounds | lib/geo/topo.js:145-151 | a box of at least four numbers gives south-west (minY, minX) and north-east (maxY, maxX) |
| TopoJs.ToBoundsAgreesWithGetBbox | lib/geo/topo.js:145-151 | on a four-number box the bounds are those of the TypeScript `getBbox` |
| TopoJs.GetBounds | lib/geo/topo.js:158-187 | the stored bbox when present, otherwise a box containing every point of the geometry, the same as the TypeScript calculation |
| TopoJs.BboxIntersectsSymmetric | lib/geo/topo.js:195-200 | box intersection does not depend on the order of the boxes |
| TopoJs.TouchingBoxesIntersect | lib/geo/topo.js:199 | boxes that share an edge count as intersecting |
| TopoJs.PointInBboxIsDegenerateIntersection | lib/geo/topo.js:208-213 | a point is in a box exactly when the box intersects the point's degenerate box |
| TopoJs.BboxIntersectsIffCommonPoint | lib/geo/topo.js:195-213 | two well-formed boxes intersect exactly when some point lies in both |
| TopoJs.FindFeatureById | lib/geo/topo.js:240-244 | null exactly when no feature has the id or code; otherwise the first feature that does |
| TopoJs.SearchFeaturesSpec | lib/geo/topo.js:252-259 | the results are the features, no more of them, whose name contains the lowered and trimmed query |
| TopoJs.SearchFeaturesAppend | lib/geo/topo.js:255-258 | searching two runs of features is searching each and concatenating, so the input order is kept |
| TopoJs.BlankQueryFindsNamed | lib/geo/topo.js:252-258 | a blank query returns exactly the features with a non-empty name |
| TopoJs.ToLatLngPaths | lib/geo/topo.js:121-137 | a Polygon gives one path per ring with each position swapped to (lat, lng); a MultiPolygon gives the same flattened paths as the TypeScript `toLatLngPaths`; any other geometry gives none |
| TopoJs.PointInBbox | lib/geo/topo.js:208-213 | a box holding a point is well formed |
| TopoJs.BboxIntersects | lib/geo/topo.js:195-200 | two well-formed boxes intersect exactly when some point lies in both |
| TopoJs.SearchFeatures | lib/geo/topo.js:252-259 | at most as many features as given, each named with a lower-cased name containing the trimmed lower-cased query |
| Stores.MapIndustryToCategory | src/hooks/useStores.js:11-35 | the category is always one of the six; each category holds exactly when none of the earlier tests matches and its own does: restaurant, then cafe (a cafe keyword or `카페` in the lower-cased name), pharmacy, mart, beauty; etc exactly when no test matches |
| Stores.BeverageIsRestaurant | src/hooks/useStores.js:14-18 | `음료` is in both the restaurant and the cafe list, and the restaurant test is first, so such a name is a restaurant |
| Stores.FoodStoreIsRestaurant | src/hooks/useStores.js:14-26 | a name with `식품점` contains `식품`, so it is a restaurant and never reaches the mart test |
| Stores.LowerCafeOccursInName | src/hooks/useStores.js:12-18 | when the lowered name contains `카페` the name itself does, because lowering leaves Hangul alone |
| Stores.CafeBranchIsRegexAlone | src/hooks/useStores.js:18 | the extra lowered-name `카페` test never changes the cafe decision |
| Stores.KeywordsStartHangulOrLower | src/hooks/useStores.js:14-30 | every keyword of the five lists starts with a Hangul syllable or a lower-case letter |
| Stores.NoKeywordIn | src/hooks/useStores.js:14-30 | a name with no Hangul and no lower-case letter matches no keyword list |
| Stores.UpperLatinNameIsEtc | src/hooks/useStores.js:11-35 | a name of upper-case Latin letters, digits and punctuation is classed etc, because the tests are case-sensitive |
| Stores.RestaurantKeywordsStartHangul | src/hooks/useStores.js:14 | every restaurant keyword starts with a Hangul syllable |
| Stores.KeywordCaseMatters | src/hooks/useStores.js:18 | `coffee` is a cafe but `COFFEE` is etc |
| Stores.EmptyNameIsEtc | src/hooks/useStores.js:11-35 | the default empty name is classed etc |
| Stores.BuildStore | src/hooks/useStores.js:161-180 | the id joins city code, management number or name, latitude and longitude with dashes; the address is the road address or else the lot address or empty; the category classifies the raw category followed by the name; coordinates are the unary-plus numbers |
| Stores.StoresOfRows | src/hooks/useStores.js:158-181 | one store per row with both coordinates, in row order |
| Stores.StoresOfRowsAppend | src/hooks/useStores.js:159-160 | the stores of two runs of rows are the stores of each, concatenated |
| Stores.RowWithoutCoordinatesDropped | src/hooks/useStores.js:160 | a row missing a coordinate gives no store |
| Stores.FetchGgStoresByCity | src/hooks/useStores.js:142-188 | a failed page gives no store; otherwise the page's rows mapped to stores |
| Stores.StoreState.constructor | src/hooks/useStores.js:6-8 | the hook starts with no stores, nothing filtered and not loading |
| Stores.StoreState.LoadStoresByCity | src/hooks/useStores.js:191-205 | the result is pages 1, 2 and 3 concatenated in order; both lists are set to it and loading ends false |
| Stores.Distance | src/hooks/useStores.js:102-105 | a distance exists exactly when both coordinates are truthy and coerce to numbers (not `NaN`), and it is never negative |
| Stores.Scan | src/hooks/useStores.js:98-111 | the kept index is in range, or 0 with no distance; a kept distance belongs to an earlier place and is that place's distance |
| Stores.ClosestPlace | src/hooks/useStores.js:98-111 | the choice is what `Scan` keeps over all places; no distance exactly when no place has a numeric distance, and then the first place; otherwise the chosen place's distance is the least of all, and every earlier place with a distance is strictly farther |
| Stores.PicsumUrl | src/hooks/useStores.js:79 | the picsum address is the seed prefix, the encoded name and `/400/300` |
| Stores.KakaoImageUrl | src/hooks/useStores.js:121 | the Kakao image address is the thumbnail prefix followed by the encoded `mystore` address of the place id |
| Stores.PicsumUrlInjective | src/hooks/useStores.js:79 | two names with the same picsum address have the same encoding |
| Stores.FetchStoreImage | src/hooks/useStores.js:38-139 | a truthy backend image wins; a backend answer without one gives picsum; a failed backend with no SDK, a failed search or no result gives picsum; otherwise the Kakao thumbnail of the closest place's id when it is truthy, else picsum |
| Directions.UiModeToApi | src/utils/directions.js:33-40 | the API mode is walk, traffic or car; walk exactly for `도보`, traffic exactly for `대중교통`, car for everything else |
| Directions.ApiModeLacksSeparators | src/utils/directions.js:33-40 | no API mode contains `/` or `,`, so it cannot break the link's path |
| Directions.BuildKakaoDirectionsUrl | src/utils/directions.js:50-66 | a truthy destination place id gives the `link/to/` address with the encoded id; otherwise the `link/by/` address with mode, origin segment and destination segment |
| Directions.PlaceIdLinkIgnoresOrigin | src/utils/directions.js:56-59 | with a destination place id the link depends neither on the origin nor on the mode |
| Directions.SegmentFields | src/utils/directions.js:62-63 | a waypoint segment splits on commas into the encoded name, the latitude and the longitude, and has no `/` |
| Directions.CoordinateLinkRecoversFields | src/utils/directions.js:61-65 | without a place id the link is the `link/by/` prefix and a path that splits back into the mode and both waypoints' name, latitude and longitude |
| Directions.Speed | src/utils/directions.js:133-139 | the speed is 80, 400 or 600 metres a minute; 80 exactly for walk, 400 exactly for traffic, and 600 for car and any unknown mode |
| Directions.Round | src/utils/directions.js:140 | the rounded value is the integer within half a unit, halves going up |
| Directions.EstimatedTimeMonotone | src/utils/directions.js:132-141 | a longer distance never gives a shorter time in the same mode |
| Directions.WalkSlowestCarFastest | src/utils/directions.js:132-141 | over the same distance walking takes at least as long as transit, and transit at least as long as driving |
| DirectionsLink.BuildKakaoDirectionsUrl | src/utils/directionsLink.ts:4-7 | the TypeScript link is the JavaScript coordinate link for the same waypoints and mode (its waypoints have no place id) |
| DirectionsLink.UiModeToApi | src/utils/directionsLink.ts:21-28 | the TypeScript mode mapping agrees with the JavaScript one on every input |
| DirectionsLink.GetUserLocOrFallback | src/utils/directionsLink.ts:9-18 | a position from the browser becomes `내 위치` at its coordinates; no geolocation or an error gives the fallback |
| DirectionsLink.RequestUrl | src/utils/directionsLink.ts:44-46 | the request goes to the given endpoint, or `/api/directions` when none is given, followed by `?` and the origin and destination query |
| DirectionsLink.GetServerDirections | src/utils/directionsLink.ts:36-60 | nothing is requested unless server directions are switched on; then the request URL is fetched, and vertexes come back exactly when the body has a truthy first route's first section's first road's vertex list |
| DirectionsLink.DocumentedShapeYieldsVertexes | src/utils/directionsLink.ts:55 | a body with one route, section and road yields that road's vertexes |
| DirectionsLink.NoRoutesYieldsNull | src/utils/directionsLink.ts:55 | a body with an empty route list yields null |
| DirectionsLink.QueryStringRecoversCoordinates | src/utils/directionsLink.ts:45 | the query splits into an origin and a destination pair, each longitude first then latitude |
| DirectionsLink.LngLatSplits | src/utils/directionsLink.ts:45 | one coordinate pair splits at its single comma into the longitude and then the latitude |
| DirectionsLink.QueryStringLacksQuestionMark | src/utils/directionsLink.ts:45 | the query has no `?` |
| DirectionsLink.DefaultRequestUrlShape | src/utils/directionsLink.ts:45 | with the default endpoint the request splits on `?` into the endpoint and the query |
| Directions.EstimatedTime | src/utils/directions.js:132-141 | the minutes are the whole number nearest to distance over the mode's speed, and never negative for a non-negative distance |
| App.SearchFilter | src/App.jsx:52-59 | an empty search keeps every store; otherwise the result is an order-keeping sublist of the stores |
| App.SearchMembership | src/App.jsx:57-58 | with search text, a store is kept exactly when it is loaded and its name contains the trimmed text |
| App.BlankSearchKeepsNamedStores | src/App.jsx:53-58 | a search of spaces trims to the empty text and keeps exactly the stores with a non-empty name |
| App.CategoryFilter | src/App.jsx:62-84 | `all` keeps the list; any other category keeps an order-keeping sublist whose stores all have that category |
| App.CategoryMembership | src/App.jsx:76-80 | for a category other than `all` a store is shown exactly when it is in the list with that category, and filtering twice changes nothing |
| App.VisibleStores | src/App.jsx:137-140 | the visible stores are an order-keeping sublist of the stores, each inside the map's bounds |
| App.VisibleMembership | src/App.jsx:137-140 | a store is visible exactly when it is loaded and inside the bounds, edges included |
| App.MovedSymmetric | src/App.jsx:96-103 | moving from one centre to another counts exactly when moving back does |
| App.StayingPutIsNotMoving | src/App.jsx:96-103 | a map that keeps its centre never shows the research button on account of moving |
| App.DecodeVertexes | src/App.jsx:423-428 | the loop makes one point per pair of the vertex list, longitude first then latitude; an odd list leaves the last latitude undefined, an even one none |
| App.Interleave | src/App.jsx:423 | writing points out as a vertex list puts each point's longitude and then its latitude |
| App.DecodeInterleaved | src/App.jsx:423-428 | decoding the vertex list of some points gives back exactly those points |
| App.RouteLabel | src/App.jsx:446 | the label is 도보 exactly for walk, 대중교통 exactly for transit, and 자동차 otherwise |
| App.DistanceKm | src/App.jsx:444 | the kilometres shown are within 50 metres of the route's distance |
| App.DurationMinutes | src/App.jsx:442 | the minutes shown are within half a minute of the route's duration |
| App.RouteInfoFor | src/App.jsx:418-478 | a found route records its rounded distance and minutes; a failed status or a thrown error records `계산 불가` and 0; the label follows the route type |
| App.FailuresAgree | src/App.jsx:457-478 | both failure paths record the same information |
| App.MapScreen.constructor | src/App.jsx:17-34 | the screen starts in region mode, with no city, category `all`, no search, nothing selected, no position, no overlays and no stores |
| App.MapScreen.FinalShown | src/App.jsx:62-84 | the shown list is always an order-keeping sublist of the loaded stores |
| App.MapScreen.Search | src/App.jsx:52-59 | setting the search text re-filters the loaded stores by it and keeps the filtered list a sublist of the stores |
| App.MapScreen.SelectCategory | src/App.jsx:62-84 | choosing a category makes the shown list the filtered list narrowed to it |
| App.MapScreen.HandleMapMove | src/App.jsx:90-107 | the new centre is recorded; the research button appears once the centre has moved more than 0.001 degrees from the previous one, and stays |
| App.MapScreen.HandleResearch | src/App.jsx:120-149 | with a map and some stores in view the filtered list becomes those stores and the button hides; otherwise nothing changes |
| App.MapScreen.AutoSelect | src/App.jsx:164-176 | the first shown store is selected when nothing is selected, and an existing selection is kept |
| App.MapScreen.EnterCity | src/App.jsx:187-242 | entering a city sets map mode, category `all` and the city, loads its three pages, re-runs the search effect so the shown list is the loaded stores narrowed by the unchanged search text (all of them when it is empty), and selects the first loaded store when there is one |
| App.MapScreen.OnBack | src/App.jsx:245-257 | going back returns to region mode with no city, no selection, no position, no circle and no overlays |
| App.MapScreen.RecordRoute | src/App.jsx:413-478 | a route request records the route information for its outcome and closes the route modal |
| KakaoMap.JavascriptKey | src/hooks/useKakaoMap.js:4 | the key is the environment's when it is set and non-empty, and the built-in key otherwise |
| KakaoMap.ValidateApiKey | src/hooks/useKakaoMap.js:7-17 | a key is accepted exactly when it is non-empty, is not the built-in key and has at least 20 characters |
| KakaoMap.FallbackKeyIsRejected | src/hooks/useKakaoMap.js:4-17 | without an environment key the SDK is never loaded, because the built-in key is rejected |
| KakaoMap.LongOwnKeyIsAccepted | src/hooks/useKakaoMap.js:7-17 | any other key of 20 or more characters is accepted |
| KakaoMap.BuildMarkers | src/hooks/useKakaoMap.js:180-221 | one marker per store in order, with its id, position and title; selected exactly for the store whose id is the selected id; the id map holds every store id, each at the last store with that id |
| KakaoMap.MarkerLayer.constructor | src/hooks/useKakaoMap.js:22-25 | the layer starts with no markers, an empty map and no selection |
| KakaoMap.MarkerLayer.UpdateMarkers | src/hooks/useKakaoMap.js:158-232 | without a map nothing changes; otherwise the markers, images and id map are rebuilt for the stores, and the selection becomes the given id when it is truthy and stays as it was otherwise |
| KakaoMap.MarkerLayer.ResetMappedImages | src/hooks/useKakaoMap.js:204-207 | every marker the id map holds gets the default image and the others keep theirs |
| KakaoMap.MarkerLayer.Click | src/hooks/useKakaoMap.js:195-217 | clicking a marker resets the mapped markers, highlights the clicked one, selects its store id and hands that id to the callback |
| KakaoMap.MarkerLayer.ClearMarkerHighlight | src/hooks/useKakaoMap.js:235-255 | without a map nothing changes; otherwise the mapped markers get the default image and the selection is cleared |
| KakaoMap.DistinctIdsMapEveryMarker | src/hooks/useKakaoMap.js:219 | when the store ids are distinct the id map reaches every marker, so a reset leaves no marker highlighted |
| KakaoMap.MarkersFor | src/hooks/useKakaoMap.js:180-221 | the specification of the marker loop; it implies that every store id is in the id map, at that store or a later one |
| NaverPicker.GetPolygonStyle | src/components/region/NaverStyleRegionPicker.jsx:216-240 | a selected polygon is accent-filled at 0.15 with a 2-pixel accent stroke; an unselected hovered one is black at 0.04 with a 2-pixel base stroke; otherwise the base fill at 0.6 with a 1-pixel base stroke; stroke opacity is always 0.8 |
| NaverPicker.SelectedIgnoresHover | src/components/region/NaverStyleRegionPicker.jsx:222-231 | hovering makes no difference to a selected polygon |
| NaverPicker.StrokeTellsState | src/components/region/NaverStyleRegionPicker.jsx:216-240 | the stroke is the accent exactly when the polygon is selected, and 1 pixel exactly when it is neither selected nor hovered |
| NaverPicker.SigLevelUsesSigOnly | src/components/region/NaverStyleRegionPicker.jsx:257 | at the 시·군 level a polygon is selected exactly when its code is the selected 시·군's, whatever 읍/면/동 is selected |
| NaverPicker.CodelessFeatureMatchesNoSelection | src/components/region/NaverStyleRegionPicker.jsx:257 | with nothing selected a feature without a code counts as selected, since both sides of the comparison are undefined |
| NaverPicker.RegionPicker.constructor | src/components/region/NaverStyleRegionPicker.jsx:32-42 | the picker starts at the 시·군 level with nothing selected, no 읍/면/동 data, loading and no error |
| NaverPicker.RegionPicker.HandlePolygonClick | src/components/region/NaverStyleRegionPicker.jsx:315-363 | a 시·군 click selects it and clears the 읍/면/동, moving to the 읍/면/동 level with its data only when the load succeeds and recording the error otherwise; a 읍/면/동 click selects it and emits province, 시·군 and 읍/면/동, or records an error when no 시·군 is selected; any other level changes nothing; loading always ends |
| NaverPicker.RegionPicker.HandleBreadcrumbClick | src/components/region/NaverStyleRegionPicker.jsx:375-388 | the 시·군 crumb returns to that level and drops the 읍/면/동 and its data; any other target changes nothing |
| NaverPicker.SelectThenReturn | src/components/region/NaverStyleRegionPicker.jsx:315-363 | a 시·군 click that loads followed by a 읍/면/동 click emits the province with both codes and names |
| NaverPicker.IsHovered | src/components/region/NaverStyleRegionPicker.jsx:256 | with a hovered polygon the codes are compared; with none, only a feature without a code counts as hovered |
| NaverPicker.IsSelected | src/components/region/NaverStyleRegionPicker.jsx:257 | at level `sig` the test is against the selected 시·군, at any other level against the selected 읍·면·동, in the same way as hovering |
| GyeonggiPicker.IdColumn | src/components/region/RegionPickerGyeonggi.jsx:19-52 | the city table has 31 entries, whose ids are the id column in order |
| GyeonggiPicker.CityIdsDistinct | src/components/region/RegionPickerGyeonggi.jsx:19-52 | the 31 city ids are pairwise distinct |
| GyeonggiPicker.EveryCityListedByItsZone | src/components/region/RegionPickerGyeonggi.jsx:19-61 | every city's zone is one of the zones, and that zone lists the city |
| GyeonggiPicker.ZoneKeys | src/components/region/RegionPickerGyeonggi.jsx:54-61 | the zone map holds exactly the six zones, each under its own id and each with at least one city |
| GyeonggiPicker.ListedCityOf | src/components/region/RegionPickerGyeonggi.jsx:54-61 | a city a zone lists is in the table with that zone |
| GyeonggiPicker.EveryListedCityInZone | src/components/region/RegionPickerGyeonggi.jsx:19-61 | every city any zone lists is a table city of that zone |
| GyeonggiPicker.ZoneListsDisjoint | src/components/region/RegionPickerGyeonggi.jsx:54-61 | no city is listed by two zones |
| GyeonggiPicker.ZoneListsCoverCities | src/components/region/RegionPickerGyeonggi.jsx:54-61 | the six zone lists together are as long as the city table, so they partition it |
| GyeonggiPicker.FilteredCities | src/components/region/RegionPickerGyeonggi.jsx:69-74 | blank text lists every city; any other text an order-keeping sublist |
| GyeonggiPicker.BlankQueryListsAll | src/components/region/RegionPickerGyeonggi.jsx:70 | text of spaces only lists all 31 cities |
| GyeonggiPicker.FilteredMembership | src/components/region/RegionPickerGyeonggi.jsx:71-73 | for other text a city is listed exactly when its lowered label contains the lowered, untrimmed query |
| GyeonggiPicker.FindCity | src/components/region/RegionPickerGyeonggi.jsx:87 | a city is found exactly when the list has one with the id, and the one found has that id |
| GyeonggiPicker.GyeonggiPicker.constructor | src/components/region/RegionPickerGyeonggi.jsx:64-66 | the picker starts with empty text and nothing selected |
| GyeonggiPicker.GyeonggiPicker.HandleSelectCity | src/components/region/RegionPickerGyeonggi.jsx:77-80 | selecting a city records its id and hands the same city to the callback |
| GyeonggiPicker.GyeonggiPicker.HandleZoneClick | src/components/region/RegionPickerGyeonggi.jsx:83-92 | an unknown zone does nothing; a known zone selects and emits its first listed city, which is a table city of that zone |
| PlaceDetail.SearchQuery | src/components/PlaceDetailView.jsx:76 | the query joins the truthy ones of name and address with a space, and is empty when neither is truthy |
| PlaceDetail.LocationSuffix | src/components/PlaceDetailView.jsx:77 | the location and a 1000 m radius are added exactly when both coordinates are truthy (a zero coordinate counts as missing) |
| PlaceDetail.SearchUrl | src/components/PlaceDetailView.jsx:79 | the request is the text-search endpoint followed by its parameters |
| PlaceDetail.QueryParamFirst | src/components/PlaceDetailView.jsx:79 | the part of the parameters before the first `&` is the encoded query |
| PlaceDetail.QueryPartsRecovered | src/components/PlaceDetailView.jsx:76 | for space-free name and address the query splits back into the truthy ones among them |
| PlaceDetail.Attributions | src/components/PlaceDetailView.jsx:144 | a photo's attributions are its attribution list joined by spaces, or empty when it has none |
| PlaceDetail.CardsFrom | src/components/PlaceDetailView.jsx:140-146 | one card per photo, in order, each numbered from the start position |
| PlaceDetail.ShapePhotos | src/components/PlaceDetailView.jsx:140-146 | no photos give no card; otherwise at most the first six, each with its position, size, joined attributions and photo address |
| PlaceDetail.ShapeIsPrefixStable | src/components/PlaceDetailView.jsx:140 | more photos never change the cards of the earlier ones |
| PlaceDetail.PhotoUrlsTellReferences | src/components/PlaceDetailView.jsx:145 | two photos with the same address have the same photo reference |
| PlaceDetail.DummyPhotos | src/components/PlaceDetailView.jsx:159-181 | the fallback gives three numbered 800×600 cards with the dummy attribution, seeded by the name, the name followed by 2 and the name followed by 3 |
| PlaceDetail.DevPhotos | src/components/PlaceDetailView.jsx:201-220 | with the feature off, three unnumbered 400×300 cards with the test attribution, seeded the same way |
| PlaceDetail.DummySeedsDiffer | src/components/PlaceDetailView.jsx:165-179 | the three seeds are encoded differently, so the three pictures differ |
| PlaceDetail.PhotoLoader.constructor | src/components/PlaceDetailView.jsx:5-8 | the loader starts with no photos, not loading, no error and no attribution |
| PlaceDetail.PhotoLoader.Open | src/components/PlaceDetailView.jsx:11-224 | closed or without a store nothing changes; otherwise loading ends and the attribution shows; feature off gives the test photos; production always ends in the dummy photos and the fallback error; development requests the text search and shows the shaped photos on success and the dummy photos with the fallback error on failure |
| PlaceDetail.PhotoLoader.LoadGooglePhotos | src/components/PlaceDetailView.jsx:14-191 | loading ends false with the attribution shown; production gives the dummy photos and the fallback error without a request; development requests the text-search URL and shows the shaped photos when the lookup gave details, the dummy photos and the fallback error when it failed |
| PlaceDetail.PhotoLoader.ShowDevPhotos | src/components/PlaceDetailView.jsx:197-223 | with Google photos off the three test photos are shown at once, with the attribution and loading false |
| PhotoProxy.FormEncodeChar | api/places/photo-proxy.ts:27 | an encoded character never contains `&` or `=` |
| PhotoProxy.FormEncode | api/places/photo-proxy.ts:27 | an encoded name or value never contains `&` or `=`, so it cannot break the query string |
| PhotoProxy.FormEncodeSafe | api/places/photo-proxy.ts:21-25 | text made of word characters, `*`, `-` and `.` is written unchanged |
| PhotoProxy.Pieces | api/places/photo-proxy.ts:27 | one `name=value` piece per pair, in insertion order |
| PhotoProxy.SerializeSplits | api/places/photo-proxy.ts:27 | the query string splits on `&` back into its pieces, and each piece on `=` into its encoded name and value |
| PhotoProxy.SearchParams.constructor | api/places/photo-proxy.ts:20 | a new parameter list is empty |
| PhotoProxy.SearchParams.Append | api/places/photo-proxy.ts:21-25 | appending adds the pair after the existing ones and changes nothing else |
| PhotoProxy.MaxWidth | api/places/photo-proxy.ts:8 | `maxwidth` is 800 when the parameter is absent and the given value otherwise, even when empty |
| PhotoProxy.ResponseFor | api/places/photo-proxy.ts:32-53 | the image is sent exactly when the fetch completed with an OK status; every other outcome is a 500 `INTERNAL_ERROR`, whose message is the thrown error's message, or `Google Place Photos API failed: ` and the status for a non-OK reply |
| PhotoProxy.Handle | api/places/photo-proxy.ts:6-55 | a missing reference is a 400 before the key is looked at; a missing key a 500; otherwise exactly the photo endpoint with the assembled parameters is fetched and its outcome answered |
| PhotoProxy.BuildParams | api/places/photo-proxy.ts:20-25 | the parameters are reference and key, then `maxwidth` when truthy, then `maxheight` when truthy, in that order |
| PhotoProxy.ParamOrder | api/places/photo-proxy.ts:20-25 | a request has two to four parameters, reference first and key second, and its last is `maxheight` exactly when that was given |
| PhotoProxy.OptionalParams | api/places/photo-proxy.ts:8-25 | an absent `maxwidth` sends 800; `maxwidth` is sent exactly when its value is truthy, and `maxheight` exactly when given non-empty |
| PhotoProxy.ReferencePair | api/places/photo-proxy.ts:21 | the first piece of the query splits into `photo_reference` and the encoded reference |
| PhotoProxy.KeyPair | api/places/photo-proxy.ts:22 | the second piece splits into `key` and the encoded key |
| PhotoProxy.NamesWrittenAsGiven | api/places/photo-proxy.ts:21-22 | the names `photo_reference` and `key` are serialised unchanged |
| BuildGeo.CodeColumn | scripts/build-geo.mjs:30-73 | the code table has 42 entries, whose codes are the code column in order |
| BuildGeo.CodesDistinct | scripts/build-geo.mjs:30-73 | no code appears twice in the table |
| BuildGeo.Square | scripts/build-geo.mjs:94-100 | a sample square is a closed ring of five points whose first and last coincide |
| BuildGeo.BboxOf | scripts/build-geo.mjs:102 | a ring's box has four numbers |
| BuildGeo.SquareBox | scripts/build-geo.mjs:93-102 | the box of a square is its centre minus and plus the half-width on each axis |
| BuildGeo.GenerateSampleSigData | scripts/build-geo.mjs:76-121 | the loop pushes exactly twelve features, the k-th built from table entry k at grid position k |
| BuildGeo.SigIdsUnique | scripts/build-geo.mjs:104-113 | each sample feature's id and code are its table code, and no two sample features share an id |
| BuildGeo.SigCentersDistinct | scripts/build-geo.mjs:86-90 | distinct grid positions get distinct centres |
| BuildGeo.SigGeometry | scripts/build-geo.mjs:92-113 | a sample feature is a one-ring polygon of five points, closed, whose stored box is its centre plus and minus 0.1 |
| BuildGeo.FindSig | scripts/build-geo.mjs:131 | a table entry is found exactly when one has the code, and the one found has it |
| BuildGeo.Pad2 | scripts/build-geo.mjs:154 | a padded number has at least two digits, with a leading zero below ten |
| BuildGeo.GenerateSampleEmdData | scripts/build-geo.mjs:124-174 | an unknown 시·군 code gives null; a known one gives four features, the k-th built for position k |
| BuildGeo.EmdFeatures | scripts/build-geo.mjs:137-168 | the loop pushes one feature per 읍/면/동 name, in order |
| BuildGeo.EmdCodes | scripts/build-geo.mjs:154-166 | each 읍/면/동 code is the 시·군 code followed by 01 to 04, the codes differ, and every feature names the 시·군 as its parent |
| BuildGeo.EmdGeometryIgnoresSig | scripts/build-geo.mjs:134-152 | geometry, centre and name of a 읍/면/동 sample do not depend on the 시·군 code |
| SplitSvg.PathTagInContext | scripts/split-gyeonggi-svg.mjs:58 | a text containing a path tag with a `d` attribute still contains one with anything around it |
| SplitSvg.NoAngleNoTag | scripts/split-gyeonggi-svg.mjs:58 | text without `<` has no path tag |
| SplitSvg.EmptyPathTag | scripts/split-gyeonggi-svg.mjs:58 | the shortest path tag, with an empty `d`, is matched |
| SplitSvg.Emitted | scripts/split-gyeonggi-svg.mjs:86-112 | the loop places as many regions as the table has, up to the sixteen cells of the grid |
| SplitSvg.SplitGyeonggiSvg | scripts/split-gyeonggi-svg.mjs:52-117 | nothing is returned exactly when the input has no path tag; otherwise the header, the markup of the first sixteen regions and `</svg>` |
| SplitSvg.SplitRegions | scripts/split-gyeonggi-svg.mjs:58-116 | the nested loops append, for each emitted region in table order, its cell's markup between the header they start from and `</svg>`, and nothing is returned without a path tag |
| SplitSvg.GridPosition | scripts/split-gyeonggi-svg.mjs:92-94 | the region counter at row r and column c is 4r + c |
| SplitSvg.PlaceAt | scripts/split-gyeonggi-svg.mjs:95-105 | region 4r + c gets the cell at column c times 385/4 and row r times 435/4, with its label at the cell centre |
| SplitSvg.SixteenOfTheTable | scripts/split-gyeonggi-svg.mjs:86-112 | with the 43-entry table only the first sixteen regions are emitted |
| SplitSvg.CellsInsideCanvas | scripts/split-gyeonggi-svg.mjs:86-105 | every emitted cell lies inside the 385-by-435 canvas and its label strictly inside the cell |
| SplitSvg.CellsDistinct | scripts/split-gyeonggi-svg.mjs:92-98 | two regions never get the same cell |
| SplitSvg.BodyGrows | scripts/split-gyeonggi-svg.mjs:99-107 | the markup only grows as the loop goes on: each earlier text is a prefix of the later one |
| StoreCard.GetCategoryLabel | src/components/StoreCard.jsx:9-19 | the label is always one of the six; a category with a table entry shows that entry, anything else (unknown key, missing category) shows 기타 |
| StoreCard.CategoriesMapOntoLabels | src/components/StoreCard.jsx:10-17 | the six category ids of the store hook map, in order, onto the six labels |
| StoreCard.ClassifiedStoresHaveEntries | src/components/StoreCard.jsx:10-17 | whatever category the industry classifier assigns has its own table entry |
| StoreCard.LabelsIdentifyCategories | src/components/StoreCard.jsx:10-17 | two categories with the same label are the same category |
| StoreCard.LabelsDistinct | src/components/StoreCard.jsx:11-16 | the six labels are pairwise different |
| StoreCard.UnknownKeysShowEtc | src/components/StoreCard.jsx:18 | a key outside the categories is shown like `etc` |
| GeoJsonSvg.NamesRepeat | scripts/convert-geojson-to-svg.mjs:5-53 | the name table gives the same name to two codes (동두천시, 연천군), so a name does not identify a region |
| GeoJsonSvg.TableNamesPlain | scripts/convert-geojson-to-svg.mjs:5-53 | no table name contains `<` |
| GeoJsonSvg.NamePlain | scripts/convert-geojson-to-svg.mjs:93 | the displayed name, table entry or `지역 <id>` fallback, contains no `<` when the id does not |
| GeoJsonSvg.HullSnoc | scripts/convert-geojson-to-svg.mjs:71-76 | visiting one more position grows the running box by exactly that position |
| GeoJsonSvg.Bounds | scripts/convert-geojson-to-svg.mjs:67-78 | the min/max loop ends with the hull of every guarded feature's exterior positions, or no box when there are none |
| GeoJsonSvg.SkippedAddNothing | scripts/convert-geojson-to-svg.mjs:70 | a feature that fails the geometry guard contributes no position to the bounds |
| GeoJsonSvg.BoundsCover | scripts/convert-geojson-to-svg.mjs:67-78 | every position of every guarded feature lies inside the computed bounds |
| GeoJsonSvg.ExteriorsHold | scripts/convert-geojson-to-svg.mjs:69-78 | every position of every guarded feature is among the positions the bounds pass visits |
| GeoJsonSvg.Fit | scripts/convert-geojson-to-svg.mjs:80-84 | no usable scale exactly when both ranges are zero; otherwise the smaller of the two fitting scales |
| GeoJsonSvg.ScalePositive | scripts/convert-geojson-to-svg.mjs:80-82 | the fitted scale is positive |
| GeoJsonSvg.ProjectionInView | scripts/convert-geojson-to-svg.mjs:80-98 | a point inside the bounds projects inside the view box with the 20-unit margin |
| GeoJsonSvg.ProjectionMonotone | scripts/convert-geojson-to-svg.mjs:96-98 | the projection keeps the order of x and of y (no flip) |
| GeoJsonSvg.DrawnInView | scripts/convert-geojson-to-svg.mjs:67-100 | every drawn vertex of every feature lands inside the 800-by-600 view box, 20 units from its edges |
| GeoJsonSvg.PointTexts | scripts/convert-geojson-to-svg.mjs:96-99 | one coordinate text per ring position, in ring order |
| GeoJsonSvg.PathDataSplits | scripts/convert-geojson-to-svg.mjs:96-103 | the `d` value splits on spaces into `M`, the vertex texts in order and `Z` |
| GeoJsonSvg.PointTextPlain | scripts/convert-geojson-to-svg.mjs:97-99 | a vertex text holds no character that its numbers lack, other than the comma |
| GeoJsonSvg.PointTextSplits | scripts/convert-geojson-to-svg.mjs:97-99 | a vertex text splits at its comma into the projected x and y |
| GeoJsonSvg.NumStrFits | scripts/convert-geojson-to-svg.mjs:99 | the number formatter writes no space, comma or `<`, so vertex texts split cleanly |
| GeoJsonSvg.PathCountAppend | scripts/convert-geojson-to-svg.mjs:116 | the `<path` count of a concatenation whose first part ends a tag is the sum of the counts |
| GeoJsonSvg.PathCountNoAngle | scripts/convert-geojson-to-svg.mjs:116 | a text without `<` has no `<path` match |
| GeoJsonSvg.LeadCount | scripts/convert-geojson-to-svg.mjs:102-103 | the opening of a path element holds exactly one `<path` |
| GeoJsonSvg.PathElementCount | scripts/convert-geojson-to-svg.mjs:102-103 | each appended element holds exactly one `<path` and ends with `>` |
| GeoJsonSvg.PathsCount | scripts/convert-geojson-to-svg.mjs:90-105 | the appended elements hold exactly one `<path` per feature that passes the guard |
| GeoJsonSvg.FooterCount | scripts/convert-geojson-to-svg.mjs:107-109 | the closing tags hold no `<path` |
| GeoJsonSvg.SkipCount | scripts/convert-geojson-to-svg.mjs:116 | a leading character that cannot start `<path` does not change the count |
| GeoJsonSvg.HeaderEnds | scripts/convert-geojson-to-svg.mjs:86-88 | the header is not empty and ends with `>`, and so do its `<?xml` and `<svg` tags |
| GeoJsonSvg.HeaderCount | scripts/convert-geojson-to-svg.mjs:86-88 | the header's `<?xml`, `<svg` and `<g` tags hold no `<path` match, whatever the formatter writes for the interpolated width and height, as long as it writes no `<` |
| GeoJsonSvg.OutputCount | scripts/convert-geojson-to-svg.mjs:86-117 | the reported path count is exactly the number of drawn features, as long as no id text or number text holds a `<` |
| GeoJsonSvg.ConvertGeoJsonToSvg | scripts/convert-geojson-to-svg.mjs:55-117 | the SVG text is the header, one path per guarded feature in order and the footer, and the count is the number of `<path` matches in it |
| GeoJsonSvg.Name | scripts/convert-geojson-to-svg.mjs:93 | the label is never empty: the table's name for a known id, `지역 ` and the id otherwise |
| GeoJsonSvg.Project | scripts/convert-geojson-to-svg.mjs:96-98 | the bounds' corner lands on the offsets, and with a positive scale a position is past the offset on an axis exactly when it is past the corner |
| TopoSvg.LookUp | scripts/convert-topo-to-svg.mjs:18 | an arc is found exactly for an index inside the arc list, and it is the arc at that index |
| TopoSvg.ArcOf | scripts/convert-topo-to-svg.mjs:18 | whatever `arcs[geometry.arcs[0]]` finds is one of the topology's arcs |
| TopoSvg.DrawnArc | scripts/convert-topo-to-svg.mjs:18-19 | a geometry is drawn exactly when its first arc reference finds a non-empty arc |
| TopoSvg.RingKeys | scripts/convert-topo-to-svg.mjs:18 | a ring of several arc indices finds no arc, and a one-index ring finds the arc that index finds |
| TopoSvg.PolygonKeys | scripts/convert-topo-to-svg.mjs:18 | a multi-polygon whose first polygon is not a single one-index ring finds no arc; a polygon `[[i]]` finds the arc that index `i` finds |
| TopoSvg.Commands | scripts/convert-topo-to-svg.mjs:21-26 | one command per arc point, in arc order |
| TopoSvg.Tokens | scripts/convert-topo-to-svg.mjs:21-26 | the path data tokens alternate a letter and the point's coordinates, `M` for the first point and `L` after it |
| TopoSvg.JoinCommands | scripts/convert-topo-to-svg.mjs:21-26 | joining the `M x,y` and `L x,y` commands with spaces gives the same text as joining the letter and coordinate tokens |
| TopoSvg.PathDataSplits | scripts/convert-topo-to-svg.mjs:21-29 | the path data splits on spaces into the tokens, then `Z` |
| TopoSvg.PathDataJoin | scripts/convert-topo-to-svg.mjs:26-29 | the path data is the tokens and `Z` joined by single spaces |
| TopoSvg.TokensLack | scripts/convert-topo-to-svg.mjs:23-25 | no token holds a character that the number text lacks, other than the comma and the letters |
| TopoSvg.CoordsSplit | scripts/convert-topo-to-svg.mjs:23-25 | a coordinate token splits at its comma into the point's x and y |
| TopoSvg.PathHead | scripts/convert-topo-to-svg.mjs:32 | the path line's text before the path data has length 15 plus the id's |
| TopoSvg.GroupHead | scripts/convert-topo-to-svg.mjs:35-36 | the group's text before the path data has length 40 plus the id's and the name's |
| TopoSvg.BoxTexts | scripts/convert-topo-to-svg.mjs:44 | one number text per `bbox` entry, in order |
| TopoSvg.TopoToSvg | scripts/convert-topo-to-svg.mjs:5-53 | the conversion throws exactly when geometries or `bbox` are missing or a geometry throws; otherwise the document holds the paths and groups of the drawn geometries |
| TopoSvg.Convert | scripts/convert-topo-to-svg.mjs:9-50 | the loop appends, in geometry order, the path line and the group of each drawn geometry, and fails exactly on the throwing inputs |
| TopoSvg.SkippedAddsNothing | scripts/convert-topo-to-svg.mjs:19 | a geometry without a usable arc adds neither path nor group |
| TopoSvg.ConcatAppends | scripts/convert-topo-to-svg.mjs:13-40 | the appended text of two runs of geometries is the concatenation of each run's text |
| TopoSvg.OutputAppends | scripts/convert-topo-to-svg.mjs:13-40 | paths and groups of a concatenation of geometry lists are the concatenations of each list's paths and groups |
| TopoSvg.EmittedAt | scripts/convert-topo-to-svg.mjs:13-40 | each drawn geometry contributes, at its place in geometry order, its path line and its group, both from the same path data |
| TopoSvg.MarkupCarriesPathData | scripts/convert-topo-to-svg.mjs:32-37 | the path line and the group both contain the path data, at the offsets PathHead and GroupHead give |
| TopoSvg.Between | scripts/convert-topo-to-svg.mjs:32 | a text placed between two others occurs at the first one's length |
| TopoSvg.ViewBoxSplits | scripts/convert-topo-to-svg.mjs:44 | the view box splits on spaces back into the `bbox` numbers |
| TopoSvg.WellFormedConverts | scripts/convert-topo-to-svg.mjs:13-44 | geometries that all have properties, a centre and an arc list, with a `bbox` present, never make the conversion throw |

## Left out

- I/O and external services are inputs, not modelled:
  - the Selenium session and the `requests` call of the scraper, modelled as the optional results they observed;
  - FastAPI and CORS wiring;
  - every `fetch` (Google Places, the Gyeonggi open-data API, the Kakao directions service, the photo stream);
  - the TopoJSON loaders (`loadTopo`, `loadTopojson`, the Gyeonggi sig/emd loaders);
  - file reads and writes and console logging in the scripts.
- The haversine `calculateDistance` of `api/places/match.ts` and `src/utils/directions.js` is a function parameter, with no claim about its values.
- The keyword-search fallback of `fetchStoreImage` ranks by squared planar distance. `Math.sqrt` keeps that order, so it is not modelled.
- Floating point is modelled as exact `real` arithmetic. `NaN` and `Infinity` are written as `None`. JavaScript's `Math.round` is modelled as rounding half up.
- Number-to-string (`Text.NumStr`) is exact for finite numbers in plain decimal notation. It writes at most 17 fraction digits and never uses exponent notation.
- The SVG scripts take their number formatter as the parameter `num`. Their properties hold for any formatter without the characters they split on.
- PlaceMatch.Handle: `toFixed(2)` in the low-confidence message is the parameter `fixed2`, so the two-decimal rounding itself is not modelled.
- `toLowerCase` lowers only ASCII letters, and `\w`, `\s` and `trim` use their ASCII and Unicode white-space sets. Unicode case folding of other scripts is not modelled; Hangul has no case.
- `encodeURIComponent` and the form encoding of `URLSearchParams` are modelled on UTF-8 bytes with upper-case hex. Lone surrogates, which make `encodeURIComponent` throw, are not modelled.
- Object lookups with prototype keys (`speeds[mode]`, `categoryMap[category]`, `MAP_ZONES[zone]`) are modelled as plain table lookups. A key such as `constructor` finds nothing.
- The Kakao and Naver map SDKs are not modelled:
  - map creation, centring and `setBounds`;
  - polygon drawing (`renderPolygons`);
  - overlays, info windows and event listeners;
  - `loadKakao`.
  Marker objects are positions in a list with one image each.
- Browser and UI machinery is not modelled: geolocation (`getUserLocationOrFallback`), `openDirections`, `setupDirectionsForMarkers`, opening windows, `setTimeout`, scrolling, React scheduling and rendering.
- The production branch of `PlaceDetailView` is modelled only as ending in the dummy fallback:
  - it POSTs to a handler that accepts only GET;
  - it reads `place_id` where the handler returns `placeId`;
  - it calls an undeclared `setAttribution`.
- In the photo proxy, the unused `photoUrl` string is not modelled. Neither are array-valued query parameters or the streaming of the image body.
- The development Google key in `PlaceDetailView` is a parameter.
- The turf `bbox` and topojson-client `feature` conversions are not modelled. A feature's box is the exact hull of its leaf positions (`Geo.Hull`).
- TopoJSON arcs are not delta-decoded: the topology has no transform. A negative or bitwise-complemented arc index finds nothing through `arcs[geometry.arcs[0]]`, because the conversion does not decode it. Nesting deeper than a multi-polygon's rings does not occur in TopoJSON and is not modelled.
- The template comments of `convert-topo-to-svg.mjs` are stored as encoding-garbled in the source. They are modelled by their decoded Korean text, since they do not affect the drawn elements. The default canvas of 385 by 435 is a constant.
- The GeoJSON converter reads `coordinates[0]` of any geometry type. The model takes that entry as the feature's ring. For a MultiPolygon the code would read a polygon, a list of rings; that case is not modelled.
- Stores.MapIndustryToCategory: the 식품점 keyword of `mart` can never win, because `식품` under `restaurant` matches first. The redundant `includes("카페")` is modelled as written.
- PlaceMatch.Handle: a candidate whose normalised name is empty still matches every store name by containment, as in the code.
- GyeonggiPicker.GyeonggiPicker.HandleSelectCity: the `onSelect` callback is modelled by returning the city it receives.
- NaverPicker.RegionPicker.HandlePolygonClick: the console logging of `feature.properties.name` is not modelled. The sig-level `map.setBounds(toBounds(getBounds(feature)))` call is not modelled either, because the map object is outside the model.
- App.DecodeVertexes: for an odd-length vertex list, the last point takes `undefined` as its latitude, as in the loop. No claim is made about the map drawing it.
- PlaceDetail.SearchUrl: of the URL's parameters, only the query (`QueryParamFirst`, `QueryPartsRecovered`) is proved to split back out. The location, radius, key, region and language parameters are stated as built.
