/**
 * `api/places/photo-proxy.ts`: the request guards and the Google Place Photos URL the
 * proxy fetches. The `URLSearchParams` object is a class whose entries the handler appends
 * to one by one; its text form is the `application/x-www-form-urlencoded` serialisation.
 */
module PhotoProxy {
  import opened Wrappers
  import opened Js
  import opened Text

  const Photo := "https://maps.googleapis.com/maps/api/place/photo"
  const DefaultMaxWidth := "800"

  // ---------------------------------------------------------------- form encoding

  /** The characters the form-urlencoded serialiser writes as they are. */
  predicate IsFormSafe(c: char)
  {
    IsWordChar(c) || c == '*' || c == '-' || c == '.'
  }

  /** Space becomes `+`, a safe character stays, anything else is `%XX` per UTF-8 byte. */
  function FormEncodeChar(c: char): (r: string)
    ensures forall k :: 0 <= k < |r| ==> r[k] != '&' && r[k] != '='
  {
    if c == ' ' then "+" else if IsFormSafe(c) then [c] else PercentBytes(Utf8(c as int))
  }

  function FormEncode(s: string): (r: string)
    ensures '&' !in r && '=' !in r
  {
    if s == [] then "" else FormEncodeChar(s[0]) + FormEncode(s[1..])
  }

  /** Names made of safe characters are written unchanged. */
  lemma {:induction false} FormEncodeSafe(s: string)
    requires forall k :: 0 <= k < |s| ==> IsFormSafe(s[k])
    ensures FormEncode(s) == s
  {
    if s != [] {
      FormEncodeSafe(s[1..]);
    }
  }

  /** One `name=value` pair of the serialisation. */
  function PairText(e: (string, string)): (r: string)
  {
    FormEncode(e.0) + "=" + FormEncode(e.1)
  }

  function Pieces(entries: seq<(string, string)>): (r: seq<string>)
    ensures |r| == |entries|
    ensures forall k :: 0 <= k < |r| ==> r[k] == PairText(entries[k])
  {
    if entries == [] then [] else [PairText(entries[0])] + Pieces(entries[1..])
  }

  /** `params.toString()`: the pairs in insertion order, joined by `&`. */
  function Serialize(entries: seq<(string, string)>): string
  {
    Join(Pieces(entries), "&")
  }

  /** The serialisation splits back into its pairs, and each pair into its encoded name and value. */
  lemma SerializeSplits(entries: seq<(string, string)>, k: nat)
    requires 1 <= |entries| && k < |entries|
    ensures SplitOn(Serialize(entries), "&") == Pieces(entries)
    ensures SplitOn(Pieces(entries)[k], "=") == [FormEncode(entries[k].0), FormEncode(entries[k].1)]
  {
    var ps := Pieces(entries);
    forall j | 0 <= j < |ps|
      ensures '&' !in ps[j]
    {
      assert ps[j] == FormEncode(entries[j].0) + "=" + FormEncode(entries[j].1);
    }
    SplitJoin(ps, '&');
    SplitPrefixPiece(FormEncode(entries[k].0), '=', FormEncode(entries[k].1));
    SplitNoSep(FormEncode(entries[k].1), '=');
  }

  // ---------------------------------------------------------------- URLSearchParams

  class SearchParams {
    var entries: seq<(string, string)>

    constructor ()
      ensures entries == []
    {
      entries := [];
    }

    /** `append`: a new pair after the existing ones. */
    method Append(name: string, value: string)
      modifies this
      ensures entries == old(entries) + [(name, value)]
    {
      entries := entries + [(name, value)];
    }

    function ToString(): (r: string)
      reads this
    {
      Serialize(entries)
    }
  }

  // ---------------------------------------------------------------- the handler

  /** The query parameters the proxy reads. */
  datatype Query = Query(reference: Field, maxwidth: Field, maxheight: Field)

  /** The fetch of the photo: a thrown error, or a response with its status and content type. */
  datatype PhotoFetch = FetchThrew(message: string) | FetchDone(ok: bool, status: int, contentType: Field)

  datatype ProxyResponse =
    | JsonError(status: int, error: string, message: Option<string>)
    | Image(contentType: string, cacheControl: string, allowOrigin: string)

  /** The destructuring default: `maxwidth` is `'800'` only when the parameter is absent. */
  function MaxWidth(q: Query): (r: Field)
    ensures q.maxwidth.Undefined? ==> r == Str(DefaultMaxWidth)
    ensures !q.maxwidth.Undefined? ==> r == q.maxwidth
  {
    if q.maxwidth.Undefined? then Str(DefaultMaxWidth) else q.maxwidth
  }

  /** The pairs in the order the handler appends them. */
  function ExpectedParams(q: Query, key: string): (r: seq<(string, string)>)
    requires Truthy(q.reference)
  {
    [("photo_reference", q.reference.s), ("key", key)]
    + (if Truthy(MaxWidth(q)) then [("maxwidth", MaxWidth(q).s)] else [])
    + (if Truthy(q.maxheight) then [("maxheight", q.maxheight.s)] else [])
  }

  const PhotoFailedPrefix := "Google Place Photos API failed: "

  /** What the proxy sends back once the photo fetch has settled. */
  function ResponseFor(f: PhotoFetch): (r: ProxyResponse)
    ensures r.Image? <==> f.FetchDone? && f.ok
    ensures r.JsonError? ==> r.status == 500 && r.error == "INTERNAL_ERROR"
    ensures f.FetchThrew? ==> r.message == Some(f.message)
    ensures f.FetchDone? && !f.ok ==>
      r.message.Some? && IsPrefix(PhotoFailedPrefix, r.message.value)
      && r.message.value[|PhotoFailedPrefix|..] == IntStr(f.status)
  {
    match f
    case FetchThrew(message) => JsonError(500, "INTERNAL_ERROR", Some(message))
    case FetchDone(ok, status, contentType) =>
      if !ok then JsonError(500, "INTERNAL_ERROR", Some(PhotoFailedPrefix + IntStr(status)))
      else Image(if Truthy(contentType) then contentType.s else "image/jpeg", "public, max-age=86400", "*")
  }

  /**
   * The handler: a missing reference is a 400 before the key is looked at, a missing key a
   * 500; otherwise the photo endpoint is fetched with the assembled parameters.
   */
  method Handle(q: Query, googleKey: Field, fetch: string -> PhotoFetch)
    returns (requested: Option<string>, response: ProxyResponse)
    ensures !Truthy(q.reference) ==>
      requested.None? && response == JsonError(400, "Photo reference is required", None)
    ensures Truthy(q.reference) && !Truthy(googleKey) ==>
      requested.None? && response == JsonError(500, "Google Maps API key not configured", None)
    ensures Truthy(q.reference) && Truthy(googleKey) ==>
      requested == Some(Photo + "?" + Serialize(ExpectedParams(q, googleKey.s)))
      && response == ResponseFor(fetch(requested.value))
  {
    if !Truthy(q.reference) {
      return None, JsonError(400, "Photo reference is required", None);
    }
    if !Truthy(googleKey) {
      return None, JsonError(500, "Google Maps API key not configured", None);
    }
    var params := BuildParams(q, googleKey.s);
    var finalUrl := Photo + "?" + params.ToString();
    requested := Some(finalUrl);
    response := ResponseFor(fetch(finalUrl));
  }

  /** The successive `append` calls, the optional ones guarded by truthiness. */
  method BuildParams(q: Query, key: string) returns (params: SearchParams)
    requires Truthy(q.reference)
    ensures fresh(params) && params.entries == ExpectedParams(q, key)
  {
    var maxwidth := MaxWidth(q);
    params := new SearchParams();
    params.Append("photo_reference", q.reference.s);
    params.Append("key", key);
    if Truthy(maxwidth) {
      params.Append("maxwidth", maxwidth.s);
    }
    if Truthy(q.maxheight) {
      params.Append("maxheight", q.maxheight.s);
    }
  }

  /** Reference and key always lead, in that order; `maxheight`, when present, comes last. */
  lemma ParamOrder(q: Query, key: string)
    requires Truthy(q.reference)
    ensures var ps := ExpectedParams(q, key);
      2 <= |ps| <= 4 && ps[0] == ("photo_reference", q.reference.s) && ps[1] == ("key", key)
      && (Truthy(q.maxheight) <==> ps[|ps| - 1].0 == "maxheight")
      && (Truthy(q.maxheight) ==> ps[|ps| - 1].1 == q.maxheight.s)
  {
  }

  /** `maxwidth` defaults to 800; it is dropped only when given empty, and `maxheight` only when not given. */
  lemma OptionalParams(q: Query, key: string)
    requires Truthy(q.reference)
    ensures q.maxwidth.Undefined? ==> ExpectedParams(q, key)[2] == ("maxwidth", "800")
    ensures (exists k :: 0 <= k < |ExpectedParams(q, key)| && ExpectedParams(q, key)[k].0 == "maxwidth")
      <==> Truthy(MaxWidth(q))
    ensures (exists k :: 0 <= k < |ExpectedParams(q, key)| && ExpectedParams(q, key)[k].0 == "maxheight")
      <==> Truthy(q.maxheight)
  {
    var ps := ExpectedParams(q, key);
    if Truthy(MaxWidth(q)) {
      assert ps[2].0 == "maxwidth";
    }
    if Truthy(q.maxheight) {
      assert ps[|ps| - 1].0 == "maxheight";
    }
  }

  /**
   * With the pairs of a request (`ParamOrder` gives their first two), the first piece of the
   * query string splits into the literal name `photo_reference` and the encoded reference.
   */
  lemma ReferencePair(ps: seq<(string, string)>, reference: string)
    requires 2 <= |ps| && ps[0] == ("photo_reference", reference)
    ensures SplitOn(Pieces(ps)[0], "=") == ["photo_reference", FormEncode(reference)]
  {
    SerializeSplits(ps, 0);
    ReferenceNameSafe();
  }

  /** The second piece of the query string splits into the literal name `key` and the encoded key. */
  lemma KeyPair(ps: seq<(string, string)>, key: string)
    requires 2 <= |ps| && ps[1] == ("key", key)
    ensures SplitOn(Pieces(ps)[1], "=") == ["key", FormEncode(key)]
  {
    SerializeSplits(ps, 1);
    KeyNameSafe();
  }

  lemma NamesWrittenAsGiven()
    ensures FormEncode("photo_reference") == "photo_reference" && FormEncode("key") == "key"
  {
    ReferenceNameSafe();
    KeyNameSafe();
  }

  lemma ReferenceNameSafe()
    ensures FormEncode("photo_reference") == "photo_reference"
  {
    var n := "photo_reference";
    assert forall k :: 0 <= k < |n| ==> IsWordChar(n[k]);
    FormEncodeSafe(n);
  }

  lemma KeyNameSafe()
    ensures FormEncode("key") == "key"
  {
    var m := "key";
    assert forall k :: 0 <= k < |m| ==> IsWordChar(m[k]);
    FormEncodeSafe(m);
  }
}
