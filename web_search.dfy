/**
 * The response post-processing of `web_search` (web_search.py): decode the JSON payload
 * the search API put in the first choice's message, fall back to the raw text when it is
 * not JSON, fall back to the envelope's `search_results` when there are no sources, and
 * cut the sources to `max_results`. The HTTP request is not modelled, and neither is the
 * JSON decoder: `decode` stands for `json.loads`, with `None` for a `JSONDecodeError`.
 */
module WebSearch {
  import opened Wrappers
  import PySeq

  /** A JSON value; numbers are modelled as integers. */
  datatype Json =
    | JNull
    | JBool(b: bool)
    | JNumber(n: int)
    | JString(s: string)
    | JArray(items: seq<Json>)
    | JObject(fields: map<string, Json>)

  /** Python truthiness of a decoded JSON value. */
  predicate Truthy(j: Json)
  {
    match j
    case JNull => false
    case JBool(b) => b
    case JNumber(n) => n != 0
    case JString(s) => s != ""
    case JArray(items) => items != []
    case JObject(fields) => fields != map[]
  }

  /** `d.get(key)`: `None` when the key is missing. */
  function Get(d: map<string, Json>, key: string): Option<Json>
  {
    if key in d then Some(d[key]) else None
  }

  /** `d.get(key)` as a JSON value, Python's `None` becoming `null`. */
  function GetOrNull(d: map<string, Json>, key: string): Json
  {
    if key in d then d[key] else JNull
  }

  /**
   * The API's reply: the first choice's message content, and the `search_results` hits
   * (`None` when the key is absent or null; each hit a JSON object).
   */
  datatype Envelope = Envelope(content: string, searchResults: Option<seq<map<string, Json>>>)

  /** The ways the post-processing raises on a reply that decodes. */
  datatype SearchError =
    | NotAnObject          // the payload is JSON but not an object: `parsed.get` raises AttributeError
    | SourcesNotSliceable  // `sources` is null, a boolean, a number or an object: the slice raises
                         // (TypeError; KeyError for an object on Python 3.12 and later)

  /** The JSON schema the request declares for the reply. */
  function ResponseSchema(): (r: Json)
    ensures r.JObject? && Get(r.fields, "required") == Some(JArray([JString("sources")]))
  {
    var str := JObject(map["type" := JString("string")]);
    var item := JObject(map[
      "type" := JString("object"),
      "properties" := JObject(map["title" := str, "url" := str, "snippet" := str]),
      "required" := JArray([JString("url")])]);
    JObject(map[
      "type" := JString("object"),
      "properties" := JObject(map[
        "summary" := str,
        "sources" := JObject(map["type" := JString("array"), "items" := item])]),
      "required" := JArray([JString("sources")])])
  }

  /** Every source item the schema describes must carry a `url`. */
  lemma SchemaRequiresUrlInEverySource()
    ensures var props := ResponseSchema().fields["properties"];
      && props.JObject? && "sources" in props.fields
      && var sources := props.fields["sources"];
      && sources.JObject? && "items" in sources.fields
      && var item := sources.fields["items"];
      && item.JObject? && Get(item.fields, "required") == Some(JArray([JString("url")]))
  {
  }

  /** `obj[:stop]` on the final value of `sources`: only lists and strings can be sliced. */
  function SliceSources(j: Json, stop: int): Result<Json, SearchError>
  {
    match j
    case JArray(items) => Ok(JArray(PySeq.Prefix(items, stop)))
    case JString(s) => Ok(JString(PySeq.Prefix(s, stop)))
    case _ => Err(SourcesNotSliceable)
  }

  /** The source record built from one search hit: its title and url, and an empty snippet. */
  function FallbackSource(hit: map<string, Json>): Json
  {
    JObject(map["title" := GetOrNull(hit, "title"), "url" := GetOrNull(hit, "url"), "snippet" := JString("")])
  }

  /** The payload before the fallbacks: the decoded object, or the raw text with no sources. */
  function Parsed(env: Envelope, decode: string -> Option<Json>): Result<map<string, Json>, SearchError>
  {
    match decode(env.content)
    case None => Ok(map["summary" := JString(env.content), "sources" := JArray([])])
    case Some(JObject(fields)) => Ok(fields)
    case Some(_) => Err(NotAnObject)
  }

  /** Whether the `search_results` fallback replaces the sources. */
  predicate UsesFallback(parsed: map<string, Json>, env: Envelope)
  {
    && !(Get(parsed, "sources").Some? && Truthy(parsed["sources"]))
    && env.searchResults.Some? && env.searchResults.value != []
  }

  /** What `web_search` returns (or raises) for a given reply. */
  function SearchResult(env: Envelope, decode: string -> Option<Json>, maxResults: int): Result<map<string, Json>, SearchError>
  {
    match Parsed(env, decode)
    case Err(e) => Err(e)
    case Ok(parsed) =>
      var withFallback :=
        if UsesFallback(parsed, env) then
          var hits := PySeq.Prefix(env.searchResults.value, maxResults);
          parsed["sources" := JArray(seq(|hits|, i requires 0 <= i < |hits| => FallbackSource(hits[i])))]
        else parsed;
      match SliceSources(if "sources" in withFallback then withFallback["sources"] else JArray([]), maxResults)
      case Err(e) => Err(e)
      case Ok(sources) => Ok(withFallback["sources" := sources])
  }

  /** The post-processing steps of `web_search`, in the order the code takes them. */
  method PostProcess(env: Envelope, decode: string -> Option<Json>, maxResults: int)
    returns (result: Result<map<string, Json>, SearchError>)
    ensures result == SearchResult(env, decode, maxResults)
  {
    var parsed: map<string, Json>;
    var decoded := decode(env.content);
    if decoded.None? {
      parsed := map["summary" := JString(env.content), "sources" := JArray([])];
    } else if !decoded.value.JObject? {
      return Err(NotAnObject);
    } else {
      parsed := decoded.value.fields;
    }
    assert Parsed(env, decode) == Ok(parsed);
    ghost var before := parsed;
    var current := Get(parsed, "sources");
    if !(current.Some? && Truthy(current.value)) && env.searchResults.Some? && env.searchResults.value != [] {
      var hits := PySeq.Prefix(env.searchResults.value, maxResults);
      var fallback: seq<Json> := [];
      for i := 0 to |hits|
        invariant |fallback| == i
        invariant forall k :: 0 <= k < i ==> fallback[k] == FallbackSource(hits[k])
      {
        var hit := hits[i];
        fallback := fallback + [JObject(map["title" := GetOrNull(hit, "title"), "url" := GetOrNull(hit, "url"), "snippet" := JString("")])];
      }
      assert fallback == seq(|hits|, i requires 0 <= i < |hits| => FallbackSource(hits[i]));
      parsed := parsed["sources" := JArray(fallback)];
    }
    assert UsesFallback(before, env) || parsed == before;
    var sources := if "sources" in parsed then parsed["sources"] else JArray([]);
    match sources {
      case JArray(items) =>
        parsed := parsed["sources" := JArray(PySeq.Prefix(items, maxResults))];
      case JString(s) =>
        parsed := parsed["sources" := JString(PySeq.Prefix(s, maxResults))];
      case _ =>
        return Err(SourcesNotSliceable);
    }
    result := Ok(parsed);
  }

  /** The length of a sliceable `sources` value. */
  function SourcesCount(j: Json): nat
  {
    match j
    case JArray(items) => |items|
    case JString(s) => |s|
    case _ => 0
  }

  /** On success the returned `sources` is a list (or string) of at most `max_results` entries. */
  lemma SourcesBounded(env: Envelope, decode: string -> Option<Json>, maxResults: int)
    requires maxResults >= 0
    requires SearchResult(env, decode, maxResults).Ok?
    ensures var r := SearchResult(env, decode, maxResults).value;
      && "sources" in r
      && (r["sources"].JArray? || r["sources"].JString?)
      && SourcesCount(r["sources"]) <= maxResults
  {
  }

  /**
   * Only the `sources` key changes: every other key of the decoded payload (or of the
   * raw-text stand-in) is returned as it was, and no key is added or dropped but `sources`.
   */
  lemma OnlySourcesChange(env: Envelope, decode: string -> Option<Json>, maxResults: int)
    requires SearchResult(env, decode, maxResults).Ok?
    ensures Parsed(env, decode).Ok?
    ensures var before := Parsed(env, decode).value; var after := SearchResult(env, decode, maxResults).value;
      && after.Keys == before.Keys + {"sources"}
      && forall k :: k in before && k != "sources" ==> after[k] == before[k]
  {
  }

  /** A payload that is not JSON, with no usable search hits, yields the raw text and no sources. */
  lemma UndecodableWithoutHits(env: Envelope, decode: string -> Option<Json>, maxResults: int)
    requires decode(env.content).None?
    requires env.searchResults.None? || env.searchResults.value == []
    ensures SearchResult(env, decode, maxResults) == Ok(map["summary" := JString(env.content), "sources" := JArray([])])
  {
    var none: seq<Json> := [];
    assert PySeq.Prefix(none, maxResults) == [];
    var m := map["summary" := JString(env.content), "sources" := JArray([])];
    assert m["sources" := JArray([])] == m;
  }

  /** Non-empty decoded sources take precedence: `search_results` is ignored and the list is cut in order. */
  lemma DecodedSourcesWin(env: Envelope, decode: string -> Option<Json>, maxResults: int, fields: map<string, Json>, items: seq<Json>)
    requires decode(env.content) == Some(JObject(fields))
    requires Get(fields, "sources") == Some(JArray(items)) && items != []
    ensures SearchResult(env, decode, maxResults) == Ok(fields["sources" := JArray(PySeq.Prefix(items, maxResults))])
  {
  }

  /**
   * When the decoded sources are missing or falsy and there are search hits, the sources are
   * built from the first `max_results` hits, in order, each with its title and url and an
   * empty snippet.
   */
  lemma FallbackFromSearchResults(env: Envelope, decode: string -> Option<Json>, maxResults: int)
    requires maxResults >= 0
    requires Parsed(env, decode).Ok? && UsesFallback(Parsed(env, decode).value, env)
    ensures SearchResult(env, decode, maxResults).Ok?
    ensures var hits := env.searchResults.value;
      var sources := SearchResult(env, decode, maxResults).value["sources"];
      && sources.JArray?
      && |sources.items| == (if maxResults < |hits| then maxResults else |hits|)
      && forall i :: 0 <= i < |sources.items| ==>
           sources.items[i] == FallbackSource(hits[i])
           && sources.items[i].fields["snippet"] == JString("")
  {
    var hits := PySeq.Prefix(env.searchResults.value, maxResults);
    var fallback := seq(|hits|, i requires 0 <= i < |hits| => FallbackSource(hits[i]));
    assert PySeq.Prefix(fallback, maxResults) == fallback;
  }

  /**
   * The post-processing raises only in two cases: the payload decodes to something other
   * than an object, or the `sources` value it ends with cannot be sliced.
   */
  lemma ErrorsExactly(env: Envelope, decode: string -> Option<Json>, maxResults: int)
    ensures SearchResult(env, decode, maxResults) == Err(NotAnObject)
      <==> decode(env.content).Some? && !decode(env.content).value.JObject?
    ensures SearchResult(env, decode, maxResults) == Err(SourcesNotSliceable)
      <==> && decode(env.content).Some? && decode(env.content).value.JObject?
           && var fields := decode(env.content).value.fields;
           && !UsesFallback(fields, env)
           && "sources" in fields && !fields["sources"].JArray? && !fields["sources"].JString?
  {
  }

  /** A payload `{"sources": null}` with no search hits makes `web_search` raise. */
  lemma NullSourcesRaise(env: Envelope, decode: string -> Option<Json>, maxResults: int)
    requires decode(env.content) == Some(JObject(map["sources" := JNull]))
    requires env.searchResults.None?
    ensures SearchResult(env, decode, maxResults) == Err(SourcesNotSliceable)
  {
  }
}
