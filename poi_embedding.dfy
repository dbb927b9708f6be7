/** The POI catalogue service: loading the catalogue once, the document text and metadata
    stored for each POI, and the shaping of similarity-search results. Reading the catalogue
    file, the embedding check and the vector search are parameters. */
module PoiEmbedding {
  import opened Wrappers
  import opened Text

  /** One catalogue entry. Rating, ticket price and hours are kept as the text they render to. */
  datatype Poi = Poi(
    id: string,
    name: string,
    kind: string,
    address: string,
    rating: string,
    ticketPrice: string,
    businessHours: string,
    tags: seq<string>,
    description: string)

  /** The metadata stored beside a POI's vector: its fields, with the tags as one string. */
  datatype PoiMetadata = PoiMetadata(
    id: string,
    name: string,
    kind: string,
    address: string,
    rating: string,
    ticketPrice: string,
    businessHours: string,
    tags: string)

  /** The metadata of a POI. */
  function CreatePoiMetadata(poi: Poi): (m: PoiMetadata)
    ensures m.id == poi.id && m.name == poi.name && m.kind == poi.kind && m.address == poi.address
    ensures m.rating == poi.rating && m.ticketPrice == poi.ticketPrice && m.businessHours == poi.businessHours
    ensures m.tags == Join(poi.tags, ", ")
  {
    PoiMetadata(poi.id, poi.name, poi.kind, poi.address, poi.rating, poi.ticketPrice,
                poi.businessHours, Join(poi.tags, ", "))
  }

  /** Metadata keeps every field but the description and the split of the tags: two POIs have
      the same metadata exactly when they agree on everything else. */
  lemma MetadataForgetsOnlyDescription(p: Poi, q: Poi)
    ensures CreatePoiMetadata(p) == CreatePoiMetadata(q) <==>
              p.(description := q.description, tags := q.tags) == q && Join(p.tags, ", ") == Join(q.tags, ", ")
  {
  }

  /** The indentation of the document template's lines. */
  const Indent: string := "\n        "
  /** The line that introduces the description. */
  const DescriptionMarker: string := "详细介绍:"

  /** The document template before the description is filled in. */
  function DocumentHead(poi: Poi): string {
    Indent + poi.name + " - " + poi.kind
    + Indent + "地址: " + poi.address
    + Indent + "评分: " + poi.rating
    + Indent + "门票: " + poi.ticketPrice + "元"
    + Indent + "营业时间: " + poi.businessHours
    + Indent + "标签: " + Join(poi.tags, ", ")
    + Indent
    + Indent + DescriptionMarker
    + Indent
  }

  /** The document text of a POI: the filled-in template, stripped. */
  function CreatePoiDocument(poi: Poi): (doc: string)
    ensures Trimmed(doc)
  {
    Strip(DocumentHead(poi) + poi.description + Indent)
  }

  /** The template ends with the marker line and the indentation of the description. */
  lemma DocumentHeadEnds(poi: Poi)
    ensures EndsWith(DocumentHead(poi), DescriptionMarker + Indent)
  {
    var head := DocumentHead(poi);
    assert head[|head| - |DescriptionMarker + Indent|..] == DescriptionMarker + Indent;
  }

  /** The document closes with the marker line and then the description, less its trailing
      whitespace; a blank description leaves the marker last. */
  lemma {:induction false} DocumentEndsWithDescription(poi: Poi)
    ensures RStrip(poi.description) != "" ==>
              EndsWith(CreatePoiDocument(poi), DescriptionMarker + Indent + RStrip(poi.description))
    ensures RStrip(poi.description) == "" ==> EndsWith(CreatePoiDocument(poi), DescriptionMarker)
  {
    DocumentHeadEnds(poi);
    MarkerThenText(DocumentHead(poi), poi.description);
  }

  /** The same for any template head that ends with the marker line. */
  lemma {:induction false} MarkerThenText(head: string, description: string)
    requires EndsWith(head, DescriptionMarker + Indent)
    ensures RStrip(description) != "" ==>
              EndsWith(Strip(head + description + Indent), DescriptionMarker + Indent + RStrip(description))
    ensures RStrip(description) == "" ==> EndsWith(Strip(head + description + Indent), DescriptionMarker)
  {
    if RStrip(description) != "" {
      MarkerThenFilled(head, description);
    } else {
      MarkerThenBlank(head, description);
    }
  }

  /** The line break and indentation of the template are whitespace. */
  lemma IndentIsSpace()
    ensures AllSpace(Indent)
  {
  }

  /** A description with something besides whitespace: the stripped document ends with the
      marker line, the indentation and the description less its trailing whitespace. */
  lemma {:induction false} MarkerThenFilled(head: string, description: string)
    requires EndsWith(head, DescriptionMarker + Indent)
    requires RStrip(description) != ""
    ensures EndsWith(Strip(head + description + Indent), DescriptionMarker + Indent + RStrip(description))
  {
    var d := RStrip(description);
    var u := description[|d|..];
    var tail := DescriptionMarker + Indent + d;
    assert head + description + Indent == (head + d) + (u + Indent) by {
      assert description == d + u;
    }
    RStripRest(description);
    IndentIsSpace();
    AllSpaceConcat(u, Indent);
    EndsWithAppend(head, DescriptionMarker + Indent, d);
    assert tail[0] == DescriptionMarker[0] && tail[|tail| - 1] == d[|d| - 1];
    StripPadded(head + d, tail, u + Indent);
  }

  /** A blank description: the stripped document ends with the marker line. */
  lemma {:induction false} MarkerThenBlank(head: string, description: string)
    requires EndsWith(head, DescriptionMarker + Indent)
    requires RStrip(description) == ""
    ensures EndsWith(Strip(head + description + Indent), DescriptionMarker)
  {
    var a := head[..|head| - |Indent|];
    assert head == a + Indent;
    assert EndsWith(a, DescriptionMarker) by {
      var m := head[|head| - |DescriptionMarker + Indent|..];
      assert m == DescriptionMarker + Indent;
      assert a[|a| - |DescriptionMarker|..] == m[..|DescriptionMarker|];
    }
    assert head + description + Indent == a + (Indent + description + Indent);
    RStripRest(description);
    IndentIsSpace();
    AllSpaceConcat(Indent, description);
    AllSpaceConcat(Indent + description, Indent);
    StripPadded(a, DescriptionMarker, Indent + description + Indent);
  }

  // ---------------------------------------------------------------------------------------
  // Building the service as written
  // ---------------------------------------------------------------------------------------

  /** The keyword parameters the embedding client's initialiser declares besides `self`: none. */
  const EmbeddingClientParameters: seq<string> := []

  /** The keyword arguments the service passes when it builds its embedding client. */
  const EmbeddingClientArguments: seq<string> := ["api_key"]

  /** Python's binding of keyword arguments: the first argument that no declared parameter
      accepts, or nothing when every argument binds. */
  function UnexpectedKeyword(params: seq<string>, kwargs: seq<string>): (r: Option<string>)
    ensures r.None? <==> forall i :: 0 <= i < |kwargs| ==> kwargs[i] in params
    ensures r.Some? ==> exists i :: 0 <= i < |kwargs| && kwargs[i] == r.value && r.value !in params
                          && forall j :: 0 <= j < i ==> kwargs[j] in params
    decreases |kwargs|
  {
    if |kwargs| == 0 then None
    else if kwargs[0] !in params then Some(kwargs[0])
    else
      var r := UnexpectedKeyword(params, kwargs[1..]);
      assert r.Some? ==> exists i :: 0 <= i < |kwargs[1..]| && kwargs[1..][i] == r.value
                           && forall j :: 0 <= j < i ==> kwargs[1..][j] in params;
      assert forall i :: 0 <= i < |kwargs[1..]| ==> kwargs[1..][i] == kwargs[i + 1];
      r
  }

  /** The outcome of building the service: built, or the TypeError raised for an unexpected
      keyword argument. */
  datatype Construction = Built | TypeError(unexpected: string)

  /** Building the service with the embedding client called on `kwargs`. */
  function Construct(kwargs: seq<string>): (c: Construction)
    ensures c.Built? <==> forall i :: 0 <= i < |kwargs| ==> kwargs[i] in EmbeddingClientParameters
    ensures c.TypeError? ==> c.unexpected in kwargs && c.unexpected !in EmbeddingClientParameters
  {
    var r := UnexpectedKeyword(EmbeddingClientParameters, kwargs);
    if r.Some? then TypeError(r.value) else Built
  }

  /** As written, the service passes `api_key=` to an initialiser that declares no parameter,
      so every construction raises TypeError and no other operation of the service is reached. */
  lemma ConstructionAsWrittenRaises()
    ensures Construct(EmbeddingClientArguments) == TypeError("api_key")
  {
  }

  /** Called without arguments, as its initialiser expects (it reads the key from the
      environment itself), the embedding client binds and the service is built. */
  lemma IntendedConstructionSucceeds()
    ensures Construct([]) == Built
  {
  }

  /** The service, holding the catalogue once it has been loaded. */
  class PoiEmbeddingService {
    var poiDataCache: seq<Poi>
    var cacheLoaded: bool

    /** The service as intended: its embedding client built without arguments (see
        `IntendedConstructionSucceeds`), an empty catalogue cache, not loaded. */
    constructor ()
      ensures poiDataCache == [] && !cacheLoaded
    {
      poiDataCache := [];
      cacheLoaded := false;
    }

    /** The catalogue is served from memory, without opening the file. */
    predicate Cached()
      reads this
    {
      cacheLoaded && poiDataCache != []
    }

    /** The catalogue: from memory when it is loaded and non-empty; otherwise read from the
        file (`file`, `None` when reading or parsing fails), which a successful read caches and
        a failed one leaves untouched, returning []. `readFile` tells whether the file was read. */
    method LoadPoiData(file: Option<seq<Poi>>) returns (data: seq<Poi>, readFile: bool)
      modifies this
      ensures old(Cached()) ==> data == old(poiDataCache) && !readFile && unchanged(this)
      ensures !old(Cached()) && file.Some? ==>
                readFile && data == file.value && poiDataCache == file.value && cacheLoaded
      ensures !old(Cached()) && file.None? ==> readFile && data == [] && unchanged(this)
    {
      if cacheLoaded && poiDataCache != [] {
        return poiDataCache, false;
      }
      readFile := true;
      if file.None? {
        return [], readFile;
      }
      poiDataCache := file.value;
      cacheLoaded := true;
      data := file.value;
    }
  }

  /** After a successful, non-empty load, later loads return the same catalogue without
      reading the file again, whatever the file would now give. */
  method LoadTwice(service: PoiEmbeddingService, first: seq<Poi>, later: Option<seq<Poi>>)
    returns (a: seq<Poi>, b: seq<Poi>, readAgain: bool)
    requires first != []
    modifies service
    ensures !old(service.Cached()) ==> a == first && b == first && !readAgain
  {
    var readFirst;
    a, readFirst := service.LoadPoiData(Some(first));
    b, readAgain := service.LoadPoiData(later);
  }

  /** A hit from the vector store: stored metadata and document, and the distance to the query. */
  datatype VectorHit = VectorHit(metadata: PoiMetadata, document: string, distance: real)

  /** A search result as returned to callers. */
  datatype PoiMatch = PoiMatch(poiInfo: PoiMetadata, description: string, similarityScore: real)

  /** The result for one hit: its metadata and document, and one minus its distance. */
  function FormatHit(hit: VectorHit): (m: PoiMatch)
    ensures m.poiInfo == hit.metadata && m.description == hit.document
    ensures m.similarityScore + hit.distance == 1.0
  {
    PoiMatch(hit.metadata, hit.document, 1.0 - hit.distance)
  }

  /** Searches the catalogue: [] when the embedding check fails or the search raises
      (`search` gives `None`); otherwise one result per hit, in the same order. */
  method SearchPoisByQuery(query: string, nResults: int, embeddingOk: bool,
                           search: (string, int) -> Option<seq<VectorHit>>)
    returns (r: seq<PoiMatch>)
    ensures !embeddingOk || search(query, nResults).None? ==> r == []
    ensures embeddingOk && search(query, nResults).Some? ==>
              var hits := search(query, nResults).value;
              |r| == |hits| && forall i :: 0 <= i < |hits| ==> r[i] == FormatHit(hits[i])
  {
    if !embeddingOk {
      return [];
    }
    var results := search(query, nResults);
    if results.None? {
      return [];
    }
    var hits := results.value;
    var formatted: seq<PoiMatch> := [];
    for i := 0 to |hits|
      invariant |formatted| == i
      invariant forall k :: 0 <= k < i ==> formatted[k] == FormatHit(hits[k])
    {
      formatted := formatted + [FormatHit(hits[i])];
    }
    r := formatted;
  }

  /** Results keep the hits' ranking: a closer hit never scores lower. */
  lemma {:induction false} ScoresFollowDistance(hits: seq<VectorHit>, r: seq<PoiMatch>, i: nat, j: nat)
    requires |r| == |hits| && forall k :: 0 <= k < |hits| ==> r[k] == FormatHit(hits[k])
    requires i < |hits| && j < |hits| && hits[i].distance <= hits[j].distance
    ensures r[i].similarityScore >= r[j].similarityScore
  {
    assert r[i] == FormatHit(hits[i]) && r[j] == FormatHit(hits[j]);
  }
}
