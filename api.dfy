/** The result model and request construction of lib/api.ts: the two result shapes a
    search can return, the structural type guards that tell them apart, the envelope
    every endpoint answers with, and the URLs of the three endpoints. */
module Api {
  import opened Optional

  /** The properties a decoded result object may carry. */
  datatype Field = Id | Title | Source | WebpageUrl | Uris | Size | UploadDate | Snippet

  /** A result object decoded from JSON: the set of properties it carries and their
      values. The value of a property that is not present is never read. */
  datatype Game = Game(
    present: set<Field>,
    id: string,
    title: string,
    source: string,
    webpageUrl: string,
    uris: seq<string>,
    size: string,
    uploadDate: string,
    snippet: string)

  /** The fields a TraditionalGame declares. */
  const TraditionalFields: set<Field> := {Id, Title, Source, WebpageUrl, Uris, Size, UploadDate}

  /** The fields a GoogleGame declares. */
  const GoogleFields: set<Field> := {Title, WebpageUrl, Source, Snippet}

  /** The value has the shape of the `Game` union: all fields of one of its members. */
  predicate ConformsToGame(g: Game) {
    TraditionalFields <= g.present || GoogleFields <= g.present
  }

  /** `isTraditionalGame`: the properties `id`, `size` and `uploadDate` are present. */
  predicate IsTraditional(g: Game) {
    Id in g.present && Size in g.present && UploadDate in g.present
  }

  /** `isGoogleGame`: the property `snippet` is present. */
  predicate IsGoogle(g: Game) {
    Snippet in g.present
  }

  /** A value is traditional exactly when its fields include the three that mark it. */
  lemma TraditionalIffMarkers(g: Game)
    ensures IsTraditional(g) <==> {Id, Size, UploadDate} <= g.present
  {
    if {Id, Size, UploadDate} <= g.present {
      assert Id in {Id, Size, UploadDate};
      assert Size in {Id, Size, UploadDate};
      assert UploadDate in {Id, Size, UploadDate};
    }
  }

  /** Missing any one of the three marking fields makes a value non-traditional, even
      when the other two are there. */
  lemma MissingMarkerNotTraditional(g: Game, f: Field)
    requires f == Id || f == Size || f == UploadDate
    requires f !in g.present
    ensures !IsTraditional(g)
  {
  }

  /** The guards read which fields are present and nothing else: two values with the
      same fields are classified alike whatever their contents. */
  lemma GuardsIgnoreValues(g: Game, h: Game)
    requires g.present == h.present
    ensures IsTraditional(g) == IsTraditional(h) && IsGoogle(g) == IsGoogle(h)
  {
  }

  /** Every value of the `Game` union passes at least one guard. */
  lemma ConformingIsClassified(g: Game)
    requires ConformsToGame(g)
    ensures IsTraditional(g) || IsGoogle(g)
  {
    if TraditionalFields <= g.present {
      assert Id in TraditionalFields && Size in TraditionalFields && UploadDate in TraditionalFields;
    } else {
      assert Snippet in GoogleFields;
    }
  }

  /** The guards do not partition the values: one value can pass both and another
      neither; the second is a TraditionalGame whose upload date was left out. */
  lemma GuardsNotExclusive()
    ensures exists g :: IsTraditional(g) && IsGoogle(g)
    ensures exists g :: !IsTraditional(g) && !IsGoogle(g) && TraditionalFields - {UploadDate} <= g.present
  {
    var both := Game({Id, Size, UploadDate, Snippet}, "1", "X", "Y", "z", [], "2GB", "2024-01-01", "...");
    assert IsTraditional(both) && IsGoogle(both);
    var partial := Game(TraditionalFields - {UploadDate}, "1", "X", "Y", "z", [], "2GB", "", "");
    assert UploadDate !in partial.present;
    assert !IsTraditional(partial) && !IsGoogle(partial);
  }

  /** The two search back ends. */
  datatype Mode = Meili | Google

  /** `ServiceResponse<T>`: the JSON envelope every endpoint answers with. */
  datatype ServiceResponse<T> = ServiceResponse(
    success: bool, message: string, responseObject: Option<T>, statusCode: int)

  /** What awaiting a request yields: the decoded envelope, or a thrown error (the
      server unreachable, a body that is not JSON). */
  datatype Fetched<T> = Responded(response: ServiceResponse<T>) | TransportError

  /** A search request: which endpoint, and the query text handed to the encoder. */
  datatype SearchRequest = SearchRequest(mode: Mode, query: string)

  function SearchPath(mode: Mode): string {
    match mode
    case Meili => "/games/search"
    case Google => "/games/search/google"
  }

  /** The URL `searchMeili` and `searchGoogle` fetch; `enc` stands for
      `encodeURIComponent`. */
  function SearchUrl(base: string, r: SearchRequest, enc: string -> string): string {
    base + SearchPath(r.mode) + "?q=" + enc(r.query)
  }

  /** The URL `syncDatabase` posts to. */
  function SyncUrl(base: string): (url: string)
    ensures |url| == |base| + 11 && url[..|base|] == base && url[|base|..] == "/games/sync"
  {
    base + "/games/sync"
  }

  /** The sync endpoint is never one of the search endpoints, whatever the query. */
  lemma SyncUrlIsNotSearch(base: string, r: SearchRequest, enc: string -> string)
    ensures SyncUrl(base) != SearchUrl(base, r, enc)
  {
    assert SyncUrl(base)[|base| + 8] == 'y';
    assert SearchUrl(base, r, enc)[|base| + 8] == 'e';
  }

  /** The web-search URL is the index-search URL with "/google" inserted right after
      "/games/search". */
  lemma GoogleUrlInsertsSegment(base: string, q: string, enc: string -> string)
    ensures var m := SearchUrl(base, SearchRequest(Meili, q), enc);
            var k := |base| + |"/games/search"|;
            SearchUrl(base, SearchRequest(Google, q), enc) == m[..k] + "/google" + m[k..]
  {
    var m := SearchUrl(base, SearchRequest(Meili, q), enc);
    var k := |base| + |"/games/search"|;
    assert m[..k] == base + "/games/search";
    assert m[k..] == "?q=" + enc(q);
  }

  /** A search URL tells which endpoint it is for and which encoded query it carries. */
  lemma SearchUrlInjective(base: string, r1: SearchRequest, r2: SearchRequest, enc: string -> string)
    requires SearchUrl(base, r1, enc) == SearchUrl(base, r2, enc)
    ensures r1.mode == r2.mode && enc(r1.query) == enc(r2.query)
  {
    var u := SearchUrl(base, r1, enc);
    var k := |base| + |"/games/search"|;
    assert u[k] == (if r1.mode == Meili then '?' else '/');
    assert u[k] == (if r2.mode == Meili then '?' else '/');
    var n := |base| + |SearchPath(r1.mode)| + 3;
    assert u[n..] == enc(r1.query);
    assert u[n..] == enc(r2.query);
  }
}
