/** The behaviours the repository's client tests exercise (tests/client.test.ts), stated
    as facts about the model, together with the edge cases of the inclusion rules. */
module Scenarios {
  import opened Wrappers
  import opened Json
  import opened Types
  import opened Filters
  import opened Client

  /** Parameters with only the required fields: site "example.com", the last seven
      days, visitor count. */
  function Basic(): QueryParams {
    QueryParams("example.com", Relative("7d"), [Visitors], None, None, None, None, None, None)
  }

  /** A filter list is sent as nested arrays in its given order (tests/client.test.ts:104-116). */
  lemma FilterListOnTheWire()
    ensures Get(BuildBody(Basic().(filters := Some([Simple(Is, "event:page", ["/home"])]))), "filters")
      == Some(Arr([Arr([Str("is"), Str("event:page"), Arr([Str("/home")])])]))
  {
    var f := Simple(Is, "event:page", ["/home"]);
    BodyLookup(Basic().(filters := Some([f])), "filters");
    assert EncodeStrings(["/home"]) == [Str("/home")];
    assert EncodeFilter(f) == Arr([Str("is"), Str("event:page"), Arr([Str("/home")])]);
    assert EncodeFilters([f]) == [EncodeFilter(f)];
  }

  /** A logical filter keeps its tag first and its subfilters as an array
      (tests/client.test.ts:131-156). */
  lemma LogicalFilterOnTheWire(subs: seq<Filter>)
    ensures Get(BuildBody(Basic().(filters := Some([Logical(And, subs)]))), "filters")
      == Some(Arr([Arr([Str("and"), Arr(EncodeFilters(subs))])]))
  {
    var f := Logical(And, subs);
    BodyLookup(Basic().(filters := Some([f])), "filters");
    assert EncodeFilter(f) == Arr([Str("and"), Arr(EncodeFilters(subs))]);
    assert EncodeFilters([f]) == [EncodeFilter(f)];
  }

  /** Pagination values are sent as given (tests/client.test.ts:177-190). */
  lemma PaginationOnTheWire()
    ensures var p := Basic().(limit := Some(10), offset := Some(20));
      Get(BuildBody(p), "limit") == Some(Num(10)) && Get(BuildBody(p), "offset") == Some(Num(20))
  {
    var p := Basic().(limit := Some(10), offset := Some(20));
    BodyLookup(p, "limit");
    BodyLookup(p, "offset");
  }

  /** The ordering pair is sent as `[field, direction]` (tests/client.test.ts:211-222). */
  lemma OrderByOnTheWire()
    ensures Get(BuildBody(Basic().(orderBy := Some(OrderBy("visitors", Desc)))), "order_by")
      == Some(Arr([Str("visitors"), Str("desc")]))
  {
    BodyLookup(Basic().(orderBy := Some(OrderBy("visitors", Desc))), "order_by");
  }

  /** `limit = 0`, `offset = 0` and `include_imported = false` are falsy in JavaScript
      but are still sent, because the guards compare with `undefined`. */
  lemma FalsyScalarsAreSent(p: QueryParams)
    requires p.limit == Some(0) && p.offset == Some(0) && p.includeImported == Some(false)
    ensures Get(BuildBody(p), "limit") == Some(Num(0))
    ensures Get(BuildBody(p), "offset") == Some(Num(0))
    ensures Get(BuildBody(p), "include_imported") == Some(Bool(false))
  {
    BodyLookup(p, "limit");
    BodyLookup(p, "offset");
    BodyLookup(p, "include_imported");
  }

  /** An empty dimension or filter list is not sent, and gives the same body as leaving
      the list out. */
  lemma EmptyListsAreNotSent(p: QueryParams)
    requires p.dimensions == Some([]) || p.filters == Some([])
    ensures p.dimensions == Some([]) ==> "dimensions" !in Keys(BuildBody(p))
    ensures p.filters == Some([]) ==> "filters" !in Keys(BuildBody(p))
    ensures p.dimensions == Some([]) ==> BuildBody(p) == BuildBody(p.(dimensions := None))
    ensures p.filters == Some([]) ==> BuildBody(p) == BuildBody(p.(filters := None))
  {
    BodyKeyList(p);
    assert "dimensions" in Keys(BuildBody(p)) <==> Supplied(p.dimensions);
    assert "filters" in Keys(BuildBody(p)) <==> Supplied(p.filters);
    if p.dimensions == Some([]) {
      BodyDeterminedByNormalForm(p, p.(dimensions := None));
    }
    if p.filters == Some([]) {
      BodyDeterminedByNormalForm(p, p.(filters := None));
    }
  }

  /** With only the required fields, the body is exactly three members. */
  lemma BasicBody()
    ensures BuildBody(Basic()) == [
      Member("site_id", Str("example.com")),
      Member("date_range", Str("7d")),
      Member("metrics", Arr([Str("visitors")]))]
  {
    var p := Basic();
    assert EncodeMetrics([Visitors]) == [Str("visitors")];
    assert RequiredMembers(p) == [
      Member("site_id", Str("example.com")),
      Member("date_range", Str("7d")),
      Member("metrics", Arr([Str("visitors")]))];
    assert DimensionsField(p) == [] && FiltersField(p) == [] && OrderByField(p) == [];
    assert LimitField(p) == [] && OffsetField(p) == [] && IncludeImportedField(p) == [];
  }

  /** The key is sent as a bearer credential (tests/client.test.ts:241-253). */
  lemma AuthorizationHeader()
    ensures HeaderValue(Headers(NewClient(PlausibleConfig("my-secret-key", None))), "Authorization")
      == Some("Bearer my-secret-key")
  {
    assert BearerPrefix + "my-secret-key" == "Bearer my-secret-key";
  }

  /** A custom base URL replaces the production host (tests/client.test.ts:268-286). */
  lemma CustomBaseUrl()
    ensures TargetUrl(NewClient(PlausibleConfig("test-key", Some("https://custom.plausible.io"))))
      == "https://custom.plausible.io/api/v2/query"
  {
    assert "https://custom.plausible.io" + QueryPath == "https://custom.plausible.io/api/v2/query";
  }

  /** A 400 reply `{"error": "Invalid API key"}` becomes a `PlausibleApiError` whose
      message is the server's text alone: the code adds no "Plausible API error: "
      prefix, although tests/client.test.ts:310 expects one. */
  lemma ApiErrorMessageIsVerbatim()
    ensures ClassifyResponse(Reply(400, Some(ErrorPayload("Invalid API key"))))
      == Rejected(PlausibleApiError(ApiErrorName, "Invalid API key", 400, Some(ErrorPayload("Invalid API key"))))
    ensures ClassifyResponse(Reply(400, Some(ErrorPayload("Invalid API key")))).error.message
      != "Plausible API error: Invalid API key"
  {
    ErrorMessageRoundTrip("Invalid API key", [], []);
  }

  /** A fetch that fails in transport makes `query` fail with that same failure
      (tests/client.test.ts:342-363). */
  lemma NetworkErrorPropagates(c: PlausibleClient, p: QueryParams)
    ensures Query(c, p, _ => Failed("Network error")) == Propagated(NetworkFault("Network error"))
  {
  }

  /** A success reply is returned as received, whatever its status within 2xx. */
  lemma SuccessBodyReturnedUnchanged(c: PlausibleClient, p: QueryParams, status: int, body: Json)
    requires IsOk(status)
    ensures Query(c, p, _ => Answered(Reply(status, Some(body)))) == Returned(body)
  {
  }
}
