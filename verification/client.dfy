/** The client (src/client.ts): a stateless holder of an API key and a base URL whose one
    operation, `query`, serialises the query parameters into an ordered JSON object,
    POSTs it to `<baseUrl>/api/v2/query`, and either returns the parsed success body
    unchanged or throws a `PlausibleApiError`. The network exchange is a parameter. */
module Client {
  import opened Wrappers
  import opened Json
  import opened Types
  import opened Filters

  const DefaultBaseUrl: string := "https://plausible.io"
  const QueryPath: string := "/api/v2/query"

  datatype PlausibleConfig = PlausibleConfig(apiKey: string, baseUrl: Option<string>)

  datatype PlausibleClient = PlausibleClient(apiKey: string, baseUrl: string)

  /** `new PlausibleClient(config)`: a missing base URL falls back to the production
      host; a supplied one, even the empty string, is kept as given. */
  function NewClient(config: PlausibleConfig): (c: PlausibleClient)
    ensures c.apiKey == config.apiKey
    ensures config.baseUrl.Some? ==> c.baseUrl == config.baseUrl.value
    ensures config.baseUrl.None? ==> c.baseUrl == DefaultBaseUrl
  {
    PlausibleClient(config.apiKey, config.baseUrl.GetOr(DefaultBaseUrl))
  }

  /** Query parameters (src/types.ts:183-202). Only `siteId`, `dateRange` and `metrics`
      are required; `metrics` may be empty, and `limit` and `offset` may be any integer. */
  datatype QueryParams = QueryParams(
    siteId: string,
    dateRange: DateRange,
    metrics: seq<Metric>,
    dimensions: Option<seq<Dimension>>,
    filters: Option<seq<Filter>>,
    orderBy: Option<OrderBy>,
    limit: Option<int>,
    offset: Option<int>,
    includeImported: Option<bool>)

  // ---------------------------------------------------------------------------
  // Wire encodings of the parameter values, each with its reading back.

  /** A relative range is sent as its token, a custom one as the pair `[start, end]`. */
  function EncodeDateRange(d: DateRange): (j: Json)
    ensures j.Str? <==> d.Relative?
    ensures d.Relative? ==> j.s == d.token
    ensures d.Custom? ==> j.Arr? && j.items == [Str(d.start), Str(d.end)]
  {
    match d
    case Relative(token) => Str(token)
    case Custom(start, end) => Arr([Str(start), Str(end)])
  }

  function DecodeDateRange(j: Json): (r: Option<DateRange>)
    ensures r.Some? ==> EncodeDateRange(r.value) == j
  {
    match j
    case Str(token) => Some(Relative(token))
    case Arr(items) =>
      if |items| == 2 && items[0].Str? && items[1].Str? then
        assert items == [items[0], items[1]];
        Some(Custom(items[0].s, items[1].s))
      else None
    case _ => None
  }

  /** Each metric is sent as its API name, in the caller's order. */
  function EncodeMetrics(ms: seq<Metric>): (js: seq<Json>)
    ensures |js| == |ms|
    ensures forall i :: 0 <= i < |ms| ==> js[i] == Str(MetricName(ms[i]))
  {
    if ms == [] then [] else [Str(MetricName(ms[0]))] + EncodeMetrics(ms[1..])
  }

  function DecodeMetrics(js: seq<Json>): (r: Option<seq<Metric>>)
    ensures r.Some? ==> |r.value| == |js|
  {
    if js == [] then Some([])
    else if !js[0].Str? || ParseMetric(js[0].s).None? then None
    else
      match DecodeMetrics(js[1..])
      case None => None
      case Some(rest) => Some([ParseMetric(js[0].s).value] + rest)
  }

  /** Each dimension is sent as its API name, in the caller's order. */
  function EncodeDimensions(ds: seq<Dimension>): (js: seq<Json>)
    ensures |js| == |ds|
    ensures forall i :: 0 <= i < |ds| ==> js[i] == Str(DimensionName(ds[i]))
  {
    if ds == [] then [] else [Str(DimensionName(ds[0]))] + EncodeDimensions(ds[1..])
  }

  function DecodeDimensions(js: seq<Json>): (r: Option<seq<Dimension>>)
    ensures r.Some? ==> |r.value| == |js|
  {
    if js == [] then Some([])
    else if !js[0].Str? || ParseDimension(js[0].s).None? then None
    else
      match DecodeDimensions(js[1..])
      case None => None
      case Some(rest) => Some([ParseDimension(js[0].s).value] + rest)
  }

  /** The ordering is sent as the pair `[field, direction]`. */
  function EncodeOrderBy(o: OrderBy): (j: Json)
    ensures j.Arr? && |j.items| == 2 && j.items[0] == Str(o.field)
    ensures j.items[1].Str? && ParseDirection(j.items[1].s) == Some(o.direction)
  {
    Arr([Str(o.field), Str(DirectionName(o.direction))])
  }

  function DecodeOrderBy(j: Json): (r: Option<OrderBy>)
    ensures r.Some? ==> EncodeOrderBy(r.value) == j
  {
    if j.Arr? && |j.items| == 2 && j.items[0].Str? && j.items[1].Str?
       && ParseDirection(j.items[1].s).Some?
    then
      var d := ParseDirection(j.items[1].s).value;
      assert DirectionName(d) == j.items[1].s by {
        assert ParseDirection(DirectionName(d)) == Some(d);
      }
      Some(OrderBy(j.items[0].s, d))
    else None
  }

  lemma {:induction false} MetricsRoundTrip(ms: seq<Metric>)
    ensures DecodeMetrics(EncodeMetrics(ms)) == Some(ms)
  {
    if ms != [] {
      MetricsRoundTrip(ms[1..]);
      assert EncodeMetrics(ms)[1..] == EncodeMetrics(ms[1..]);
      assert [ms[0]] + ms[1..] == ms;
    }
  }

  lemma {:induction false} DimensionsRoundTrip(ds: seq<Dimension>)
    ensures DecodeDimensions(EncodeDimensions(ds)) == Some(ds)
  {
    if ds != [] {
      DimensionRoundTrip(ds[0], DimensionName(ds[0]));
      DimensionsRoundTrip(ds[1..]);
      assert EncodeDimensions(ds)[1..] == EncodeDimensions(ds[1..]);
      assert [ds[0]] + ds[1..] == ds;
    }
  }

  /** The metric decoder accepts only lists the encoder produces. */
  lemma {:induction false} MetricsCanonical(js: seq<Json>)
    ensures DecodeMetrics(js).Some? ==> EncodeMetrics(DecodeMetrics(js).value) == js
  {
    if js != [] && js[0].Str? {
      MetricTagExact(js[0].s);
      MetricsCanonical(js[1..]);
      if DecodeMetrics(js).Some? {
        var ms := DecodeMetrics(js).value;
        assert ms[1..] == DecodeMetrics(js[1..]).value;
        assert EncodeMetrics(ms) == [Str(MetricName(ms[0]))] + EncodeMetrics(ms[1..]);
        assert js == [js[0]] + js[1..];
      }
    }
  }

  /** The dimension decoder accepts only lists the encoder produces. */
  lemma {:induction false} DimensionsCanonical(js: seq<Json>)
    ensures DecodeDimensions(js).Some? ==> EncodeDimensions(DecodeDimensions(js).value) == js
  {
    if js != [] && js[0].Str? {
      DimensionsCanonical(js[1..]);
      if DecodeDimensions(js).Some? {
        var ds := DecodeDimensions(js).value;
        DimensionRoundTrip(ds[0], js[0].s);
        assert ds[1..] == DecodeDimensions(js[1..]).value;
        assert EncodeDimensions(ds) == [Str(DimensionName(ds[0]))] + EncodeDimensions(ds[1..]);
        assert js == [js[0]] + js[1..];
      }
    }
  }

  // ---------------------------------------------------------------------------
  // The request body (src/client.ts:27-55).

  /** The nine keys the body may carry, in the order the code inserts them. */
  const BodyKeys: seq<string> := [
    "site_id", "date_range", "metrics", "dimensions", "filters",
    "order_by", "limit", "offset", "include_imported"
  ]

  /** `xs` is `ys` with some elements left out, the rest kept in order. */
  predicate Subsequence(xs: seq<string>, ys: seq<string>)
    decreases ys
  {
    if ys == [] then xs == []
    else (xs != [] && xs[0] == ys[0] && Subsequence(xs[1..], ys[1..])) || Subsequence(xs, ys[1..])
  }

  /** Leaving out elements of a list without repetitions cannot create one, nor an
      element that was not there. */
  lemma {:induction false} SubsequenceOfDistinct(xs: seq<string>, ys: seq<string>)
    requires Subsequence(xs, ys) && Distinct(ys)
    ensures Distinct(xs)
    ensures forall x :: x in xs ==> x in ys
    decreases ys
  {
    if ys != [] {
      assert Distinct(ys[1..]) by {
        forall i, j | 0 <= i < j < |ys[1..]| ensures ys[1..][i] != ys[1..][j] {
          assert ys[1..][i] == ys[i + 1] && ys[1..][j] == ys[j + 1];
        }
      }
      if xs != [] && xs[0] == ys[0] && Subsequence(xs[1..], ys[1..]) {
        SubsequenceOfDistinct(xs[1..], ys[1..]);
        assert xs == [xs[0]] + xs[1..];
        forall x | x in xs ensures x in ys {
          if x != xs[0] {
            assert x in xs[1..];
          }
        }
        forall i, j | 0 <= i < j < |xs| ensures xs[i] != xs[j] {
          if i == 0 {
            assert xs[j] in xs[1..];
            assert xs[j] in ys[1..];
            var k :| 0 <= k < |ys[1..]| && ys[1..][k] == xs[j];
            assert ys[k + 1] == xs[j];
          } else {
            assert xs[1..][i - 1] == xs[i] && xs[1..][j - 1] == xs[j];
          }
        }
      } else {
        SubsequenceOfDistinct(xs, ys[1..]);
      }
    }
  }

  /** A list is sent only when it is present and non-empty: the code tests
      `xs && xs.length > 0`. */
  predicate Supplied<T>(xs: Option<seq<T>>) {
    xs.Some? && |xs.value| > 0
  }

  /** Which keys the body carries: the three required ones always, the two lists when
      supplied, the other four whenever they are not undefined (so `limit = 0`,
      `offset = 0` and `include_imported = false` are sent). */
  predicate Sent(p: QueryParams, k: string)
    ensures Sent(p, k) ==> k in BodyKeys
  {
    || k == "site_id" || k == "date_range" || k == "metrics"
    || (k == "dimensions" && Supplied(p.dimensions))
    || (k == "filters" && Supplied(p.filters))
    || (k == "order_by" && p.orderBy.Some?)
    || (k == "limit" && p.limit.Some?)
    || (k == "offset" && p.offset.Some?)
    || (k == "include_imported" && p.includeImported.Some?)
  }

  /** The key list `[k]` when `present`, else the empty list. */
  function When(present: bool, k: string): seq<string> {
    if present then [k] else []
  }

  lemma {:induction false} SubsequenceReflexive(xs: seq<string>)
    ensures Subsequence(xs, xs)
    decreases xs
  {
    if xs != [] {
      SubsequenceReflexive(xs[1..]);
    }
  }

  /** Keeping or dropping a new last element preserves being a subsequence. */
  lemma {:induction false} AppendWhen(xs: seq<string>, ys: seq<string>, present: bool, y: string)
    requires Subsequence(xs, ys)
    ensures Subsequence(xs + When(present, y), ys + [y])
    decreases ys
  {
    var w := When(present, y);
    if ys == [] {
      assert Subsequence([], []);
      assert xs + w == w;
      assert ([y])[1..] == [];
    } else {
      assert (ys + [y])[1..] == ys[1..] + [y];
      if xs != [] && xs[0] == ys[0] && Subsequence(xs[1..], ys[1..]) {
        AppendWhen(xs[1..], ys[1..], present, y);
        assert (xs + w)[1..] == xs[1..] + w;
      } else {
        AppendWhen(xs, ys[1..], present, y);
      }
    }
  }

  /** The keys of the body, as the guards of src/client.ts:27-55 select them. */
  function SentKeys(p: QueryParams): (ks: seq<string>)
    ensures forall k :: k in ks <==> Sent(p, k)
  {
    ["site_id", "date_range", "metrics"]
      + When(Supplied(p.dimensions), "dimensions")
      + When(Supplied(p.filters), "filters")
      + When(p.orderBy.Some?, "order_by")
      + When(p.limit.Some?, "limit")
      + When(p.offset.Some?, "offset")
      + When(p.includeImported.Some?, "include_imported")
  }

  lemma BodyKeysDistinct()
    ensures Distinct(BodyKeys)
  {
  }

  /** The selected keys come in the fixed insertion order. */
  lemma SentKeysInBodyOrder(p: QueryParams)
    ensures Subsequence(SentKeys(p), BodyKeys)
  {
    var k0 := ["site_id", "date_range", "metrics"];
    var k1 := k0 + When(Supplied(p.dimensions), "dimensions");
    var k2 := k1 + When(Supplied(p.filters), "filters");
    var k3 := k2 + When(p.orderBy.Some?, "order_by");
    var k4 := k3 + When(p.limit.Some?, "limit");
    var k5 := k4 + When(p.offset.Some?, "offset");
    var s1 := k0 + ["dimensions"];
    var s2 := s1 + ["filters"];
    var s3 := s2 + ["order_by"];
    var s4 := s3 + ["limit"];
    var s5 := s4 + ["offset"];
    SubsequenceReflexive(k0);
    AppendWhen(k0, k0, Supplied(p.dimensions), "dimensions");
    AppendWhen(k1, s1, Supplied(p.filters), "filters");
    AppendWhen(k2, s2, p.orderBy.Some?, "order_by");
    AppendWhen(k3, s3, p.limit.Some?, "limit");
    AppendWhen(k4, s4, p.offset.Some?, "offset");
    AppendWhen(k5, s5, p.includeImported.Some?, "include_imported");
    assert s5 + ["include_imported"] == BodyKeys;
  }

  /** No key is selected twice. */
  lemma SentKeysDistinct(p: QueryParams)
    ensures Distinct(SentKeys(p))
  {
    SentKeysInBodyOrder(p);
    BodyKeysDistinct();
    SubsequenceOfDistinct(SentKeys(p), BodyKeys);
  }

  /** The member list `[k: v]` when `present`, else the empty list. */
  function Field(present: bool, k: string, v: Json): (r: seq<Member>)
    ensures Keys(r) == When(present, k)
  {
    if present then [Member(k, v)] else []
  }

  /** The three members every body starts with (src/client.ts:27-31). */
  function RequiredMembers(p: QueryParams): (r: seq<Member>)
    ensures Keys(r) == ["site_id", "date_range", "metrics"]
  {
    var r := [
      Member("site_id", Str(p.siteId)),
      Member("date_range", EncodeDateRange(p.dateRange)),
      Member("metrics", Arr(EncodeMetrics(p.metrics)))
    ];
    KeysAt(r);
    r
  }

  /** The value `query` assigns to each optional key when its guard holds. */
  function DimensionsField(p: QueryParams): seq<Member> {
    Field(Supplied(p.dimensions), "dimensions", Arr(EncodeDimensions(p.dimensions.GetOr([]))))
  }

  function FiltersField(p: QueryParams): seq<Member> {
    Field(Supplied(p.filters), "filters", Arr(EncodeFilters(p.filters.GetOr([]))))
  }

  function OrderByField(p: QueryParams): seq<Member> {
    Field(p.orderBy.Some?, "order_by", EncodeOrderBy(p.orderBy.GetOr(OrderBy("", Asc))))
  }

  function LimitField(p: QueryParams): seq<Member> {
    Field(p.limit.Some?, "limit", Num(p.limit.GetOr(0)))
  }

  function OffsetField(p: QueryParams): seq<Member> {
    Field(p.offset.Some?, "offset", Num(p.offset.GetOr(0)))
  }

  function IncludeImportedField(p: QueryParams): seq<Member> {
    Field(p.includeImported.Some?, "include_imported", Bool(p.includeImported.GetOr(false)))
  }

  /** The body up to and including `order_by`: the object literal and the members the
      first three guarded assignments add. */
  function ListsPrefix(p: QueryParams): (r: seq<Member>)
    ensures Keys(r) == ["site_id", "date_range", "metrics"]
      + When(Supplied(p.dimensions), "dimensions") + When(Supplied(p.filters), "filters")
      + When(p.orderBy.Some?, "order_by")
  {
    var b0 := RequiredMembers(p);
    var b1 := b0 + DimensionsField(p);
    var b2 := b1 + FiltersField(p);
    KeysConcat(b0, DimensionsField(p));
    KeysConcat(b1, FiltersField(p));
    KeysConcat(b2, OrderByField(p));
    b2 + OrderByField(p)
  }

  /** The JSON object `query` sends, members in insertion order. Each guarded
      `body.k = v` of src/client.ts:33-55 assigns a key the object does not have yet, so it
      appends one member (see `AssignedBody`). */
  function BuildBody(p: QueryParams): seq<Member> {
    ListsPrefix(p) + LimitField(p) + OffsetField(p) + IncludeImportedField(p)
  }

  /** The body carries exactly the sent keys, in the order the code inserts them. */
  lemma BodyKeyList(p: QueryParams)
    ensures Keys(BuildBody(p)) == SentKeys(p)
  {
    var b3 := ListsPrefix(p);
    var b4 := b3 + LimitField(p);
    var b5 := b4 + OffsetField(p);
    KeysConcat(b3, LimitField(p));
    KeysConcat(b4, OffsetField(p));
    KeysConcat(b5, IncludeImportedField(p));
  }

  /** What the body holds under each key: the caller's value, encoded, when the key is
      sent, and nothing otherwise. */
  function SentValue(p: QueryParams, k: string): (r: Option<Json>)
    ensures r.Some? <==> Sent(p, k)
  {
    if k == "site_id" then Some(Str(p.siteId))
    else if k == "date_range" then Some(EncodeDateRange(p.dateRange))
    else if k == "metrics" then Some(Arr(EncodeMetrics(p.metrics)))
    else if k == "dimensions" && Supplied(p.dimensions) then Some(Arr(EncodeDimensions(p.dimensions.value)))
    else if k == "filters" && Supplied(p.filters) then Some(Arr(EncodeFilters(p.filters.value)))
    else if k == "order_by" && p.orderBy.Some? then Some(EncodeOrderBy(p.orderBy.value))
    else if k == "limit" && p.limit.Some? then Some(Num(p.limit.value))
    else if k == "offset" && p.offset.Some? then Some(Num(p.offset.value))
    else if k == "include_imported" && p.includeImported.Some? then Some(Bool(p.includeImported.value))
    else None
  }

  /** The three required members hold the site, the encoded range and the encoded
      metrics. */
  lemma RequiredLookup(p: QueryParams, k: string)
    ensures Get(RequiredMembers(p), k) == if k in Keys(RequiredMembers(p)) then SentValue(p, k) else None
  {
    var r := RequiredMembers(p);
    var r1 := r[1..];
    var r2 := r1[1..];
    assert r[0] == Member("site_id", Str(p.siteId));
    assert r1[0] == Member("date_range", EncodeDateRange(p.dateRange));
    assert r2[0] == Member("metrics", Arr(EncodeMetrics(p.metrics)));
    assert r2[1..] == [];
    assert Get(r2[1..], k) == None;
    assert Get(r2, k) == if k == "metrics" then Some(r2[0].value) else None;
    assert Get(r1, k) == if k == "date_range" then Some(r1[0].value) else Get(r2, k);
    assert Get(r, k) == if k == "site_id" then Some(r[0].value) else Get(r1, k);
  }

  /** None of the last three keys occurs before `limit` is assigned. */
  lemma ListsPrefixLacksScalars(p: QueryParams)
    ensures "limit" !in Keys(ListsPrefix(p))
    ensures "offset" !in Keys(ListsPrefix(p))
    ensures "include_imported" !in Keys(ListsPrefix(p))
  {
  }

  /** Up to `dimensions`, each key of the body holds the caller's value. */
  lemma DimensionsLookup(p: QueryParams, k: string)
    ensures var b := RequiredMembers(p) + DimensionsField(p);
      Get(b, k) == if k in Keys(b) then SentValue(p, k) else None
  {
    var b0 := RequiredMembers(p);
    KeysConcat(b0, DimensionsField(p));
    RequiredLookup(p, k);
    LookupAfterField(b0, Supplied(p.dimensions), "dimensions", Arr(EncodeDimensions(p.dimensions.GetOr([]))), k);
  }

  /** Up to `filters`, each key of the body holds the caller's value. */
  lemma ListsLookup(p: QueryParams, k: string)
    ensures var b := RequiredMembers(p) + DimensionsField(p) + FiltersField(p);
      Get(b, k) == if k in Keys(b) then SentValue(p, k) else None
  {
    var b1 := RequiredMembers(p) + DimensionsField(p);
    KeysConcat(b1, FiltersField(p));
    DimensionsLookup(p, k);
    LookupAfterField(b1, Supplied(p.filters), "filters", Arr(EncodeFilters(p.filters.GetOr([]))), k);
  }

  /** Up to `order_by`, each key of the body holds the caller's value. */
  lemma ListsPrefixLookup(p: QueryParams, k: string)
    ensures Get(ListsPrefix(p), k) == if k in Keys(ListsPrefix(p)) then SentValue(p, k) else None
  {
    var b2 := RequiredMembers(p) + DimensionsField(p) + FiltersField(p);
    KeysConcat(b2, OrderByField(p));
    ListsLookup(p, k);
    LookupAfterField(b2, p.orderBy.Some?, "order_by", EncodeOrderBy(p.orderBy.GetOr(OrderBy("", Asc))), k);
  }

  /** A guarded member holds its value under its own key only. */
  lemma FieldLookup(present: bool, k: string, v: Json, key: string)
    ensures Get(Field(present, k, v), key) == if present && key == k then Some(v) else None
  {
  }

  /** Reading an object after a guarded member is appended: its own keys first, then
      the new member. */
  lemma LookupAfterField(ms: seq<Member>, present: bool, k: string, v: Json, key: string)
    ensures Get(ms + Field(present, k, v), key)
      == if key in Keys(ms) then Get(ms, key) else if present && key == k then Some(v) else None
  {
    GetConcat(ms, Field(present, k, v), key);
    FieldLookup(present, k, v, key);
  }

  /** Reading any key of the body gives the caller's value for it, or nothing. */
  lemma BodyLookup(p: QueryParams, k: string)
    ensures Get(BuildBody(p), k) == SentValue(p, k)
  {
    var b3 := ListsPrefix(p);
    var b4 := b3 + LimitField(p);
    var b5 := b4 + OffsetField(p);
    ListsPrefixLookup(p, k);
    KeysConcat(b3, LimitField(p));
    KeysConcat(b4, OffsetField(p));
    LookupAfterField(b3, p.limit.Some?, "limit", Num(p.limit.GetOr(0)), k);
    LookupAfterField(b4, p.offset.Some?, "offset", Num(p.offset.GetOr(0)), k);
    LookupAfterField(b5, p.includeImported.Some?, "include_imported", Bool(p.includeImported.GetOr(false)), k);
  }


  // ---------------------------------------------------------------------------
  // Reading a body back: the partner of `BuildBody`.

  function AsStr(j: Json): Option<string> {
    if j.Str? then Some(j.s) else None
  }

  function AsNum(j: Json): Option<int> {
    if j.Num? then Some(j.n) else None
  }

  function AsBool(j: Json): Option<bool> {
    if j.Bool? then Some(j.b) else None
  }

  function AsMetrics(j: Json): Option<seq<Metric>> {
    if j.Arr? then DecodeMetrics(j.items) else None
  }

  function AsDimensions(j: Json): Option<seq<Dimension>> {
    if j.Arr? then DecodeDimensions(j.items) else None
  }

  function AsFilters(j: Json): Option<seq<Filter>> {
    if j.Arr? then DecodeFilters(j.items) else None
  }

  /** A key the body must carry, read with `dec`. */
  function Required<T>(ms: seq<Member>, k: string, dec: Json -> Option<T>): (r: Option<T>)
    ensures r.Some? ==> k in Keys(ms)
  {
    match Get(ms, k)
    case None => None
    case Some(j) => dec(j)
  }

  /** A key the body may leave out: `Some(None)` when absent, `None` when present but
      unreadable. */
  function Optional<T>(ms: seq<Member>, k: string, dec: Json -> Option<T>): (r: Option<Option<T>>)
    ensures k !in Keys(ms) ==> r == Some(None)
  {
    match Get(ms, k)
    case None => Some(None)
    case Some(j) => match dec(j) case None => None case Some(v) => Some(Some(v))
  }

  /** The query parameters a body denotes, or `None` when it is not a query body. */
  function DecodeBody(ms: seq<Member>): (r: Option<QueryParams>)
    ensures r.Some? ==> "site_id" in Keys(ms) && "date_range" in Keys(ms) && "metrics" in Keys(ms)
  {
    var site := Required(ms, "site_id", AsStr);
    var range := Required(ms, "date_range", DecodeDateRange);
    var metrics := Required(ms, "metrics", AsMetrics);
    var dimensions := Optional(ms, "dimensions", AsDimensions);
    var filters := Optional(ms, "filters", AsFilters);
    var orderBy := Optional(ms, "order_by", DecodeOrderBy);
    var limit := Optional(ms, "limit", AsNum);
    var offset := Optional(ms, "offset", AsNum);
    var includeImported := Optional(ms, "include_imported", AsBool);
    if site.Some? && range.Some? && metrics.Some? && dimensions.Some? && filters.Some?
       && orderBy.Some? && limit.Some? && offset.Some? && includeImported.Some?
    then
      Some(QueryParams(site.value, range.value, metrics.value, dimensions.value, filters.value,
                       orderBy.value, limit.value, offset.value, includeImported.value))
    else None
  }

  /** The parameters as the body sees them: an empty dimension or filter list is the
      same as none, since neither is sent. */
  function Normalize(p: QueryParams): (q: QueryParams)
    ensures Supplied(q.dimensions) == Supplied(p.dimensions) && Supplied(q.filters) == Supplied(p.filters)
    ensures q.dimensions.Some? ==> q.dimensions.value != []
    ensures q.filters.Some? ==> q.filters.value != []
    ensures Supplied(p.dimensions) ==> q.dimensions == p.dimensions
    ensures Supplied(p.filters) ==> q.filters == p.filters
    ensures q.siteId == p.siteId && q.dateRange == p.dateRange && q.metrics == p.metrics
    ensures q.orderBy == p.orderBy && q.limit == p.limit && q.offset == p.offset
    ensures q.includeImported == p.includeImported
  {
    p.(dimensions := if Supplied(p.dimensions) then p.dimensions else None,
       filters := if Supplied(p.filters) then p.filters else None)
  }

  lemma DateRangeRoundTrip(d: DateRange)
    ensures DecodeDateRange(EncodeDateRange(d)) == Some(d)
  {
  }

  lemma OrderByRoundTrip(o: OrderBy)
    ensures DecodeOrderBy(EncodeOrderBy(o)) == Some(o)
  {
  }

  lemma RequiredRoundTrip(p: QueryParams)
    ensures Required(BuildBody(p), "site_id", AsStr) == Some(p.siteId)
    ensures Required(BuildBody(p), "date_range", DecodeDateRange) == Some(p.dateRange)
    ensures Required(BuildBody(p), "metrics", AsMetrics) == Some(p.metrics)
  {
    assert Required(BuildBody(p), "site_id", AsStr) == Some(p.siteId) by {
      BodyLookup(p, "site_id");
    }
    assert Required(BuildBody(p), "date_range", DecodeDateRange) == Some(p.dateRange) by {
      BodyLookup(p, "date_range");
      DateRangeRoundTrip(p.dateRange);
    }
    assert Required(BuildBody(p), "metrics", AsMetrics) == Some(p.metrics) by {
      BodyLookup(p, "metrics");
      MetricsRoundTrip(p.metrics);
    }
  }

  lemma ListsRoundTrip(p: QueryParams)
    ensures Optional(BuildBody(p), "dimensions", AsDimensions) == Some(Normalize(p).dimensions)
    ensures Optional(BuildBody(p), "filters", AsFilters) == Some(Normalize(p).filters)
  {
    assert Optional(BuildBody(p), "dimensions", AsDimensions) == Some(Normalize(p).dimensions) by {
      BodyLookup(p, "dimensions");
      if Supplied(p.dimensions) {
        DimensionsRoundTrip(p.dimensions.value);
      }
    }
    assert Optional(BuildBody(p), "filters", AsFilters) == Some(Normalize(p).filters) by {
      BodyLookup(p, "filters");
      if Supplied(p.filters) {
        FiltersRoundTrip(p.filters.value);
      }
    }
  }

  lemma ScalarsRoundTrip(p: QueryParams)
    ensures Optional(BuildBody(p), "order_by", DecodeOrderBy) == Some(p.orderBy)
    ensures Optional(BuildBody(p), "limit", AsNum) == Some(p.limit)
    ensures Optional(BuildBody(p), "offset", AsNum) == Some(p.offset)
    ensures Optional(BuildBody(p), "include_imported", AsBool) == Some(p.includeImported)
  {
    assert Optional(BuildBody(p), "order_by", DecodeOrderBy) == Some(p.orderBy) by {
      BodyLookup(p, "order_by");
      if p.orderBy.Some? {
        OrderByRoundTrip(p.orderBy.value);
      }
    }
    assert Optional(BuildBody(p), "limit", AsNum) == Some(p.limit) by {
      BodyLookup(p, "limit");
    }
    assert Optional(BuildBody(p), "offset", AsNum) == Some(p.offset) by {
      BodyLookup(p, "offset");
    }
    assert Optional(BuildBody(p), "include_imported", AsBool) == Some(p.includeImported) by {
      BodyLookup(p, "include_imported");
    }
  }

  /** Reading back the body `query` builds gives the caller's parameters, up to empty
      lists: nothing is lost or altered on the way to the wire. */
  lemma BodyRoundTrip(p: QueryParams)
    ensures DecodeBody(BuildBody(p)) == Some(Normalize(p))
  {
    RequiredRoundTrip(p);
    ListsRoundTrip(p);
    ScalarsRoundTrip(p);
  }

  /** The body at a glance: its keys are exactly the sent ones, none twice, in the
      fixed insertion order, and each holds the caller's value. */
  lemma BodyShape(p: QueryParams)
    ensures forall k :: k in Keys(BuildBody(p)) <==> Sent(p, k)
    ensures Subsequence(Keys(BuildBody(p)), BodyKeys)
    ensures DistinctKeys(BuildBody(p))
    ensures forall k :: Get(BuildBody(p), k) == SentValue(p, k)
  {
    BodyKeyList(p);
    SentKeysInBodyOrder(p);
    SentKeysDistinct(p);
    forall k ensures Get(BuildBody(p), k) == SentValue(p, k) {
      BodyLookup(p, k);
    }
  }

  // ---------------------------------------------------------------------------
  // The body as the source writes it: an object literal, then guarded assignments.

  /** `if (present) body[k] = v`. */
  function Assign(ms: seq<Member>, present: bool, k: string, v: Json): seq<Member> {
    if present then Set(ms, k, v) else ms
  }

  /** The object literal and the first three guarded assignments of
      src/client.ts:27-43, read literally. Each assignment adds a key the object does not
      have yet, so it appends that member. */
  function ListAssignments(p: QueryParams): (r: seq<Member>)
    ensures r == ListsPrefix(p)
  {
    var b0 := RequiredMembers(p);
    AssignFresh(b0, Supplied(p.dimensions), "dimensions", Arr(EncodeDimensions(p.dimensions.GetOr([]))));
    var b1 := Assign(b0, Supplied(p.dimensions), "dimensions", Arr(EncodeDimensions(p.dimensions.GetOr([]))));
    assert b1 == b0 + DimensionsField(p);
    assert "filters" !in Keys(b1) && "order_by" !in Keys(b1);
    AssignFresh(b1, Supplied(p.filters), "filters", Arr(EncodeFilters(p.filters.GetOr([]))));
    var b2 := Assign(b1, Supplied(p.filters), "filters", Arr(EncodeFilters(p.filters.GetOr([]))));
    assert b2 == b1 + FiltersField(p);
    AssignFresh(b2, p.orderBy.Some?, "order_by", EncodeOrderBy(p.orderBy.GetOr(OrderBy("", Asc))));
    Assign(b2, p.orderBy.Some?, "order_by", EncodeOrderBy(p.orderBy.GetOr(OrderBy("", Asc))))
  }

  /** The whole sequence of statements of src/client.ts:27-55, read literally. Every
      guarded assignment adds a new key, so the statements build exactly the
      concatenation `BuildBody` describes. */
  function AssignedBody(p: QueryParams): (r: seq<Member>)
    ensures r == BuildBody(p)
  {
    var b3 := ListAssignments(p);
    ListsPrefixLacksScalars(p);
    AssignFresh(b3, p.limit.Some?, "limit", Num(p.limit.GetOr(0)));
    var b4 := Assign(b3, p.limit.Some?, "limit", Num(p.limit.GetOr(0)));
    assert b4 == b3 + LimitField(p);
    AssignFresh(b4, p.offset.Some?, "offset", Num(p.offset.GetOr(0)));
    var b5 := Assign(b4, p.offset.Some?, "offset", Num(p.offset.GetOr(0)));
    assert b5 == b4 + OffsetField(p);
    AssignFresh(b5, p.includeImported.Some?, "include_imported", Bool(p.includeImported.GetOr(false)));
    var b6 := Assign(b5, p.includeImported.Some?, "include_imported", Bool(p.includeImported.GetOr(false)));
    assert b6 == b5 + IncludeImportedField(p);
    b6
  }

  /** Assigning a key the object does not have yet appends it. */
  lemma AssignFresh(ms: seq<Member>, present: bool, k: string, v: Json)
    requires k !in Keys(ms)
    ensures Assign(ms, present, k, v) == ms + Field(present, k, v)
    ensures Keys(Assign(ms, present, k, v)) == Keys(ms) + When(present, k)
  {
    KeysConcat(ms, Field(present, k, v));
  }

  /** Only the normal form of the parameters reaches the wire: two parameter sets give
      the same body exactly when they agree up to empty lists. */
  lemma BodyDeterminedByNormalForm(p: QueryParams, q: QueryParams)
    ensures BuildBody(p) == BuildBody(q) <==> Normalize(p) == Normalize(q)
  {
    BodyRoundTrip(p);
    BodyRoundTrip(q);
    if Normalize(p) == Normalize(q) {
      assert BuildBody(p) == BuildBody(Normalize(p));
      assert BuildBody(q) == BuildBody(Normalize(q));
    }
  }

  /** With only the required parameters, the body has exactly the three required keys. */
  lemma MinimalBody(p: QueryParams)
    requires !Supplied(p.dimensions) && !Supplied(p.filters)
    requires p.orderBy.None? && p.limit.None? && p.offset.None? && p.includeImported.None?
    ensures Keys(BuildBody(p)) == ["site_id", "date_range", "metrics"]
    ensures |BuildBody(p)| == 3
  {
    BodyKeyList(p);
  }

  // ---------------------------------------------------------------------------
  // The request (src/client.ts:25, 57-64).

  /** The endpoint: the base URL with the query path appended as is, so a base URL
      that ends in `/` yields a doubled slash. */
  function TargetUrl(c: PlausibleClient): (u: string)
    ensures |u| == |c.baseUrl| + |QueryPath|
    ensures u[..|c.baseUrl|] == c.baseUrl && u[|c.baseUrl|..] == QueryPath
  {
    c.baseUrl + QueryPath
  }

  datatype Header = Header(name: string, value: string)

  const BearerPrefix: string := "Bearer "

  /** The credential an `Authorization` value carries under the bearer scheme. */
  function BearerToken(v: string): (t: Option<string>)
    ensures t.Some? ==> v == BearerPrefix + t.value
  {
    if |v| >= |BearerPrefix| && v[..|BearerPrefix|] == BearerPrefix then
      assert v == v[..|BearerPrefix|] + v[|BearerPrefix|..];
      Some(v[|BearerPrefix|..])
    else None
  }

  /** The two request headers: the API key as a bearer credential and the JSON
      content type. */
  function Headers(c: PlausibleClient): (hs: seq<Header>)
    ensures |hs| == 2
    ensures hs[0].name == "Authorization" && BearerToken(hs[0].value) == Some(c.apiKey)
    ensures hs[1] == Header("Content-Type", "application/json")
  {
    var v := BearerPrefix + c.apiKey;
    assert v[..|BearerPrefix|] == BearerPrefix && v[|BearerPrefix|..] == c.apiKey;
    [Header("Authorization", v), Header("Content-Type", "application/json")]
  }

  /** The value of the first header called `name`, if any. */
  function HeaderValue(hs: seq<Header>, name: string): Option<string> {
    if hs == [] then None
    else if hs[0].name == name then Some(hs[0].value)
    else HeaderValue(hs[1..], name)
  }

  datatype HttpRequest = HttpRequest(verb: string, url: string, headers: seq<Header>, body: Json)

  /** The single request `query` makes: a POST of the body to the endpoint, carrying
      the client's key. */
  function BuildRequest(c: PlausibleClient, p: QueryParams): (r: HttpRequest)
    ensures r.verb == "POST" && r.url == TargetUrl(c)
    ensures HeaderValue(r.headers, "Content-Type") == Some("application/json")
    ensures HeaderValue(r.headers, "Authorization").Some?
    ensures BearerToken(HeaderValue(r.headers, "Authorization").value) == Some(c.apiKey)
    ensures r.body == Obj(BuildBody(p))
    ensures r.headers == Headers(c)
  {
    HttpRequest("POST", TargetUrl(c), Headers(c), Obj(BuildBody(p)))
  }

  /** The body of the request reads back as the caller's parameters, up to empty lists. */
  lemma RequestCarriesParams(c: PlausibleClient, p: QueryParams)
    ensures BuildRequest(c, p).body.Obj?
    ensures DecodeBody(BuildRequest(c, p).body.members) == Some(Normalize(p))
  {
    BodyRoundTrip(p);
  }

  /** Without a configured base URL every query goes to the production endpoint. */
  lemma DefaultEndpoint(config: PlausibleConfig)
    requires config.baseUrl.None?
    ensures TargetUrl(NewClient(config)) == "https://plausible.io/api/v2/query"
  {
  }

  /** A configured base URL is used verbatim, a trailing slash included. */
  lemma CustomEndpoint(config: PlausibleConfig, base: string)
    requires config.baseUrl == Some(base)
    ensures TargetUrl(NewClient(config)) == base + "/api/v2/query"
  {
  }

  // ---------------------------------------------------------------------------
  // The response (src/client.ts:66-75).

  /** `response.ok`: a status in the 2xx range. */
  predicate IsOk(status: int)
    ensures IsOk(status) <==> status / 100 == 2
  {
    200 <= status <= 299
  }

  /** What the server sent back: its status and its body parsed as JSON, or `None`
      when the body is not JSON. */
  datatype Reply = Reply(status: int, payload: Option<Json>)

  /** The outcome of `fetch`: a transport failure, or a reply. */
  datatype Exchange = Failed(cause: string) | Answered(reply: Reply)

  /** What `query` lets escape unchanged: the transport failure, the parse error of a
      body that is not JSON, or the type error of reading `.error` off `null`. */
  datatype Fault = NetworkFault(cause: string) | MalformedJson | NullPayload

  /** `query` resolves with a body, rejects with a `PlausibleApiError`, or rejects with
      another error it did not catch. */
  datatype QueryOutcome = Returned(body: Json) | Rejected(error: PlausibleApiError) | Propagated(fault: Fault)

  /** The error payload `{ "error": message }` of the API (src/types.ts:245-248). */
  function ErrorPayload(message: string): Json {
    Obj([Member("error", Str(message))])
  }

  /** `error.error` as an error message: the string under `error`, else the empty
      message `new Error(undefined)` has. */
  function ErrorMessage(payload: Json): (m: string)
    ensures payload.Obj? && Get(payload.members, "error").Some? && Get(payload.members, "error").value.Str?
      ==> m == Get(payload.members, "error").value.s
    ensures payload.Obj? && "error" !in Keys(payload.members) ==> m == ""
    ensures !payload.Obj? ==> m == ""
  {
    if payload.Obj? then
      match Get(payload.members, "error")
      case Some(Str(s)) => s
      case _ => ""
    else ""
  }

  /** The message is the server's text, verbatim, with no prefix added, wherever the
      `error` member stands among the payload's members. */
  lemma ErrorMessageRoundTrip(message: string, before: seq<Member>, after: seq<Member>)
    requires "error" !in Keys(before)
    ensures ErrorMessage(ErrorPayload(message)) == message
    ensures ErrorMessage(Obj(before + [Member("error", Str(message))] + after)) == message
  {
    var tail := [Member("error", Str(message))] + after;
    assert before + [Member("error", Str(message))] + after == before + tail;
    GetConcat(before, tail, "error");
  }

  /** How `query` turns a reply into its outcome. */
  function ClassifyResponse(reply: Reply): (r: QueryOutcome)
    ensures r.Returned? <==> IsOk(reply.status) && reply.payload.Some?
    ensures r.Returned? ==> r.body == reply.payload.value
    ensures r.Rejected? <==> !IsOk(reply.status) && reply.payload.Some? && !reply.payload.value.Null?
    ensures r.Rejected? ==> r.error.name == ApiErrorName && r.error.statusCode == reply.status
    ensures r.Rejected? ==> r.error.response == reply.payload
    ensures r.Rejected? ==> r.error.message == ErrorMessage(reply.payload.value)
    ensures reply.payload.None? ==> r == Propagated(MalformedJson)
    ensures r.Propagated? ==> !r.fault.NetworkFault?
  {
    match reply.payload
    case None => Propagated(MalformedJson)
    case Some(j) =>
      if IsOk(reply.status) then Returned(j)
      else if j.Null? then Propagated(NullPayload)
      else Rejected(NewApiError(ErrorMessage(j), reply.status, Some(j)))
  }

  /** `client.query(params)` with the network exchange as a parameter: one request,
      built from the client and the parameters; transport failures escape unchanged and
      are never reported as API errors; a 2xx body is returned as received; any other
      status becomes a `PlausibleApiError` carrying that status and the payload. */
  function Query(c: PlausibleClient, p: QueryParams, fetch: HttpRequest -> Exchange): (r: QueryOutcome)
    ensures var e := fetch(BuildRequest(c, p));
      e.Failed? <==> r.Propagated? && r.fault.NetworkFault?
    ensures var e := fetch(BuildRequest(c, p));
      e.Failed? ==> r.fault.cause == e.cause
    ensures var e := fetch(BuildRequest(c, p));
      r.Returned? <==> (e.Answered? && IsOk(e.reply.status) && e.reply.payload.Some?)
    ensures var e := fetch(BuildRequest(c, p));
      r.Returned? ==> Some(r.body) == e.reply.payload
    ensures var e := fetch(BuildRequest(c, p));
      r.Rejected? ==> (e.Answered? && !IsOk(e.reply.status) && r.error.statusCode == e.reply.status)
    ensures var e := fetch(BuildRequest(c, p));
      r.Rejected? ==> e.reply.payload.Some? && r.error.response == e.reply.payload
    ensures var e := fetch(BuildRequest(c, p));
      (e.Answered? && !IsOk(e.reply.status) && e.reply.payload.Some? && !e.reply.payload.value.Null?)
      ==> r.Rejected? && r.error.message == ErrorMessage(e.reply.payload.value)
    ensures var e := fetch(BuildRequest(c, p));
      e.Answered? ==> r == ClassifyResponse(e.reply)
  {
    match fetch(BuildRequest(c, p))
    case Failed(cause) => Propagated(NetworkFault(cause))
    case Answered(reply) => ClassifyResponse(reply)
  }
}
