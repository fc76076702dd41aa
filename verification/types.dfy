/** The vocabulary of a query: metrics, dimensions, operators, date ranges, ordering,
    and the structured error raised for a failed request (src/types.ts). */
module Types {
  import opened Wrappers
  import opened Json

  /** Metric tokens (src/types.ts:36-53). */
  datatype Metric =
    | Visitors | Visits | Pageviews | ViewsPerVisit | BounceRate | VisitDuration | Events
    | ScrollDepth | Percentage | ConversionRate | GroupConversionRate | TimeOnPage
    | AverageRevenue | TotalRevenue

  const MetricNames: set<string> := {
    "visitors", "visits", "pageviews", "views_per_visit", "bounce_rate", "visit_duration", "events",
    "scroll_depth", "percentage", "conversion_rate", "group_conversion_rate", "time_on_page",
    "average_revenue", "total_revenue"
  }

  /** Reads a metric token; exactly the fourteen names are accepted. */
  function ParseMetric(s: string): (r: Option<Metric>)
    ensures r.Some? <==> s in MetricNames
  {
    if s == "visitors" then Some(Visitors)
    else if s == "visits" then Some(Visits)
    else if s == "pageviews" then Some(Pageviews)
    else if s == "views_per_visit" then Some(ViewsPerVisit)
    else if s == "bounce_rate" then Some(BounceRate)
    else if s == "visit_duration" then Some(VisitDuration)
    else if s == "events" then Some(Events)
    else if s == "scroll_depth" then Some(ScrollDepth)
    else if s == "percentage" then Some(Percentage)
    else if s == "conversion_rate" then Some(ConversionRate)
    else if s == "group_conversion_rate" then Some(GroupConversionRate)
    else if s == "time_on_page" then Some(TimeOnPage)
    else if s == "average_revenue" then Some(AverageRevenue)
    else if s == "total_revenue" then Some(TotalRevenue)
    else None
  }

  /** The wire token of a metric; reading it back gives the same metric. */
  function MetricName(m: Metric): (s: string)
    ensures s in MetricNames
    ensures ParseMetric(s) == Some(m)
  {
    match m
    case Visitors => "visitors"
    case Visits => "visits"
    case Pageviews => "pageviews"
    case ViewsPerVisit => "views_per_visit"
    case BounceRate => "bounce_rate"
    case VisitDuration => "visit_duration"
    case Events => "events"
    case ScrollDepth => "scroll_depth"
    case Percentage => "percentage"
    case ConversionRate => "conversion_rate"
    case GroupConversionRate => "group_conversion_rate"
    case TimeOnPage => "time_on_page"
    case AverageRevenue => "average_revenue"
    case TotalRevenue => "total_revenue"
  }

  /** Each metric token names exactly one metric, and every token is the name of one. */
  lemma MetricVocabulary()
    ensures forall s :: s in MetricNames <==> exists m :: MetricName(m) == s
    ensures forall m, m' :: MetricName(m) == MetricName(m') ==> m == m'
  {
    forall s | s in MetricNames ensures exists m :: MetricName(m) == s {
      var m := ParseMetric(s).value;
      assert MetricName(m) == s;
    }
    forall m, m' | MetricName(m) == MetricName(m') ensures m == m' {
      assert Some(m) == ParseMetric(MetricName(m)) == ParseMetric(MetricName(m')) == Some(m');
    }
  }

  /** A token that parses as a metric is that metric's name. */
  lemma MetricTagExact(s: string)
    ensures ParseMetric(s).Some? ==> MetricName(ParseMetric(s).value) == s
  {
  }

  /** The metric vocabulary has fourteen distinct names. */
  lemma MetricCount()
    ensures |MetricNames| == 14
  {
  }

  /** Dimension tokens (src/types.ts:58-84): twenty-one fixed names and the open-ended
      custom-property form `event:props:<name>`. */
  datatype Dimension =
    | EventGoal | EventPage | EventHostname | EventProps(name: string)
    | VisitEntryPage | VisitExitPage | VisitSource | VisitReferrer | VisitChannel
    | VisitUtmMedium | VisitUtmSource | VisitUtmCampaign | VisitUtmContent | VisitUtmTerm
    | VisitDevice | VisitBrowser | VisitBrowserVersion | VisitOs | VisitOsVersion
    | VisitCountry | VisitRegion | VisitCity

  const FixedDimensionNames: set<string> := {
    "event:goal", "event:page", "event:hostname",
    "visit:entry_page", "visit:exit_page", "visit:source", "visit:referrer", "visit:channel",
    "visit:utm_medium", "visit:utm_source", "visit:utm_campaign", "visit:utm_content", "visit:utm_term",
    "visit:device", "visit:browser", "visit:browser_version", "visit:os", "visit:os_version",
    "visit:country", "visit:region", "visit:city"
  }

  const PropsPrefix: string := "event:props:"

  predicate HasPrefix(s: string, prefix: string) {
    |prefix| <= |s| && s[..|prefix|] == prefix
  }

  /** The string-level meaning of the `Dimension` type: one of the fixed names, or the
      custom-property prefix followed by any string, the empty one included. */
  predicate IsDimensionName(s: string) {
    s in FixedDimensionNames || HasPrefix(s, PropsPrefix)
  }

  /** Reads one of the 21 fixed dimension tokens; the token is that dimension's name. */
  function ParseFixedDimension(s: string): (r: Option<Dimension>)
    ensures r.Some? <==> s in FixedDimensionNames
    ensures r.Some? ==> !r.value.EventProps? && FixedDimensionName(r.value) == s
  {
    if s == "event:goal" then Some(EventGoal)
    else if s == "event:page" then Some(EventPage)
    else if s == "event:hostname" then Some(EventHostname)
    else if s == "visit:entry_page" then Some(VisitEntryPage)
    else if s == "visit:exit_page" then Some(VisitExitPage)
    else if s == "visit:source" then Some(VisitSource)
    else if s == "visit:referrer" then Some(VisitReferrer)
    else if s == "visit:channel" then Some(VisitChannel)
    else if s == "visit:utm_medium" then Some(VisitUtmMedium)
    else if s == "visit:utm_source" then Some(VisitUtmSource)
    else if s == "visit:utm_campaign" then Some(VisitUtmCampaign)
    else if s == "visit:utm_content" then Some(VisitUtmContent)
    else if s == "visit:utm_term" then Some(VisitUtmTerm)
    else if s == "visit:device" then Some(VisitDevice)
    else if s == "visit:browser" then Some(VisitBrowser)
    else if s == "visit:browser_version" then Some(VisitBrowserVersion)
    else if s == "visit:os" then Some(VisitOs)
    else if s == "visit:os_version" then Some(VisitOsVersion)
    else if s == "visit:country" then Some(VisitCountry)
    else if s == "visit:region" then Some(VisitRegion)
    else if s == "visit:city" then Some(VisitCity)
    else None
  }

  /** Reads a dimension token. */
  function ParseDimension(s: string): (r: Option<Dimension>)
    ensures r.Some? <==> IsDimensionName(s)
    ensures r.Some? && r.value.EventProps? ==> s == PropsPrefix + r.value.name
  {
    if HasPrefix(s, PropsPrefix) then
      assert s == PropsPrefix + s[|PropsPrefix|..];
      Some(EventProps(s[|PropsPrefix|..]))
    else ParseFixedDimension(s)
  }

  /** No fixed dimension name starts with the custom-property prefix, so the two forms
      of `Dimension` never overlap. */
  lemma FixedNamesLackPropsPrefix()
    ensures forall s :: s in FixedDimensionNames ==> !HasPrefix(s, PropsPrefix)
  {
    forall s | s in FixedDimensionNames ensures !HasPrefix(s, PropsPrefix) {
      assert |s| < |PropsPrefix| || s[0] != PropsPrefix[0] || s[6] != PropsPrefix[6];
    }
  }

  /** The wire token of a fixed dimension. */
  function FixedDimensionName(d: Dimension): (s: string)
    requires !d.EventProps?
    ensures s in FixedDimensionNames
  {
    match d
    case EventGoal => "event:goal"
    case EventPage => "event:page"
    case EventHostname => "event:hostname"
    case VisitEntryPage => "visit:entry_page"
    case VisitExitPage => "visit:exit_page"
    case VisitSource => "visit:source"
    case VisitReferrer => "visit:referrer"
    case VisitChannel => "visit:channel"
    case VisitUtmMedium => "visit:utm_medium"
    case VisitUtmSource => "visit:utm_source"
    case VisitUtmCampaign => "visit:utm_campaign"
    case VisitUtmContent => "visit:utm_content"
    case VisitUtmTerm => "visit:utm_term"
    case VisitDevice => "visit:device"
    case VisitBrowser => "visit:browser"
    case VisitBrowserVersion => "visit:browser_version"
    case VisitOs => "visit:os"
    case VisitOsVersion => "visit:os_version"
    case VisitCountry => "visit:country"
    case VisitRegion => "visit:region"
    case VisitCity => "visit:city"
  }

  /** The wire token of a dimension: a custom property carries the prefix, every other
      dimension is one of the fixed names. */
  function DimensionName(d: Dimension): (s: string)
    ensures IsDimensionName(s)
    ensures d.EventProps? <==> HasPrefix(s, PropsPrefix)
  {
    if d.EventProps? then
      assert (PropsPrefix + d.name)[..|PropsPrefix|] == PropsPrefix;
      PropsPrefix + d.name
    else
      FixedNamesLackPropsPrefix();
      FixedDimensionName(d)
  }

  lemma FixedDimensionParses(d: Dimension)
    requires !d.EventProps?
    ensures ParseDimension(FixedDimensionName(d)) == Some(d)
  {
    FixedNamesLackPropsPrefix();
    match d {
      case EventProps(_) =>
      case EventGoal =>
      case EventPage =>
      case EventHostname =>
      case VisitEntryPage =>
      case VisitExitPage =>
      case VisitSource =>
      case VisitReferrer =>
      case VisitChannel =>
      case VisitUtmMedium =>
      case VisitUtmSource =>
      case VisitUtmCampaign =>
      case VisitUtmContent =>
      case VisitUtmTerm =>
      case VisitDevice =>
      case VisitBrowser =>
      case VisitBrowserVersion =>
      case VisitOs =>
      case VisitOsVersion =>
      case VisitCountry =>
      case VisitRegion =>
      case VisitCity =>
    }
  }

  /** The 21 dimensions that have a fixed name, in the order src/types.ts lists them. */
  const FixedDimensionOrder: seq<Dimension> := [
    EventGoal, EventPage, EventHostname,
    VisitEntryPage, VisitExitPage, VisitSource, VisitReferrer, VisitChannel,
    VisitUtmMedium, VisitUtmSource, VisitUtmCampaign, VisitUtmContent, VisitUtmTerm,
    VisitDevice, VisitBrowser, VisitBrowserVersion, VisitOs, VisitOsVersion,
    VisitCountry, VisitRegion, VisitCity
  ]

  /** The position of a fixed dimension in the listing. */
  function FixedDimensionIndex(d: Dimension): (i: nat)
    requires !d.EventProps?
    ensures i < |FixedDimensionOrder| && FixedDimensionOrder[i] == d
  {
    match d
    case EventGoal => 0
    case EventPage => 1
    case EventHostname => 2
    case VisitEntryPage => 3
    case VisitExitPage => 4
    case VisitSource => 5
    case VisitReferrer => 6
    case VisitChannel => 7
    case VisitUtmMedium => 8
    case VisitUtmSource => 9
    case VisitUtmCampaign => 10
    case VisitUtmContent => 11
    case VisitUtmTerm => 12
    case VisitDevice => 13
    case VisitBrowser => 14
    case VisitBrowserVersion => 15
    case VisitOs => 16
    case VisitOsVersion => 17
    case VisitCountry => 18
    case VisitRegion => 19
    case VisitCity => 20
  }

  /** The listing holds fixed dimensions only, each once. */
  lemma FixedDimensionOrderExact()
    ensures forall i :: 0 <= i < |FixedDimensionOrder| ==>
      !FixedDimensionOrder[i].EventProps? && FixedDimensionIndex(FixedDimensionOrder[i]) == i
  {
  }

  /** The name of the `i`-th listed dimension. */
  function ListedName(i: nat): string
    requires i < |FixedDimensionOrder|
  {
    FixedDimensionOrderExact();
    FixedDimensionName(FixedDimensionOrder[i])
  }

  /** The names of the first `n` listed dimensions. */
  function ListedNames(n: nat): set<string>
    requires n <= |FixedDimensionOrder|
  {
    set i | 0 <= i < n :: ListedName(i)
  }

  /** The listed dimension at position `n` has a name none of the earlier ones has. */
  lemma ListedNameIsNew(n: nat)
    requires n < |FixedDimensionOrder|
    ensures ListedName(n) !in ListedNames(n)
  {
    FixedDimensionOrderExact();
    forall i | 0 <= i < n ensures ListedName(i) != ListedName(n) {
      FixedDimensionParses(FixedDimensionOrder[i]);
      FixedDimensionParses(FixedDimensionOrder[n]);
    }
  }

  /** Listing one more dimension adds its name. */
  lemma ListedNamesGrow(n: nat)
    requires 0 < n <= |FixedDimensionOrder|
    ensures ListedNames(n) == ListedNames(n - 1) + {ListedName(n - 1)}
  {
  }

  /** Distinct listed dimensions have distinct names, so the first `n` of them have
      `n` names. */
  lemma {:induction false} ListedNamesCount(n: nat)
    requires n <= |FixedDimensionOrder|
    ensures |ListedNames(n)| == n
  {
    if n > 0 {
      ListedNamesCount(n - 1);
      ListedNameIsNew(n - 1);
      ListedNamesGrow(n);
    }
  }

  /** The fixed dimension vocabulary has exactly twenty-one names, one per fixed
      dimension. */
  lemma DimensionCount()
    ensures |FixedDimensionNames| == 21
  {
    FixedDimensionOrderExact();
    ListedNamesCount(21);
    forall s | s in FixedDimensionNames ensures s in ListedNames(21) {
      var i := FixedDimensionIndex(ParseFixedDimension(s).value);
      assert ListedName(i) == s;
    }
    assert FixedDimensionNames == ListedNames(21);
  }

  /** Dimension tokens and dimensions are in one-to-one correspondence. */
  lemma DimensionRoundTrip(d: Dimension, s: string)
    ensures ParseDimension(DimensionName(d)) == Some(d)
    ensures ParseDimension(s) == Some(d) ==> DimensionName(d) == s
  {
    if d.EventProps? {
      assert (PropsPrefix + d.name)[|PropsPrefix|..] == d.name;
    } else {
      FixedDimensionParses(d);
    }
  }

  /** Operators of a simple filter (src/types.ts:89-95). */
  datatype FilterOperator = Is | IsNot | Contains | ContainsNot | Matches | MatchesNot

  /** Operators of a logical filter (src/types.ts:100). */
  datatype LogicalOperator = And | Or | Not

  const FilterOperatorNames: set<string> :=
    {"is", "is_not", "contains", "contains_not", "matches", "matches_not"}

  const LogicalOperatorNames: set<string> := {"and", "or", "not"}

  function ParseFilterOperator(s: string): (r: Option<FilterOperator>)
    ensures r.Some? <==> s in FilterOperatorNames
  {
    if s == "is" then Some(Is)
    else if s == "is_not" then Some(IsNot)
    else if s == "contains" then Some(Contains)
    else if s == "contains_not" then Some(ContainsNot)
    else if s == "matches" then Some(Matches)
    else if s == "matches_not" then Some(MatchesNot)
    else None
  }

  function FilterOperatorName(op: FilterOperator): (s: string)
    ensures ParseFilterOperator(s) == Some(op)
  {
    match op
    case Is => "is"
    case IsNot => "is_not"
    case Contains => "contains"
    case ContainsNot => "contains_not"
    case Matches => "matches"
    case MatchesNot => "matches_not"
  }

  /** A logical tag is never a simple tag: the first element of an encoded filter
      tells the two forms apart. */
  function ParseLogicalOperator(s: string): (r: Option<LogicalOperator>)
    ensures r.Some? <==> s in LogicalOperatorNames
    ensures r.Some? ==> ParseFilterOperator(s).None?
  {
    if s == "and" then Some(And)
    else if s == "or" then Some(Or)
    else if s == "not" then Some(Not)
    else None
  }

  function LogicalOperatorName(op: LogicalOperator): (s: string)
    ensures ParseLogicalOperator(s) == Some(op)
  {
    match op
    case And => "and"
    case Or => "or"
    case Not => "not"
  }

  /** Each operator has exactly one tag: a tag that parses is the name of what it
      parses to. */
  lemma OperatorTagsExact(s: string)
    ensures ParseFilterOperator(s).Some? ==> FilterOperatorName(ParseFilterOperator(s).value) == s
    ensures ParseLogicalOperator(s).Some? ==> LogicalOperatorName(ParseLogicalOperator(s).value) == s
  {
  }

  /** The simple and logical tag vocabularies are disjoint. */
  lemma TagVocabulariesDisjoint()
    ensures FilterOperatorNames !! LogicalOperatorNames
  {
    forall s | s in LogicalOperatorNames ensures s !in FilterOperatorNames {
      assert ParseLogicalOperator(s).Some?;
    }
  }

  /** Sort direction of `order_by` (src/types.ts:178). */
  datatype OrderDirection = Asc | Desc

  function ParseDirection(s: string): (r: Option<OrderDirection>)
    ensures r.Some? <==> s == "asc" || s == "desc"
  {
    if s == "asc" then Some(Asc) else if s == "desc" then Some(Desc) else None
  }

  function DirectionName(d: OrderDirection): (s: string)
    ensures ParseDirection(s) == Some(d)
  {
    match d
    case Asc => "asc"
    case Desc => "desc"
  }

  /** The `order_by` pair: any metric or dimension name, and a direction
      (src/types.ts:195). */
  datatype OrderBy = OrderBy(field: string, direction: OrderDirection)

  /** A date range is a relative token such as "7d" or an explicit [start, end] pair of
      date strings (src/types.ts:31); neither form is checked. */
  datatype DateRange = Relative(token: string) | Custom(start: string, end: string)

  /** The error thrown for a non-success response (src/types.ts:269-283). */
  datatype PlausibleApiError = PlausibleApiError(
    name: string,
    message: string,
    statusCode: int,
    response: Option<Json>)

  const ApiErrorName: string := "PlausibleApiError"

  /** `new PlausibleApiError(message, statusCode, response)`. */
  function NewApiError(message: string, statusCode: int, response: Option<Json>): (e: PlausibleApiError)
    ensures e.message == message && e.statusCode == statusCode && e.response == response
    ensures e.name == ApiErrorName
  {
    PlausibleApiError(ApiErrorName, message, statusCode, response)
  }
}
