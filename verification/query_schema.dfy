/** The query-document schema embedded in the API v2 example editor: one
    predicate per entry of its `definitions`, plus the top-level object.
    Each predicate reads the draft-07 keywords of its definition literally;
    `oneOf` is a count of matching branches equal to one, and a `$ref`
    is a call of the referenced predicate. */
module QuerySchema {
  import opened Json
  import opened Draft07

  /** The fixed `date_range` tokens, in schema order. */
  const DateRangeTokens: seq<string> :=
    ["all", "day", "7d", "30d", "month", "6mo", "12mo", "year"]

  /** The `metric` tokens, in schema order. */
  const MetricTokens: seq<string> :=
    ["visitors", "visits", "pageviews", "views_per_visit", "bounce_rate",
     "visit_duration", "events", "percentage", "conversion_rate",
     "group_conversion_rate"]

  /** The `simple_filter_dimensions` enum. */
  const SimpleFilterDimensionTokens: seq<string> :=
    ["event:name", "event:page", "event:hostname",
     "visit:source", "visit:referrer", "visit:utm_medium", "visit:utm_source",
     "visit:utm_campaign", "visit:utm_content", "visit:utm_term",
     "visit:screen", "visit:device", "visit:browser", "visit:browser_version",
     "visit:os", "visit:os_version", "visit:country", "visit:region",
     "visit:city", "visit:entry_page", "visit:exit_page",
     "visit:entry_page_hostname", "visit:exit_page_hostname"]

  /** The literal part of the pattern `^event:props:`. */
  const CustomPropertyPrefix: string := "event:props:"

  /** The `goal_dimension` constant. */
  const GoalToken: string := "event:goal"

  /** The `time_dimensions` enum (declared, but referenced by no other schema). */
  const TimeDimensionTokens: seq<string> :=
    ["time", "time:month", "time:week", "time:day", "time:hour"]

  /** Operations of the first `filter_entry` branch. */
  const NegatableOperations: seq<string> := ["is_not", "contains", "does_not_contain"]

  /** Operations of the second `filter_entry` branch. */
  const IsOperations: seq<string> := ["is"]

  /** The `order_by_entry` direction enum. */
  const Directions: seq<string> := ["asc", "desc"]

  /** Names under the top-level `properties`; with `additionalProperties: false`
      no other member is allowed. */
  const TopLevelKeys: set<string> :=
    {"site_id", "metrics", "date_range", "dimensions", "filters", "order_by", "include"}

  /** The top-level `required` list. */
  const RequiredKeys: set<string> := {"site_id", "metrics", "date_range"}

  /** `{ type: "string", enum: tokens }` */
  predicate StringEnum(v: Json, tokens: seq<string>) {
    v.JString? && v.s in tokens
  }

  /** The pattern `^\d{4}-\d{2}-\d{2}$`: `$` without the `m` flag anchors at
      the very end of the input, so the string has exactly ten characters. */
  predicate DatePattern(s: string)
    ensures DatePattern(s) ==> forall i | 0 <= i < |s| :: s[i] == '-' || IsAsciiDigit(s[i])
  {
    |s| == 10 && s[4] == '-' && s[7] == '-' &&
    forall i | 0 <= i < 10 && i != 4 && i != 7 :: IsAsciiDigit(s[i])
  }

  /** `{ type: "string", pattern: "^\\d{4}-\\d{2}-\\d{2}$" }` */
  predicate DateString(v: Json) {
    v.JString? && DatePattern(v.s)
  }

  /** The array branch of `date_range`: single-schema `items`, minItems and
      maxItems 2. */
  predicate CustomDateRange(v: Json)
    ensures CustomDateRange(v) ==>
      v.JArray? && |v.items| == 2 &&
      v.items[0].JString? && |v.items[0].s| == 10 && v.items[1].JString? && |v.items[1].s| == 10
  {
    v.JArray? &&
    (forall i | 0 <= i < |v.items| :: DateString(v.items[i])) &&
    2 <= |v.items| && |v.items| <= 2
  }

  /** The nine `oneOf` branches of `date_range`. */
  function DateRangeBranches(v: Json): (bs: seq<bool>) {
    ConstBranches(v, DateRangeTokens) + [CustomDateRange(v)]
  }

  /** definitions/date_range */
  predicate DateRange(v: Json)
    ensures DateRange(v) ==> v.JString? || (v.JArray? && |v.items| == 2)
  {
    OneOf(DateRangeBranches(v))
  }

  /** The ten `const` branches of `metric`. */
  function MetricBranches(v: Json): (bs: seq<bool>) {
    ConstBranches(v, MetricTokens)
  }

  /** definitions/metric */
  predicate Metric(v: Json)
    ensures Metric(v) ==> v.JString?
  {
    OneOf(MetricBranches(v))
  }

  /** definitions/simple_filter_dimensions */
  predicate SimpleFilterDimensions(v: Json)
    ensures SimpleFilterDimensions(v) ==> v.JString? && |v.s| > 6 && v.s[5] == ':'
  {
    StringEnum(v, SimpleFilterDimensionTokens)
  }

  /** definitions/custom_property_filter_dimensions */
  predicate CustomPropertyFilterDimensions(v: Json)
    ensures CustomPropertyFilterDimensions(v) ==> v.JString? && |v.s| >= 12 && v.s[5] == ':'
  {
    v.JString? && HasPrefix(v.s, CustomPropertyPrefix)
  }

  /** definitions/goal_dimension */
  predicate GoalDimension(v: Json)
    ensures GoalDimension(v) ==> !CustomPropertyFilterDimensions(v)
  {
    v == JString(GoalToken)
  }

  /** definitions/time_dimensions */
  predicate TimeDimensions(v: Json)
    ensures TimeDimensions(v) ==> v.JString? && HasPrefix(v.s, "time") && !CustomPropertyFilterDimensions(v)
  {
    StringEnum(v, TimeDimensionTokens)
  }

  /** The three `oneOf` branches of `dimensions`. */
  function DimensionsBranches(v: Json): (bs: seq<bool>) {
    [SimpleFilterDimensions(v), CustomPropertyFilterDimensions(v), GoalDimension(v)]
  }

  /** definitions/dimensions */
  predicate Dimensions(v: Json)
    ensures Dimensions(v) ==> v.JString? && |v.s| > 6 && v.s[5] == ':'
  {
    OneOf(DimensionsBranches(v))
  }

  /** definitions/clauses */
  predicate Clauses(v: Json) {
    v.JArray? && forall i | 0 <= i < |v.items| :: v.items[i].JString?
  }

  /** The `oneOf` in the dimension slot of the first `filter_entry` branch. */
  function NegatableDimensionBranches(v: Json): (bs: seq<bool>) {
    [SimpleFilterDimensions(v), CustomPropertyFilterDimensions(v)]
  }

  /** The `oneOf` in the dimension slot of the second (`is`) `filter_entry` branch. */
  function IsDimensionBranches(v: Json): (bs: seq<bool>) {
    [GoalDimension(v), SimpleFilterDimensions(v), CustomPropertyFilterDimensions(v)]
  }

  /** A `filter_entry` branch: `type: "array"`, tuple-form `items` (each
      schema applies only where the position exists), minItems and maxItems 3. */
  predicate FilterTuple(v: Json, operations: seq<string>, dimensionSlot: Json -> seq<bool>)
    ensures FilterTuple(v, operations, dimensionSlot) ==>
      v.JArray? && |v.items| == 3 && v.items[0].JString? && v.items[0].s in operations
  {
    v.JArray? &&
    (|v.items| > 0 ==> StringEnum(v.items[0], operations)) &&
    (|v.items| > 1 ==> OneOf(dimensionSlot(v.items[1]))) &&
    (|v.items| > 2 ==> Clauses(v.items[2])) &&
    3 <= |v.items| && |v.items| <= 3
  }

  /** The two `oneOf` branches of `filter_entry`. */
  function FilterEntryBranches(v: Json): (bs: seq<bool>) {
    [FilterTuple(v, NegatableOperations, NegatableDimensionBranches),
     FilterTuple(v, IsOperations, IsDimensionBranches)]
  }

  /** definitions/filter_entry */
  predicate FilterEntry(v: Json)
    ensures FilterEntry(v) ==> v.JArray? && |v.items| == 3 && v.items[0].JString?
  {
    OneOf(FilterEntryBranches(v))
  }

  /** The `oneOf` in the first slot of `order_by_entry`. */
  function OrderByKeyBranches(v: Json): (bs: seq<bool>) {
    [Metric(v), SimpleFilterDimensions(v), CustomPropertyFilterDimensions(v)]
  }

  /** definitions/order_by_entry: tuple-form `items` with no `additionalItems`,
      `minItems` or `maxItems`, so any length is allowed. */
  predicate OrderByEntry(v: Json)
    ensures OrderByEntry(v) ==>
      v.JArray? && forall i | 0 <= i < |v.items| && i < 2 :: v.items[i].JString?
  {
    v.JArray? &&
    (|v.items| > 0 ==> OneOf(OrderByKeyBranches(v.items[0]))) &&
    (|v.items| > 1 ==> StringEnum(v.items[1], Directions))
  }

  /** `{ type: "array", items: s }` with the single-schema form of `items`. */
  predicate ArrayOf(v: Json, s: Json -> bool) {
    v.JArray? && forall i | 0 <= i < |v.items| :: s(v.items[i])
  }

  /** properties/include: an object whose listed members are booleans; it
      sets no `additionalProperties`, so other members are allowed. */
  predicate Include(v: Json)
    ensures v.JObject? && "time_labels" !in v.fields && "imports" !in v.fields ==> Include(v)
  {
    v.JObject? &&
    ("time_labels" in v.fields ==> v.fields["time_labels"].JBool?) &&
    ("imports" in v.fields ==> v.fields["imports"].JBool?)
  }

  /** The schema of the top-level member `key`, applied to `v`. */
  predicate PropertyValid(key: string, v: Json) {
    match key
    case "site_id" => v.JString?
    case "metrics" => ArrayOf(v, Metric)
    case "date_range" => DateRange(v)
    case "dimensions" => ArrayOf(v, Dimensions)
    case "filters" => ArrayOf(v, FilterEntry)
    case "order_by" => ArrayOf(v, OrderByEntry)
    case "include" => Include(v)
    case _ => true
  }

  /** The whole query document: `type: "object"`, `properties`, `required`
      and `additionalProperties: false`. */
  predicate Query(v: Json)
    ensures Query(v) ==> v.JObject? && RequiredKeys <= v.fields.Keys <= TopLevelKeys
  {
    v.JObject? &&
    (forall k | k in v.fields :: PropertyValid(k, v.fields[k])) &&
    (forall k | k in RequiredKeys :: k in v.fields) &&
    (forall k | k in v.fields :: k in TopLevelKeys)
  }
}
