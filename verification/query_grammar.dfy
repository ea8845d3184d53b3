/** What the query schema accepts, stated directly in terms of tokens and
    shapes, and proved equal to the keyword-level reading in QuerySchema.
    The key step is that every `oneOf` of the schema has pairwise disjoint
    branches, so "exactly one branch" is the same as "some branch". */
module QueryGrammar {
  import opened Json
  import opened Draft07
  import opened QuerySchema

  // ---------------------------------------------------------------------
  // Facts about the token lists
  // ---------------------------------------------------------------------

  /** A custom-property dimension starts with "event:props:", which no other
      token of the schema does. */
  lemma CustomPropertyExcludesTokens(s: string)
    requires HasPrefix(s, CustomPropertyPrefix)
    ensures s !in SimpleFilterDimensionTokens && s !in MetricTokens
    ensures s !in TimeDimensionTokens && s != GoalToken
  {
    assert s[..12][0] == 'e' && s[..12][5] == ':' && s[..12][7] == 'r';
  }

  /** Metric tokens and simple dimensions never coincide. */
  lemma MetricTokensAreNotDimensions(t: string)
    requires t in MetricTokens
    ensures t !in SimpleFilterDimensionTokens && t != GoalToken
  {
  }

  /** Time tokens are neither simple dimensions, nor the goal, nor metrics. */
  lemma TimeTokensAreNotDimensions(t: string)
    requires t in TimeDimensionTokens
    ensures t !in SimpleFilterDimensionTokens && t != GoalToken && t !in MetricTokens
    ensures !HasPrefix(t, CustomPropertyPrefix)
  {
  }

  lemma DateRangeTokensDistinct()
    ensures Distinct(DateRangeTokens)
  {
  }

  lemma MetricTokensDistinct()
    ensures Distinct(MetricTokens)
  {
  }

  // ---------------------------------------------------------------------
  // Every oneOf has pairwise disjoint branches
  // ---------------------------------------------------------------------

  lemma DateRangeBranchesDisjoint(v: Json)
    ensures AtMostOne(DateRangeBranches(v))
  {
    var consts := ConstBranches(v, DateRangeTokens);
    var bs := DateRangeBranches(v);
    DateRangeTokensDistinct();
    ConstBranchesDisjoint(v, DateRangeTokens);
    forall i, j | 0 <= i < |bs| && 0 <= j < |bs| && bs[i] && bs[j] ensures i == j {
      if i < |consts| && j < |consts| {
        assert consts[i] && consts[j];
      }
    }
  }

  lemma MetricBranchesDisjoint(v: Json)
    ensures AtMostOne(MetricBranches(v))
  {
    MetricTokensDistinct();
    ConstBranchesDisjoint(v, MetricTokens);
  }

  lemma DimensionsBranchesDisjoint(v: Json)
    ensures AtMostOne(DimensionsBranches(v))
  {
    if CustomPropertyFilterDimensions(v) { CustomPropertyExcludesTokens(v.s); }
  }

  lemma NegatableDimensionBranchesDisjoint(v: Json)
    ensures AtMostOne(NegatableDimensionBranches(v))
  {
    if CustomPropertyFilterDimensions(v) { CustomPropertyExcludesTokens(v.s); }
  }

  lemma IsDimensionBranchesDisjoint(v: Json)
    ensures AtMostOne(IsDimensionBranches(v))
  {
    if CustomPropertyFilterDimensions(v) { CustomPropertyExcludesTokens(v.s); }
  }

  lemma FilterEntryBranchesDisjoint(v: Json)
    ensures AtMostOne(FilterEntryBranches(v))
  {
  }

  lemma OrderByKeyBranchesDisjoint(v: Json)
    ensures AtMostOne(OrderByKeyBranches(v))
  {
    MetricAccepts(v);
    if CustomPropertyFilterDimensions(v) { CustomPropertyExcludesTokens(v.s); }
    if Metric(v) { MetricTokensAreNotDimensions(v.s); }
  }

  // ---------------------------------------------------------------------
  // Each definition in direct terms
  // ---------------------------------------------------------------------

  /** `metric` accepts exactly the ten metric tokens. */
  lemma MetricAccepts(v: Json)
    ensures Metric(v) <==> StringEnum(v, MetricTokens)
  {
    MetricBranchesDisjoint(v);
    OneOfOfDisjoint(MetricBranches(v));
    ConstBranchesHit(v, MetricTokens);
  }

  /** `date_range` accepts a fixed token, or an array of exactly two strings
      of the form dddd-dd-dd. */
  lemma DateRangeAccepts(v: Json)
    ensures DateRange(v) <==>
      StringEnum(v, DateRangeTokens) ||
      (v.JArray? && |v.items| == 2 && DateString(v.items[0]) && DateString(v.items[1]))
  {
    var consts := ConstBranches(v, DateRangeTokens);
    DateRangeBranchesDisjoint(v);
    OneOfOfDisjoint(DateRangeBranches(v));
    ConstBranchesHit(v, DateRangeTokens);
    assert true in DateRangeBranches(v) <==> true in consts || CustomDateRange(v);
  }

  /** `dimensions` accepts a simple dimension, any string beginning with
      "event:props:", or "event:goal". */
  lemma DimensionsAccepts(v: Json)
    ensures Dimensions(v) <==>
      v.JString? &&
      (v.s in SimpleFilterDimensionTokens || HasPrefix(v.s, CustomPropertyPrefix) || v.s == GoalToken)
  {
    DimensionsBranchesDisjoint(v);
    OneOfOfDisjoint(DimensionsBranches(v));
  }

  /** The dimension slot of `is` takes every dimension; that of the other
      three operations takes every dimension except the goal. */
  lemma FilterDimensionSlots(d: Json)
    ensures OneOf(IsDimensionBranches(d)) <==> Dimensions(d)
    ensures OneOf(NegatableDimensionBranches(d)) <==> Dimensions(d) && !GoalDimension(d)
  {
    DimensionsAccepts(d);
    IsDimensionBranchesDisjoint(d);
    OneOfOfDisjoint(IsDimensionBranches(d));
    NegatableDimensionBranchesDisjoint(d);
    OneOfOfDisjoint(NegatableDimensionBranches(d));
  }

  /** A filter is a triple (operation, dimension, clauses): `is` allows any
      dimension, `is_not`/`contains`/`does_not_contain` any but the goal, and
      no other operation is accepted. */
  lemma FilterEntryAccepts(v: Json)
    ensures FilterEntry(v) <==>
      v.JArray? && |v.items| == 3 && v.items[0].JString? &&
      Dimensions(v.items[1]) && Clauses(v.items[2]) &&
      (v.items[0].s == "is" ||
       (v.items[0].s in NegatableOperations && !GoalDimension(v.items[1])))
  {
    FilterEntryBranchesDisjoint(v);
    OneOfOfDisjoint(FilterEntryBranches(v));
    if v.JArray? && |v.items| == 3 {
      FilterDimensionSlots(v.items[1]);
    }
  }

  /** An order_by entry is an array of any length whose first element, if
      any, is a metric or a non-goal dimension and whose second, if any, is
      "asc" or "desc"; later elements are unconstrained. */
  lemma OrderByEntryAccepts(v: Json)
    ensures OrderByEntry(v) <==>
      v.JArray? &&
      (|v.items| > 0 ==>
         StringEnum(v.items[0], MetricTokens) ||
         (Dimensions(v.items[0]) && !GoalDimension(v.items[0]))) &&
      (|v.items| > 1 ==> StringEnum(v.items[1], Directions))
  {
    if v.JArray? && |v.items| > 0 {
      var k := v.items[0];
      OrderByKeyBranchesDisjoint(k);
      OneOfOfDisjoint(OrderByKeyBranches(k));
      MetricAccepts(k);
      DimensionsAccepts(k);
    }
  }

  // ---------------------------------------------------------------------
  // The document as a whole
  // ---------------------------------------------------------------------

  /** A document is accepted iff it is an object with the three required
      members and no member outside the declared seven, whose `site_id` is a
      string, whose `metrics` is an array of metric tokens, whose
      `date_range` is valid, and whose optional members, when present, are
      valid against their own schemas. */
  lemma QueryAccepts(v: Json)
    ensures Query(v) <==>
      v.JObject? &&
      "site_id" in v.fields && "metrics" in v.fields && "date_range" in v.fields &&
      v.fields.Keys <= TopLevelKeys &&
      v.fields["site_id"].JString? &&
      v.fields["metrics"].JArray? &&
      (forall i | 0 <= i < |v.fields["metrics"].items| ::
         StringEnum(v.fields["metrics"].items[i], MetricTokens)) &&
      DateRange(v.fields["date_range"]) &&
      ("dimensions" in v.fields ==> ArrayOf(v.fields["dimensions"], Dimensions)) &&
      ("filters" in v.fields ==> ArrayOf(v.fields["filters"], FilterEntry)) &&
      ("order_by" in v.fields ==> ArrayOf(v.fields["order_by"], OrderByEntry)) &&
      ("include" in v.fields ==> Include(v.fields["include"]))
  {
    if v.JObject? && "metrics" in v.fields && v.fields["metrics"].JArray? {
      var ms := v.fields["metrics"].items;
      forall i | 0 <= i < |ms| ensures Metric(ms[i]) <==> StringEnum(ms[i], MetricTokens) {
        MetricAccepts(ms[i]);
      }
    }
    if Query(v) {
      assert PropertyValid("site_id", v.fields["site_id"]);
      assert PropertyValid("metrics", v.fields["metrics"]);
      assert PropertyValid("date_range", v.fields["date_range"]);
      if "dimensions" in v.fields { assert PropertyValid("dimensions", v.fields["dimensions"]); }
      if "filters" in v.fields { assert PropertyValid("filters", v.fields["filters"]); }
      if "order_by" in v.fields { assert PropertyValid("order_by", v.fields["order_by"]); }
      if "include" in v.fields { assert PropertyValid("include", v.fields["include"]); }
    }
  }

  /** Removing a required member makes any document invalid. */
  lemma MissingRequiredRejected(m: map<string, Json>, k: string)
    requires k in RequiredKeys
    ensures !Query(JObject(m - {k}))
  {
    assert k !in (m - {k});
  }

  /** The top level is closed: adding a member outside the seven declared
      names makes any document invalid. */
  lemma UnknownMemberRejected(m: map<string, Json>, k: string, x: Json)
    requires k !in TopLevelKeys
    ensures !Query(JObject(m[k := x]))
  {
    assert k in m[k := x];
  }

  /** `include` is open: a member other than `time_labels` and `imports`
      may be added to a valid `include` object, with any value. */
  lemma IncludeIsOpen(m: map<string, Json>, k: string, x: Json)
    requires Include(JObject(m))
    requires k != "time_labels" && k != "imports"
    ensures Include(JObject(m[k := x]))
  {
  }

  /** `include.time_labels` and `include.imports` must be booleans when present. */
  lemma IncludeFlagsAreBooleans(m: map<string, Json>, k: string, x: Json)
    requires k == "time_labels" || k == "imports"
    ensures Include(JObject(m[k := x])) <==> x.JBool? && Include(JObject(m - {k}))
  {
    var m' := m[k := x];
    if k == "time_labels" {
      assert "imports" in m' <==> "imports" in m - {k};
      assert "imports" in m' ==> m'["imports"] == (m - {k})["imports"];
    } else {
      assert "time_labels" in m' <==> "time_labels" in m - {k};
      assert "time_labels" in m' ==> m'["time_labels"] == (m - {k})["time_labels"];
    }
  }

  /** `time_dimensions` is referenced by no other schema, so its tokens are
      accepted in no slot that takes a metric or a dimension. */
  lemma TimeDimensionsUnreferenced(v: Json)
    requires TimeDimensions(v)
    ensures !Dimensions(v) && !Metric(v) && !OrderByEntry(JArray([v]))
  {
    TimeTokensAreNotDimensions(v.s);
    DimensionsAccepts(v);
    MetricAccepts(v);
    OrderByEntryAccepts(JArray([v]));
  }

  /** A document listing a time token among its dimensions is rejected. */
  lemma TimeDimensionQueryRejected(v: Json, i: nat)
    requires v.JObject? && "dimensions" in v.fields
    requires v.fields["dimensions"].JArray? && i < |v.fields["dimensions"].items|
    requires TimeDimensions(v.fields["dimensions"].items[i])
    ensures !Query(v)
  {
    TimeDimensionsUnreferenced(v.fields["dimensions"].items[i]);
    assert !PropertyValid("dimensions", v.fields["dimensions"]);
  }

  /** order_by entries have no arity bound: the empty entry, a lone key, and
      a key and direction followed by anything are all accepted. */
  lemma OrderByEntryArity(key: Json, dir: Json, rest: seq<Json>)
    requires StringEnum(key, MetricTokens) || SimpleFilterDimensions(key) ||
             CustomPropertyFilterDimensions(key)
    requires StringEnum(dir, Directions)
    ensures OrderByEntry(JArray([]))
    ensures OrderByEntry(JArray([key]))
    ensures OrderByEntry(JArray([key, dir] + rest))
  {
    OrderByEntryAccepts(JArray([key]));
    OrderByEntryAccepts(JArray([key, dir] + rest));
    DimensionsAccepts(key);
  }
}
