/** Concrete documents on both sides of the schema's boundary. */
module QueryExamples {
  import opened Json
  import opened Draft07
  import opened QuerySchema
  import opened QueryGrammar

  /** "30d" is one of the relative tokens. */
  lemma ThirtyDaysAccepted()
    ensures DateRange(JString("30d"))
  {
  }

  /** "31d" is not a token, and a string is never the two-date form. */
  lemma ThirtyOneDaysRejected()
    ensures !DateRange(JString("31d"))
  {
  }

  /** Two dates of the form dddd-dd-dd. */
  lemma CustomDateRangeAccepted()
    ensures DateRange(JArray([JString("2024-01-01"), JString("2024-01-31")]))
  {
    var a := JArray([JString("2024-01-01"), JString("2024-01-31")]);
    DateRangeAccepts(a);
    assert DateString(a.items[0]) && DateString(a.items[1]);
  }

  /** The pattern checks the shape only: impossible calendar dates and a
      reversed range are accepted. */
  lemma ImpossibleDatesAccepted()
    ensures DateRange(JArray([JString("2024-13-45"), JString("2024-00-00")]))
  {
    var b := JArray([JString("2024-13-45"), JString("2024-00-00")]);
    DateRangeAccepts(b);
    assert DateString(b.items[0]) && DateString(b.items[1]);
  }

  /** One date, three dates, or dates with the wrong separator are rejected. */
  lemma CustomDateRangeRejected()
    ensures !DateRange(JArray([JString("2024-01-01")]))
    ensures !DateRange(JArray([JString("2024/01/01"), JString("2024/01/31")]))
    ensures !DateRange(JArray([JString("2024-01-01"), JString("2024-01-31"), JString("2024-02-01")]))
  {
    var a := JArray([JString("2024-01-01")]);
    assert !DateRange(a) by { DateRangeAccepts(a); }
    var b := JArray([JString("2024/01/01"), JString("2024/01/31")]);
    assert !DateRange(b) by {
      DateRangeAccepts(b);
      assert "2024/01/01"[4] == '/';
    }
    var c := JArray([JString("2024-01-01"), JString("2024-01-31"), JString("2024-02-01")]);
    assert !DateRange(c) by { DateRangeAccepts(c); }
  }

  /** Custom properties are matched by prefix, not by a closed list. */
  lemma CustomPropertyExamples()
    ensures Dimensions(JString("event:props:url"))
    ensures !Dimensions(JString("event:propz:url"))
  {
    assert Dimensions(JString("event:props:url")) by {
      DimensionsAccepts(JString("event:props:url"));
      assert "event:props:url"[..12] == CustomPropertyPrefix;
    }
    assert !Dimensions(JString("event:propz:url")) by {
      DimensionsAccepts(JString("event:propz:url"));
      assert "event:propz:url"[..12][10] != CustomPropertyPrefix[10];
    }
  }

  /** Simple and goal dimensions are accepted; time tokens are not. */
  lemma DimensionExamples()
    ensures Dimensions(JString("visit:country"))
    ensures Dimensions(JString("event:goal"))
    ensures !Dimensions(JString("time:day"))
  {
    assert Dimensions(JString("visit:country")) by { DimensionsAccepts(JString("visit:country")); }
    assert Dimensions(JString("event:goal")) by { DimensionsAccepts(JString("event:goal")); }
    assert !Dimensions(JString("time:day")) by { TimeDimensionsUnreferenced(JString("time:day")); }
  }

  /** `is_not` and `is` both take a simple dimension. */
  lemma FilterEntryAcceptedExamples()
    ensures FilterEntry(JArray([JString("is_not"), JString("visit:country"), JArray([JString("US")])]))
    ensures FilterEntry(JArray([JString("is"), JString("visit:country"), JArray([JString("US")])]))
    ensures FilterEntry(JArray([JString("is"), JString("event:goal"), JArray([JString("Signup")])]))
  {
    DimensionsAccepts(JString("visit:country"));
    DimensionsAccepts(JString("event:goal"));
    var a := JArray([JString("is_not"), JString("visit:country"), JArray([JString("US")])]);
    assert FilterEntry(a) by { FilterEntryAccepts(a); }
    var b := JArray([JString("is"), JString("visit:country"), JArray([JString("US")])]);
    assert FilterEntry(b) by { FilterEntryAccepts(b); }
    var c := JArray([JString("is"), JString("event:goal"), JArray([JString("Signup")])]);
    assert FilterEntry(c) by { FilterEntryAccepts(c); }
  }

  /** The goal only goes with `is`; unknown operations and pairs are rejected. */
  lemma FilterEntryRejectedExamples()
    ensures !FilterEntry(JArray([JString("is_not"), JString("event:goal"), JArray([JString("Signup")])]))
    ensures !FilterEntry(JArray([JString("matches"), JString("visit:country"), JArray([JString("US")])]))
    ensures !FilterEntry(JArray([JString("is"), JString("visit:country")]))
  {
    var a := JArray([JString("is_not"), JString("event:goal"), JArray([JString("Signup")])]);
    assert !FilterEntry(a) by { FilterEntryAccepts(a); }
    var b := JArray([JString("matches"), JString("visit:country"), JArray([JString("US")])]);
    assert !FilterEntry(b) by { FilterEntryAccepts(b); }
    var c := JArray([JString("is"), JString("visit:country")]);
    assert !FilterEntry(c) by { FilterEntryAccepts(c); }
  }

  /** A metric key with a direction. */
  lemma OrderByAccepted()
    ensures OrderByEntry(JArray([JString("visitors"), JString("desc")]))
  {
    var a := JArray([JString("visitors"), JString("desc")]);
    OrderByEntryAccepts(a);
    assert StringEnum(a.items[0], MetricTokens) && StringEnum(a.items[1], Directions);
  }

  /** Direction tokens are restricted to "asc" and "desc". */
  lemma OrderByDirectionRejected()
    ensures !OrderByEntry(JArray([JString("visitors"), JString("sideways")]))
  {
    var b := JArray([JString("visitors"), JString("sideways")]);
    OrderByEntryAccepts(b);
    assert !StringEnum(b.items[1], Directions);
  }

  /** The goal is not a valid order key. */
  lemma OrderByGoalRejected()
    ensures !OrderByEntry(JArray([JString("event:goal"), JString("asc")]))
  {
    var c := JArray([JString("event:goal"), JString("asc")]);
    OrderByEntryAccepts(c);
    DimensionsAccepts(JString("event:goal"));
  }

  /** The smallest accepted document: the three required members, with an
      empty metric list (the schema sets no `minItems` on `metrics`). */
  lemma MinimalQueryAccepted()
    ensures Query(JObject(map["site_id" := JString("example.com"),
                              "metrics" := JArray([]),
                              "date_range" := JString("all")]))
  {
    DateRangeAccepts(JString("all"));
  }
}
