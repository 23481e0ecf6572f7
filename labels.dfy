/** The two category-to-word mappings of the main screen: the badge on a
    listing card, and the market named in the market-insights query. Both
    name real estate and cars and fold the other three categories onto
    "equipment". */
module Labels {
  import opened Types

  /** The badge on a listing card (src/App.tsx:62). */
  function BadgeLabel(c: Category): (badge: string)
    ensures badge == "عقار" <==> c == RealEstate
    ensures badge == "سيارة" <==> c == Cars
    ensures badge == "معدة" <==> (c == Factories || c == HeavyEquipment || c == Uber)
  {
    match c
    case RealEstate => "عقار"
    case Cars => "سيارة"
    case _ => "معدة"
  }

  /** The market named in the insights query (src/App.tsx:259). */
  function MarketWord(c: Category): (word: string)
    ensures word == "العقارات" <==> c == RealEstate
    ensures word == "السيارات" <==> c == Cars
    ensures word == "المعدات الثقيلة" <==> (c == Factories || c == HeavyEquipment || c == Uber)
  {
    match c
    case RealEstate => "العقارات"
    case Cars => "السيارات"
    case _ => "المعدات الثقيلة"
  }

  /** The two mappings group the categories the same way: two categories
      share a badge exactly when they share a market. */
  lemma BadgeMarketAgree(a: Category, b: Category)
    ensures BadgeLabel(a) == BadgeLabel(b) <==> MarketWord(a) == MarketWord(b)
  {
  }

  const QueryPrefix: string := "أعطني نظرة سريعة على سوق "
  const QuerySuffix: string := " في السعودية اليوم"

  /** The market-insights question sent for the active category. */
  function InsightsQuery(c: Category): (q: string)
    ensures |q| == |QueryPrefix| + |MarketWord(c)| + |QuerySuffix|
    ensures q[..|QueryPrefix|] == QueryPrefix
    ensures q[|q| - |QuerySuffix|..] == QuerySuffix
  {
    QueryPrefix + MarketWord(c) + QuerySuffix
  }

  /** Reads the market back out of an insights question, if it has the
      question's fixed opening and closing. */
  function MarketOf(q: string): (m: Option<string>)
    ensures m.Some? ==> QueryPrefix + m.value + QuerySuffix == q
  {
    if |q| >= |QueryPrefix| + |QuerySuffix|
       && q[..|QueryPrefix|] == QueryPrefix
       && q[|q| - |QuerySuffix|..] == QuerySuffix
    then
      var m := q[|QueryPrefix|..|q| - |QuerySuffix|];
      assert q == q[..|QueryPrefix|] + m + q[|q| - |QuerySuffix|..];
      Some(m)
    else None
  }

  /** The market can be recovered from the question. */
  lemma QueryRoundTrip(c: Category)
    ensures MarketOf(InsightsQuery(c)) == Some(MarketWord(c))
  {
    var q := InsightsQuery(c);
    assert q[|QueryPrefix|..|q| - |QuerySuffix|] == MarketWord(c);
  }

  /** Two categories get the same question exactly when they name the same
      market. */
  lemma QueryDistinguishesMarkets(a: Category, b: Category)
    ensures InsightsQuery(a) == InsightsQuery(b) <==> MarketWord(a) == MarketWord(b)
  {
    if InsightsQuery(a) == InsightsQuery(b) {
      QueryRoundTrip(a);
      QueryRoundTrip(b);
    }
  }
}
