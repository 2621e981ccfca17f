/** The AQI category classifier of the prediction page: a first-match chain of
    six closed ranges over the model's raw (untruncated) prediction. A score that
    falls in none of the ranges leaves the category at its sentinel value 0,
    modelled here as NoCategory. */
module Classifier {

  /** The value `aqi_category` holds after the match chain. */
  datatype Category =
    | NoCategory   // the sentinel 0 the variable is initialised with
    | Good
    | Moderate
    | UnhealthyForSensitiveGroups
    | Unhealthy
    | VeryUnhealthy
    | Hazardous

  /** The text the page writes for a category: each label as the chain
      assigns it, and the sentinel, an integer, written as 0. */
  function Label(c: Category): (r: string)
    ensures r == "0" <==> c == NoCategory
    ensures c != NoCategory ==> |r| > 0 && r[0] in "GMUVH"
  {
    match c
    case NoCategory => "0"
    case Good => "Good"
    case Moderate => "Moderate"
    case UnhealthyForSensitiveGroups => "Unhealthy for Sensitive groups"
    case Unhealthy => "Unhealthy"
    case VeryUnhealthy => "Very Unhealthy"
    case Hazardous => "Hazardous"
  }

  /** Different categories are written differently, so the page's text
      identifies the category. */
  lemma LabelInjective(c1: Category, c2: Category)
    requires Label(c1) == Label(c2)
    ensures c1 == c2
  {
  }

  /** Severity rank of a labelled category: Good = 0 up to Hazardous = 5. */
  function Severity(c: Category): (r: nat)
    requires c != NoCategory
    ensures r <= 5
  {
    match c
    case Good => 0
    case Moderate => 1
    case UnhealthyForSensitiveGroups => 2
    case Unhealthy => 3
    case VeryUnhealthy => 4
    case Hazardous => 5
  }

  /** The upper end of a range: closed at an integer, or open-ended. */
  datatype Upper = AtMost(hi: int) | Unbounded

  /** The range table: each labelled category's inclusive lower bound ... */
  function Lower(c: Category): int
    requires c != NoCategory
  {
    match c
    case Good => 0
    case Moderate => 51
    case UnhealthyForSensitiveGroups => 101
    case Unhealthy => 151
    case VeryUnhealthy => 201
    case Hazardous => 301
  }

  /** ... and its upper bound. */
  function UpperOf(c: Category): Upper
    requires c != NoCategory
  {
    match c
    case Good => AtMost(50)
    case Moderate => AtMost(100)
    case UnhealthyForSensitiveGroups => AtMost(150)
    case Unhealthy => AtMost(200)
    case VeryUnhealthy => AtMost(300)
    case Hazardous => Unbounded
  }

  /** The score lies in the category's range of the table. */
  predicate InBand(c: Category, s: real)
  {
    && c != NoCategory
    && Lower(c) as real <= s
    && (match UpperOf(c)
        case Unbounded => true
        case AtMost(hi) => s <= hi as real)
  }

  /** The categories in the order the match chain tests them. */
  const SourceOrder: seq<Category> :=
    [Good, Moderate, UnhealthyForSensitiveGroups, Unhealthy, VeryUnhealthy, Hazardous]

  /** The match chain on the raw prediction. Its result is the one category
      whose range holds the score, or NoCategory when no range holds it. */
  function Classify(s: real): (r: Category)
    ensures forall c :: InBand(c, s) <==> (r != NoCategory && c == r)
  {
    if 0.0 <= s <= 50.0 then Good
    else if 51.0 <= s <= 100.0 then Moderate
    else if 101.0 <= s <= 150.0 then UnhealthyForSensitiveGroups
    else if 151.0 <= s <= 200.0 then Unhealthy
    else if 201.0 <= s <= 300.0 then VeryUnhealthy
    else if 301.0 <= s then Hazardous
    else NoCategory
  }

  /** Each closed range gets its own label, in both directions. */
  lemma ClassifyRanges(s: real)
    ensures Classify(s) == Good <==> 0.0 <= s <= 50.0
    ensures Classify(s) == Moderate <==> 51.0 <= s <= 100.0
    ensures Classify(s) == UnhealthyForSensitiveGroups <==> 101.0 <= s <= 150.0
    ensures Classify(s) == Unhealthy <==> 151.0 <= s <= 200.0
    ensures Classify(s) == VeryUnhealthy <==> 201.0 <= s <= 300.0
    ensures Classify(s) == Hazardous <==> 301.0 <= s
  {
  }

  /** The boundary values belong to the range they close. */
  lemma Boundaries()
    ensures Classify(0.0) == Good && Classify(50.0) == Good
    ensures Classify(51.0) == Moderate && Classify(100.0) == Moderate
    ensures Classify(101.0) == UnhealthyForSensitiveGroups && Classify(150.0) == UnhealthyForSensitiveGroups
    ensures Classify(151.0) == Unhealthy && Classify(200.0) == Unhealthy
    ensures Classify(201.0) == VeryUnhealthy && Classify(300.0) == VeryUnhealthy
    ensures Classify(301.0) == Hazardous
  {
  }

  /** No score lies in two ranges, so at most one guard of the chain holds. */
  lemma BandsDisjoint(c1: Category, c2: Category, s: real)
    requires InBand(c1, s) && InBand(c2, s)
    ensures c1 == c2
  {
  }

  /** The open stretches between consecutive ranges. */
  predicate InGap(s: real)
  {
    || 50.0 < s < 51.0
    || 100.0 < s < 101.0
    || 150.0 < s < 151.0
    || 200.0 < s < 201.0
    || 300.0 < s < 301.0
  }

  /** The sentinel survives exactly for negative scores and scores inside a gap. */
  lemma NoCategoryExactly(s: real)
    ensures Classify(s) == NoCategory <==> s < 0.0 || InGap(s)
  {
  }

  /** Every integer-valued non-negative score gets a label. */
  lemma WholeScoresLabelled(n: int)
    requires n >= 0
    ensures Classify(n as real) != NoCategory
  {
  }

  /** Severity never decreases as the score grows, across labelled scores. */
  lemma SeverityMonotone(s1: real, s2: real)
    requires s1 <= s2
    requires Classify(s1) != NoCategory && Classify(s2) != NoCategory
    ensures Severity(Classify(s1)) <= Severity(Classify(s2))
  {
  }

  /** A first-match chain that tests the ranges of `order` in the given order. */
  function FirstMatch(order: seq<Category>, s: real): Category
  {
    if |order| == 0 then NoCategory
    else if InBand(order[0], s) then order[0]
    else FirstMatch(order[1..], s)
  }

  /** Whatever order the ranges are tested in, a chain finds the category of
      `Classify`, provided that category is among those tested. */
  lemma {:induction false} FirstMatchAnyOrder(order: seq<Category>, s: real)
    ensures FirstMatch(order, s) == if Classify(s) in order then Classify(s) else NoCategory
  {
    if |order| > 0 {
      FirstMatchAnyOrder(order[1..], s);
      assert order == [order[0]] + order[1..];
    }
  }

  /** In particular the chain's own order, and any permutation of it, agree
      with `Classify`: the order of the guards never changes the result. */
  lemma OrderIrrelevant(order: seq<Category>, s: real)
    requires multiset(order) == multiset(SourceOrder)
    ensures FirstMatch(order, s) == Classify(s)
    ensures FirstMatch(SourceOrder, s) == Classify(s)
  {
    FirstMatchAnyOrder(order, s);
    FirstMatchAnyOrder(SourceOrder, s);
    var c := Classify(s);
    if c != NoCategory {
      assert c in multiset(SourceOrder);
      assert c in multiset(order);
    }
  }
}
