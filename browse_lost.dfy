/** The lost-items browse page: its filter record, its result list and the handlers that edit the filters. */
module BrowseLost {
  import opened Wrappers
  import opened Domain
  import opened Search
  import Seqs
  import Text
  import Badges

  datatype LostFilters = LostFilters(
    category: string, location: string, urgency: string, hasReward: bool, dateRange: string)

  /** The initial filter record, and what `clearFilters` restores. */
  const NoFilters: LostFilters := LostFilters("", "", "", false, "")

  predicate Matches(x: Item, query: string, f: LostFilters)
  {
    && MatchesQuery(x, query)
    && MatchesValue(x.category, f.category)
    && MatchesValue(x.location, f.location)
    && MatchesValue(x.urgency, f.urgency)
    && MatchesReward(x, f.hasReward)
  }

  function MatchesFor(query: string, f: LostFilters): Item -> bool
  {
    (x: Item) => Matches(x, query, f)
  }

  /**
   * `filteredItems`: the lost items that pass the search and every criterion, in store order.
   * A result is a lost item of the store that satisfies all of them, and every such item is a result.
   */
  function FilteredItems(items: seq<Item>, query: string, f: LostFilters): (r: seq<Item>)
    ensures forall x :: x in r ==> x in items && x.kind == Lost && Matches(x, query, f)
    ensures forall x :: x in items && x.kind == Lost && Matches(x, query, f) ==> x in r
    ensures Seqs.IsSubsequence(r, OfKind(items, Lost)) && |r| <= |OfKind(items, Lost)|
  {
    var lost := OfKind(items, Lost);
    Seqs.FilterIsSubsequence(lost, MatchesFor(query, f));
    Seqs.Filter(lost, MatchesFor(query, f))
  }

  /** The same conditions as single criteria, in the order the page writes them. */
  function Criteria(query: string, f: LostFilters): seq<Criterion>
  {
    [Query(query), Category(f.category), Location(f.location), Urgency(f.urgency), RewardOnly(f.hasReward)]
  }

  /** Any ordering of the five criteria, applied one by one to the lost items, gives the page's result. */
  lemma CriteriaInAnyOrder(items: seq<Item>, query: string, f: LostFilters, order: seq<Criterion>)
    requires multiset(order) == multiset(Criteria(query, f))
    ensures Sift(OfKind(items, Lost), order) == FilteredItems(items, query, f)
  {
    var lost := OfKind(items, Lost);
    SiftOrderIrrelevant(lost, order, Criteria(query, f));
    SiftIsConjunction(lost, Criteria(query, f));
    forall x | x in lost
      ensures TestAll(Criteria(query, f))(x) == MatchesFor(query, f)(x)
    {
      CriteriaMeanMatches(x, query, f);
    }
    Seqs.FilterExtensional(lost, TestAll(Criteria(query, f)), MatchesFor(query, f));
  }

  lemma CriteriaMeanMatches(x: Item, query: string, f: LostFilters)
    ensures HoldsAll(Criteria(query, f), x) == Matches(x, query, f)
  {
    var cs := Criteria(query, f);
    if Matches(x, query, f) {
      forall c | c in cs
        ensures Holds(c, x)
      {
      }
    } else {
      assert !Holds(cs[0], x) || !Holds(cs[1], x) || !Holds(cs[2], x) || !Holds(cs[3], x) || !Holds(cs[4], x);
    }
  }

  /** An empty query with every criterion cleared shows all lost items. */
  lemma NoFiltersShowAllLost(items: seq<Item>)
    ensures FilteredItems(items, "", NoFilters) == OfKind(items, Lost)
  {
    Seqs.FilterAllPass(OfKind(items, Lost), MatchesFor("", NoFilters));
  }

  /** The search ignores case: queries that lower-case alike give the same result. */
  lemma SearchIgnoresCase(items: seq<Item>, q1: string, q2: string, f: LostFilters)
    requires Text.Lower(q1) == Text.Lower(q2)
    ensures FilteredItems(items, q1, f) == FilteredItems(items, q2, f)
  {
    forall x | x in OfKind(items, Lost)
      ensures MatchesFor(q1, f)(x) == MatchesFor(q2, f)(x)
    {
      QueryIgnoresCase(x, q1, q2);
    }
    Seqs.FilterExtensional(OfKind(items, Lost), MatchesFor(q1, f), MatchesFor(q2, f));
  }

  /** Typing the query in capitals finds the same items. */
  lemma UpperCaseQuerySameResult(items: seq<Item>, query: string, f: LostFilters)
    ensures FilteredItems(items, Text.Upper(query), f) == FilteredItems(items, query, f)
  {
    Text.LowerOfUpper(query);
    SearchIgnoresCase(items, Text.Upper(query), query, f);
  }

  /** `dateRange` is stored in the filter record but plays no part in the result. */
  lemma DateRangeIgnored(items: seq<Item>, query: string, f: LostFilters, dateRange: string)
    ensures FilteredItems(items, query, f.(dateRange := dateRange)) == FilteredItems(items, query, f)
  {
    Seqs.FilterExtensional(OfKind(items, Lost), MatchesFor(query, f.(dateRange := dateRange)), MatchesFor(query, f));
  }

  /** Ticking "has reward" narrows the unticked result to exactly the items with a positive reward. */
  lemma RewardFlagNarrows(items: seq<Item>, query: string, f: LostFilters)
    ensures FilteredItems(items, query, f.(hasReward := true))
         == Seqs.Filter(FilteredItems(items, query, f.(hasReward := false)), Test(RewardOnly(true)))
  {
    Seqs.FilterConjunction(OfKind(items, Lost), MatchesFor(query, f.(hasReward := false)),
      Test(RewardOnly(true)), MatchesFor(query, f.(hasReward := true)));
  }

  /** Running the page's filter over its own result changes nothing. */
  lemma FilterIdempotent(items: seq<Item>, query: string, f: LostFilters)
    ensures Seqs.Filter(FilteredItems(items, query, f), MatchesFor(query, f)) == FilteredItems(items, query, f)
  {
    Seqs.FilterIdempotent(OfKind(items, Lost), MatchesFor(query, f));
  }

  /** `searchParams.get('search') || ''`. */
  function InitialQuery(searchParam: Option<string>): (q: string)
    ensures q == "" <==> searchParam == None || searchParam == Some("")
    ensures q != "" ==> searchParam == Some(q)
  {
    if searchParam.Some? then searchParam.value else ""
  }

  /** `handleSearch`: the URL's search parameter, which is dropped for an empty query. */
  function SearchParam(query: string): (p: Option<string>)
    ensures p.Some? <==> query != ""
  {
    if query != "" then Some(query) else None
  }

  /** Re-opening the page on the URL that `handleSearch` wrote restores the same query. */
  lemma SearchParamRoundTrip(query: string)
    ensures InitialQuery(SearchParam(query)) == query
  {
  }

  /** One call of `handleFilterChange(key, value)`. */
  datatype FilterChange =
    | SetCategory(category: string)
    | SetLocation(location: string)
    | SetUrgency(urgency: string)
    | SetHasReward(hasReward: bool)
    | SetDateRange(dateRange: string)

  /**
   * The urgency pill on a result card: the small pill in the same tone as the detail page's
   * badge, with an unknown urgency shown as medium.
   */
  function CardUrgencyBadge(urgency: string): (r: string)
    ensures |Badges.SmallPill| <= |r| && r[..|Badges.SmallPill|] == Badges.SmallPill
    ensures r[|Badges.SmallPill|..]
      == Badges.UrgencyBadge(Badges.LargePill, urgency)[|Badges.LargePill|..]
    ensures urgency !in Badges.UrgencyTones ==> r == Badges.SmallPill + Badges.UrgencyTones["medium"]
  {
    Badges.UrgencyBadge(Badges.SmallPill, urgency)
  }

  class LostBrowser {
    var query: string
    var filters: LostFilters

    constructor (searchParam: Option<string>)
      ensures query == InitialQuery(searchParam) && filters == NoFilters
    {
      query := InitialQuery(searchParam);
      filters := NoFilters;
    }

    function Results(items: seq<Item>): seq<Item>
      reads this
    {
      FilteredItems(items, query, filters)
    }

    method SetQuery(q: string)
      modifies this`query
      ensures query == q
    {
      query := q;
    }

    /** `{...filters, [key]: value}`: the named criterion takes the value, the others keep theirs. */
    method ChangeFilter(change: FilterChange)
      modifies this`filters
      ensures change.SetCategory? ==> filters == old(filters).(category := change.category)
      ensures change.SetLocation? ==> filters == old(filters).(location := change.location)
      ensures change.SetUrgency? ==> filters == old(filters).(urgency := change.urgency)
      ensures change.SetHasReward? ==> filters == old(filters).(hasReward := change.hasReward)
      ensures change.SetDateRange? ==> filters == old(filters).(dateRange := change.dateRange)
    {
      match change {
        case SetCategory(v) => filters := filters.(category := v);
        case SetLocation(v) => filters := filters.(location := v);
        case SetUrgency(v) => filters := filters.(urgency := v);
        case SetHasReward(b) => filters := filters.(hasReward := b);
        case SetDateRange(v) => filters := filters.(dateRange := v);
      }
    }

    /** Every criterion back to '' or false; the search box keeps its text. */
    method ClearFilters()
      modifies this`filters
      ensures filters == NoFilters && query == old(query)
    {
      filters := NoFilters;
    }

    /** Clearing the filters of a page whose search box is empty shows every lost item. */
    method ClearShowsAll(items: seq<Item>) returns (shown: seq<Item>)
      requires query == ""
      modifies this`filters
      ensures shown == OfKind(items, Lost) && shown == Results(items)
    {
      ClearFilters();
      shown := Results(items);
      NoFiltersShowAllLost(items);
    }
  }
}
