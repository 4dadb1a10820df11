/** The found-items browse page: its filter record, its result list and the handlers that edit the filters. */
module BrowseFound {
  import opened Domain
  import opened Search
  import Seqs
  import Text
  import Badges

  datatype FoundFilters = FoundFilters(category: string, location: string, condition: string, dateRange: string)

  /** The initial filter record, and what `clearFilters` restores. */
  const NoFilters: FoundFilters := FoundFilters("", "", "", "")

  predicate Matches(x: Item, query: string, f: FoundFilters)
  {
    && MatchesQuery(x, query)
    && MatchesValue(x.category, f.category)
    && MatchesValue(x.location, f.location)
    && MatchesValue(x.condition, f.condition)
  }

  function MatchesFor(query: string, f: FoundFilters): Item -> bool
  {
    (x: Item) => Matches(x, query, f)
  }

  /**
   * `filteredItems`: the found items that pass the search and every criterion, in store order.
   * A result is a found item of the store that satisfies all of them, and every such item is a result.
   */
  function FilteredItems(items: seq<Item>, query: string, f: FoundFilters): (r: seq<Item>)
    ensures forall x :: x in r ==> x in items && x.kind == Found && Matches(x, query, f)
    ensures forall x :: x in items && x.kind == Found && Matches(x, query, f) ==> x in r
    ensures Seqs.IsSubsequence(r, OfKind(items, Found)) && |r| <= |OfKind(items, Found)|
  {
    var found := OfKind(items, Found);
    Seqs.FilterIsSubsequence(found, MatchesFor(query, f));
    Seqs.Filter(found, MatchesFor(query, f))
  }

  function Criteria(query: string, f: FoundFilters): seq<Criterion>
  {
    [Query(query), Category(f.category), Location(f.location), Condition(f.condition)]
  }

  lemma CriteriaMeanMatches(x: Item, query: string, f: FoundFilters)
    ensures HoldsAll(Criteria(query, f), x) == Matches(x, query, f)
  {
    var cs := Criteria(query, f);
    if Matches(x, query, f) {
      forall c | c in cs
        ensures Holds(c, x)
      {
      }
    } else {
      assert !Holds(cs[0], x) || !Holds(cs[1], x) || !Holds(cs[2], x) || !Holds(cs[3], x);
    }
  }

  /** The result is the AND of the search and the three criteria, whatever order they are applied in. */
  lemma CriteriaInAnyOrder(items: seq<Item>, query: string, f: FoundFilters, order: seq<Criterion>)
    requires multiset(order) == multiset(Criteria(query, f))
    ensures Sift(OfKind(items, Found), order) == FilteredItems(items, query, f)
  {
    var found := OfKind(items, Found);
    SiftOrderIrrelevant(found, order, Criteria(query, f));
    SiftIsConjunction(found, Criteria(query, f));
    forall x | x in found
      ensures TestAll(Criteria(query, f))(x) == MatchesFor(query, f)(x)
    {
      CriteriaMeanMatches(x, query, f);
    }
    Seqs.FilterExtensional(found, TestAll(Criteria(query, f)), MatchesFor(query, f));
  }

  /** An empty query with every criterion cleared shows all found items. */
  lemma NoFiltersShowAllFound(items: seq<Item>)
    ensures FilteredItems(items, "", NoFilters) == OfKind(items, Found)
  {
    Seqs.FilterAllPass(OfKind(items, Found), MatchesFor("", NoFilters));
  }

  /** The search ignores case: queries that lower-case alike give the same result. */
  lemma SearchIgnoresCase(items: seq<Item>, q1: string, q2: string, f: FoundFilters)
    requires Text.Lower(q1) == Text.Lower(q2)
    ensures FilteredItems(items, q1, f) == FilteredItems(items, q2, f)
  {
    forall x | x in OfKind(items, Found)
      ensures MatchesFor(q1, f)(x) == MatchesFor(q2, f)(x)
    {
      QueryIgnoresCase(x, q1, q2);
    }
    Seqs.FilterExtensional(OfKind(items, Found), MatchesFor(q1, f), MatchesFor(q2, f));
  }

  /** `dateRange` is stored in the filter record but plays no part in the result. */
  lemma DateRangeIgnored(items: seq<Item>, query: string, f: FoundFilters, dateRange: string)
    ensures FilteredItems(items, query, f.(dateRange := dateRange)) == FilteredItems(items, query, f)
  {
    Seqs.FilterExtensional(OfKind(items, Found), MatchesFor(query, f.(dateRange := dateRange)), MatchesFor(query, f));
  }

  /** One call of `handleFilterChange(key, value)`. */
  datatype FilterChange =
    | SetCategory(category: string)
    | SetLocation(location: string)
    | SetCondition(condition: string)
    | SetDateRange(dateRange: string)

  /**
   * The condition pill on a result card: the small pill in the same tone as the detail page's
   * badge, with an unknown condition shown as good.
   */
  function CardConditionBadge(condition: string): (r: string)
    ensures |Badges.SmallPill| <= |r| && r[..|Badges.SmallPill|] == Badges.SmallPill
    ensures r[|Badges.SmallPill|..]
      == Badges.ConditionBadge(Badges.LargePill, condition)[|Badges.LargePill|..]
    ensures condition !in Badges.ConditionTones ==> r == Badges.SmallPill + Badges.ConditionTones["good"]
  {
    Badges.ConditionBadge(Badges.SmallPill, condition)
  }

  class FoundBrowser {
    var query: string
    var filters: FoundFilters

    constructor ()
      ensures query == "" && filters == NoFilters
    {
      query := "";
      filters := NoFilters;
    }

    function Results(items: seq<Item>): seq<Item>
      reads this
    {
      FilteredItems(items, query, filters)
    }

    method SetQuery(q: string)
      modifies this`query
      ensures query == q
    {
      query := q;
    }

    /** `{...filters, [key]: value}`: the named criterion takes the value, the others keep theirs. */
    method ChangeFilter(change: FilterChange)
      modifies this`filters
      ensures change.SetCategory? ==> filters == old(filters).(category := change.category)
      ensures change.SetLocation? ==> filters == old(filters).(location := change.location)
      ensures change.SetCondition? ==> filters == old(filters).(condition := change.condition)
      ensures change.SetDateRange? ==> filters == old(filters).(dateRange := change.dateRange)
    {
      match change {
        case SetCategory(v) => filters := filters.(category := v);
        case SetLocation(v) => filters := filters.(location := v);
        case SetCondition(v) => filters := filters.(condition := v);
        case SetDateRange(v) => filters := filters.(dateRange := v);
      }
    }

    /** All four criteria back to ''; the search box keeps its text. */
    method ClearFilters()
      modifies this`filters
      ensures filters == NoFilters && query == old(query)
    {
      filters := NoFilters;
    }
  }
}
