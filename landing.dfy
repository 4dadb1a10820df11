/** The landing page: the hero search box and the "recently found" strip. */
module Landing {
  import opened Wrappers
  import opened Domain
  import Seqs
  import Text
  import Directory
  import BrowseLost

  /** `items.filter(item => item.type === 'found').slice(0, 3)`. */
  function RecentFound(items: seq<Item>): (r: seq<Item>)
    ensures |r| <= 3
    ensures forall x :: x in r ==> x in items && x.kind == Found
    ensures |r| == if |OfKind(items, Found)| < 3 then |OfKind(items, Found)| else 3
    ensures r == OfKind(items, Found)[..|r|]
    ensures Seqs.IsSubsequence(r, items)
  {
    var found := OfKind(items, Found);
    var r := Seqs.Take(found, 3);
    Seqs.FilterIsSubsequence(items, KindIs(Found));
    Seqs.SubsequencePrefix(found, items, |r|);
    assert forall x :: x in r ==> x in found;
    r
  }

  /** The strip renders when there is something to show in it. */
  function ShowsRecent(items: seq<Item>): (shown: bool)
    ensures !shown ==> forall x :: x in items ==> x.kind == Lost
    ensures items == [] ==> !shown
  {
    |RecentFound(items)| > 0
  }

  lemma ShowsRecentIff(items: seq<Item>)
    ensures ShowsRecent(items) <==> exists x :: x in items && x.kind == Found
  {
    if exists x :: x in items && x.kind == Found {
      var x :| x in items && x.kind == Found;
      assert x in OfKind(items, Found);
    }
  }

  const LostItemsPath: string := "/lost-items"

  /** Where a search sends the browser: a path and the `search` parameter it carries. */
  datatype Target = Target(path: string, search: string)

  /** `/lost-items?search=<query>` (the percent-encoding of the query is not modelled). */
  function Href(t: Target): (r: string)
    ensures |r| == |t.path| + 8 + |t.search|
    ensures r[..|t.path|] == t.path && r[|t.path|..|t.path| + 8] == "?search=" && r[|t.path| + 8..] == t.search
  {
    t.path + "?search=" + t.search
  }

  /**
   * `handleSearch`: a query that is empty after trimming goes nowhere; any other query navigates
   * to the lost items page carrying the query exactly as typed, untrimmed.
   */
  function SearchTarget(query: string): (r: Option<Target>)
    ensures r.Some? <==> exists i :: 0 <= i < |query| && !Text.IsSpace(query[i])
    ensures r.Some? ==> r.value == Target(LostItemsPath, query)
  {
    Text.TrimEmptyIff(query);
    if Text.Trim(query) != "" then Some(Target(LostItemsPath, query)) else None
  }

  /** A search lands on the lost items page, signed in or not, and that page starts out with the typed query. */
  lemma SearchOpensLostBrowser(query: string, signedIn: bool)
    requires SearchTarget(query).Some?
    ensures Directory.Route(SearchTarget(query).value.path, signedIn) == Directory.BrowseLostPage
    ensures BrowseLost.InitialQuery(Some(SearchTarget(query).value.search)) == query
  {
  }
}
