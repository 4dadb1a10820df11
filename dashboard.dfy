/** The signed-in user's dashboard: their own listings split by type, the counters and the badges. */
module Dashboard {
  import opened Wrappers
  import opened Domain
  import Seqs
  import Directory
  import Badges

  /** `items.filter(item => item.contact === user?.email)`: exactly the user's items, in store order. */
  function UserItems(items: seq<Item>, user: Option<User>): (r: seq<Item>)
    ensures forall x :: x in r ==> x in items && Owns(user, x)
    ensures forall x :: x in items && Owns(user, x) ==> x in r
    ensures Seqs.IsSubsequence(r, items)
  {
    Seqs.FilterIsSubsequence(items, OwnedBy(user));
    Seqs.Filter(items, OwnedBy(user))
  }

  function UserLost(items: seq<Item>, user: Option<User>): (r: seq<Item>)
    ensures forall x :: x in r <==> x in UserItems(items, user) && x.kind == Lost
  {
    OfKind(UserItems(items, user), Lost)
  }

  function UserFound(items: seq<Item>, user: Option<User>): (r: seq<Item>)
    ensures forall x :: x in r <==> x in UserItems(items, user) && x.kind == Found
  {
    OfKind(UserItems(items, user), Found)
  }

  /** The lost and found sections together show each of the user's items exactly once. */
  lemma SectionsPartition(items: seq<Item>, user: Option<User>)
    ensures multiset(UserLost(items, user)) + multiset(UserFound(items, user)) == multiset(UserItems(items, user))
    ensures |UserLost(items, user)| + |UserFound(items, user)| == |UserItems(items, user)|
    ensures Seqs.IsSubsequence(UserLost(items, user), items) && Seqs.IsSubsequence(UserFound(items, user), items)
  {
    var mine := UserItems(items, user);
    KindsPartition(mine);
    Seqs.FilterIsSubsequence(mine, KindIs(Lost));
    Seqs.FilterIsSubsequence(mine, KindIs(Found));
    Seqs.SubsequenceTransitive(UserLost(items, user), mine, items);
    Seqs.SubsequenceTransitive(UserFound(items, user), mine, items);
  }

  /** The four counters; "Items Recovered" and "Success Rate" are fixed values in the page. */
  datatype Stats = Stats(posted: nat, recovered: nat, helping: nat, successRate: string)

  function StatsFor(items: seq<Item>, user: Option<User>): (s: Stats)
    ensures s.posted == |UserItems(items, user)| && s.helping == |UserFound(items, user)|
    ensures s.helping <= s.posted <= |items|
    ensures s.recovered == 3 && s.successRate == "85%"
  {
    SectionsPartition(items, user);
    Seqs.SubsequenceLength(UserItems(items, user), items);
    Stats(|UserItems(items, user)|, 3, |UserFound(items, user)|, "85%")
  }

  /** "No items posted yet" appears exactly when the user owns nothing in the store. */
  function ShowsEmptyState(items: seq<Item>, user: Option<User>): (shown: bool)
    ensures user.None? ==> shown
    ensures items == [] ==> shown
  {
    |UserItems(items, user)| == 0
  }

  lemma EmptyStateIff(items: seq<Item>, user: Option<User>)
    ensures ShowsEmptyState(items, user) <==> forall x :: x in items ==> !Owns(user, x)
  {
    if !ShowsEmptyState(items, user) {
      assert UserItems(items, user)[0] in UserItems(items, user);
    }
  }

  /** Without a session user the dashboard lists nothing (the route itself redirects to the login page). */
  lemma SignedOutOwnsNothing(items: seq<Item>)
    ensures UserItems(items, None) == []
  {
  }

  /** Every item appears on the dashboard of the user whose email is its contact. */
  lemma ListedUnderContact(items: seq<Item>, x: Item, u: User)
    requires x in items && u.email == x.contact
    ensures x in UserItems(items, Some(u))
  {
  }

  /**
   * The listing a signed-in user with an email just created, echoed back by the backend with the
   * contact it was sent, heads that user's dashboard.
   */
  lemma CreatedItemHeadsDashboard(items: seq<Item>, d: Draft, today: string, u: User, created: Item)
    requires u.email != "" && created.contact == Directory.Stamp(d, today, Some(u)).contact
    ensures UserItems(Directory.AfterCreate(items, Success(created)), Some(u)) == [created] + UserItems(items, Some(u))
  {
    var after := Directory.AfterCreate(items, Success(created));
    assert after == [created] + items;
    Seqs.FilterCons(created, items, OwnedBy(Some(u)));
  }

  /** The status badge of an item card on the dashboard. */
  function StatusBadgeOf(x: Item): (r: string)
    ensures x.status in {"active", "claimed", "resolved"} ==> r == "status-" + x.status
    ensures x.status !in {"active", "claimed", "resolved"} ==> r == "status-active"
  {
    Badges.StatusBadge(x.status)
  }

  /** The urgency badge of a lost item card on the dashboard. */
  function UrgencyBadgeOf(x: Item): (r: string)
    ensures x.urgency in {"high", "medium", "low"} ==> r == Badges.SmallPill + "urgency-" + x.urgency
    ensures x.urgency !in {"high", "medium", "low"} ==> r == Badges.SmallPill + "urgency-medium"
  {
    Badges.DashboardUrgencyBadge(x.urgency)
  }
}
