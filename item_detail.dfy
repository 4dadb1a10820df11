/** The detail page of one listing: lookup by route id, owner check, rows, badges, similar items and the contact panel. */
module ItemDetail {
  import opened Wrappers
  import opened Domain
  import Seqs
  import Badges
  import Directory
  import Numbers
  import Text

  /** `items.find(i => i.id === n)`: the first item carrying the id; `None` (NaN) matches nothing. */
  function FindById(items: seq<Item>, id: Option<int>): (r: Option<Item>)
    ensures r.Some? ==> id.Some? && r.value in items && r.value.id == id.value
    ensures r.None? <==> id.None? || forall x :: x in items ==> x.id != id.value
    ensures r.Some? ==> exists k :: 0 <= k < |items| && items[k] == r.value && forall j :: 0 <= j < k ==> items[j].id != id.value
    decreases |items|
  {
    if id.None? || items == [] then None
    else if items[0].id == id.value then Some(items[0])
    else
      var rest := FindById(items[1..], id);
      if rest.Some? then
        ghost var k :| 0 <= k < |items[1..]| && items[1..][k] == rest.value && forall j :: 0 <= j < k ==> items[1..][j].id != id.value;
        assert items[k + 1] == rest.value;
        assert forall j :: 0 <= j < k + 1 ==> items[j].id != id.value by {
          forall j | 0 <= j < k + 1
            ensures items[j].id != id.value
          {
            if j > 0 {
              assert items[j] == items[1..][j - 1];
            }
          }
        }
        rest
      else
        assert forall x :: x in items ==> x == items[0] || x in items[1..];
        rest
  }

  /** Once some item carries the id the lookup succeeds, and items after the first match are never consulted. */
  lemma {:induction false} FindPrefersFirst(items: seq<Item>, id: int, k: nat)
    requires k < |items| && items[k].id == id
    ensures FindById(items, Some(id)).Some?
    ensures FindById(items, Some(id)) == FindById(items[..k + 1], Some(id))
    decreases k
  {
    if items[0].id != id {
      FindPrefersFirst(items[1..], id, k - 1);
      assert items[..k + 1][1..] == items[1..][..k];
    }
  }

  /** `items.find(i => i.id === parseInt(id))` for the `:id` segment of the route. */
  function RouteItem(items: seq<Item>, segment: string): (r: Option<Item>)
    ensures r.Some? ==> r.value in items && Numbers.ParseInt(segment) == Some(r.value.id)
    ensures Numbers.ParseInt(segment).None? ==> r.None?
  {
    FindById(items, Numbers.ParseInt(segment))
  }

  /** The link to a freshly created item opens that item's detail page. */
  lemma NewItemPageShowsIt(items: seq<Item>, created: Item, signedIn: bool)
    ensures Directory.Route(Directory.ItemPath(created.id), signedIn) == Directory.ItemDetailPage(Numbers.DecimalString(created.id))
    ensures RouteItem(Directory.AfterCreate(items, Success(created)), Numbers.DecimalString(created.id)) == Some(created)
  {
    Directory.ItemPathRoutes(created.id, signedIn);
    Numbers.ParseDecimalRoundTrip(created.id);
  }

  /** The link written from an un-awaited `addItem` opens the detail page, which finds no item whatever the store holds. */
  lemma PromisePageNotFound(items: seq<Item>, signedIn: bool)
    ensures Directory.Route(Directory.PromiseItemPath, signedIn) == Directory.ItemDetailPage(Directory.PromiseText)
    ensures RouteItem(items, Directory.PromiseText) == None
  {
    Directory.PromisePathRoutes(signedIn);
    var text := Directory.PromiseText;
    assert text[0] == '[' && !Text.IsSpace(text[0]) && !Numbers.IsDigitIn(text[0], 10);
  }

  /** `user?.email === item.contact`. */
  function IsOwner(user: Option<User>, x: Item): (r: bool)
    ensures r ==> user.Some?
    ensures r <==> Owns(user, x)
  {
    user.Some? && user.value.email == x.contact
  }

  /** "Reward offered" shows only for a lost item with a positive reward. */
  function ShowsRewardRow(x: Item): (shown: bool)
    ensures shown ==> x.kind == Lost && x.reward.Some?
    ensures x.kind == Found || x.reward == None || x.reward == Some(0) ==> !shown
  {
    x.kind == Lost && x.reward.Some? && x.reward.value > 0
  }

  /** "Current location" shows only for a found item with a storage location. */
  function ShowsStorageRow(x: Item): (shown: bool)
    ensures shown ==> x.kind == Found
    ensures x.kind == Lost || x.storageLocation == "" ==> !shown
  {
    x.kind == Found && x.storageLocation != ""
  }

  /** No item shows both the reward row and the storage row. */
  lemma RowsExclusive(x: Item)
    ensures !(ShowsRewardRow(x) && ShowsStorageRow(x))
    ensures ShowsRewardRow(x) ==> x.kind == Lost
    ensures ShowsStorageRow(x) ==> x.kind == Found
  {
  }

  /**
   * The badges beside the title: the raw status class, then the urgency badge for a lost item or
   * the condition badge for a found item that has a condition.
   */
  function HeaderBadges(x: Item): (r: seq<string>)
    ensures |r| >= 1 && r[0] == "status-" + x.status
    ensures x.kind == Lost ==> r == [r[0], Badges.UrgencyBadge(Badges.LargePill, x.urgency)]
    ensures x.kind == Found && x.condition != "" ==> r == [r[0], Badges.ConditionBadge(Badges.LargePill, x.condition)]
    ensures x.kind == Found && x.condition == "" ==> |r| == 1
  {
    var status := "status-" + x.status;
    if x.kind == Lost then [status, Badges.UrgencyBadge(Badges.LargePill, x.urgency)]
    else if x.condition != "" then [status, Badges.ConditionBadge(Badges.LargePill, x.condition)]
    else [status]
  }

  /** The rule of `similarItems` before the cut to three. */
  function SimilarTo(item: Item): Item -> bool
  {
    (i: Item) => i.id != item.id && i.category == item.category && i.kind == item.kind
  }

  /**
   * `items.filter(similar).slice(0, 3)`: at most three other items of the same type and category,
   * the first ones of the whole similar list in store order.
   */
  function SimilarItems(items: seq<Item>, item: Item): (r: seq<Item>)
    ensures |r| <= 3
    ensures forall x :: x in r ==> x in items && x.id != item.id && x.category == item.category && x.kind == item.kind
    ensures item !in r
    ensures Seqs.IsSubsequence(r, items)
    ensures |r| == if |Seqs.Filter(items, SimilarTo(item))| < 3 then |Seqs.Filter(items, SimilarTo(item))| else 3
    ensures r == Seqs.Filter(items, SimilarTo(item))[..|r|]
  {
    var all := Seqs.Filter(items, SimilarTo(item));
    var r := Seqs.Take(all, 3);
    Seqs.FilterIsSubsequence(items, SimilarTo(item));
    Seqs.SubsequencePrefix(all, items, |r|);
    assert forall x :: x in r ==> x in all;
    r
  }

  /** "Found this item?" on a lost listing, "Is this yours?" on a found one. */
  function ContactHeading(x: Item): (r: string)
    ensures x.kind == Lost ==> r == "Found this item?"
    ensures x.kind == Found ==> r == "Is this yours?"
  {
    if x.kind == Lost then "Found this item?" else "Is this yours?"
  }

  /** The three shapes of the contact panel. */
  datatype ContactPanel =
    | OwnerPanel
    | ClaimPanel(claimLabel: string)
    | SignInPanel(party: string)

  /** `isOwner ? … : user ? … : …`. */
  function ContactPanelFor(user: Option<User>, x: Item): (r: ContactPanel)
    ensures r.OwnerPanel? <==> IsOwner(user, x)
    ensures r.ClaimPanel? <==> user.Some? && !IsOwner(user, x)
    ensures r.SignInPanel? <==> user.None?
    ensures r.ClaimPanel? ==> r.claimLabel == (if x.kind == Lost then "I Found This Item" else "This is Mine")
    ensures r.SignInPanel? ==> r.party == (if x.kind == Lost then "owner" else "finder")
  {
    if IsOwner(user, x) then OwnerPanel
    else if user.Some? then ClaimPanel(if x.kind == Lost then "I Found This Item" else "This is Mine")
    else SignInPanel(if x.kind == Lost then "owner" else "finder")
  }

  /** The owner of an item is never offered to claim it, and its author always sees the owner panel. */
  lemma OwnerNeverClaims(items: seq<Item>, u: User, x: Item)
    requires x in items && u.email == x.contact
    ensures ContactPanelFor(Some(u), x) == OwnerPanel
    ensures forall y :: y in items && ContactPanelFor(Some(u), y).ClaimPanel? ==> y.contact != u.email
  {
  }

  /** The claim dialog: its visibility flag and the fields it collects. */
  class ClaimDialog {
    var open: bool
    var message: string
    var contactMethod: string
    var phoneNumber: string

    constructor ()
      ensures !open && message == "" && contactMethod == "email" && phoneNumber == ""
    {
      open := false;
      message := "";
      contactMethod := "email";
      phoneNumber := "";
    }

    /** The phone number input appears only when phone contact is chosen. */
    predicate ShowsPhoneField()
      reads this
    {
      contactMethod == "phone"
    }

    /** The claim button of a signed-in non-owner opens the dialog. */
    method Open(panel: ContactPanel)
      requires panel.ClaimPanel?
      modifies this`open
      ensures open
    {
      open := true;
    }

    /** The message textarea; the other claim fields keep their values. */
    method SetMessage(m: string)
      modifies this`message
      ensures message == m
    {
      message := m;
    }

    /**
     * The two radio buttons, whose values are `"email"` and `"phone"`; choosing email hides the
     * phone input but keeps what was typed into it.
     */
    method ChooseContactMethod(choice: string)
      requires choice == "email" || choice == "phone"
      modifies this`contactMethod
      ensures contactMethod == choice && ShowsPhoneField() == (choice == "phone")
    {
      contactMethod := choice;
    }

    /** The phone input, which exists only while phone contact is chosen. */
    method SetPhoneNumber(p: string)
      requires ShowsPhoneField()
      modifies this`phoneNumber
      ensures phoneNumber == p
    {
      phoneNumber := p;
    }

    /** The close and Cancel buttons hide the dialog and keep what was typed. */
    method Close()
      modifies this`open
      ensures !open
    {
      open := false;
    }

    /**
     * `handleClaimSubmit`: the dialog closes; nothing is sent and the store's items stay as they
     * were. The browser submits the form only with a message and, while phone contact is chosen,
     * a phone number: both controls are `required`.
     */
    method Submit(app: Directory.App)
      requires open && message != "" && (ShowsPhoneField() ==> phoneNumber != "")
      modifies this`open
      ensures !open && app.items == old(app.items) && app.user == old(app.user)
      ensures message == old(message) && contactMethod == old(contactMethod)
    {
      open := false;
    }
  }
}
