/**
 * The application root: the session's item list with its loading and error flags, the create
 * operation that stamps store-assigned fields, the render gate and the route guards.
 */
module Directory {
  import opened Wrappers
  import opened Domain
  import Numbers

  const FetchErrorMessage: string := "Failed to fetch items"

  /** The contact recorded when there is no session user (or the user has no email). */
  const FallbackContact: string := "user@umt.edu"

  /** `user?.email || 'user@umt.edu'`. */
  function ContactFor(user: Option<User>): (r: string)
    ensures r != ""
    ensures user.Some? && user.value.email != "" ==> r == user.value.email
    ensures user.None? || user.value.email == "" ==> r == FallbackContact
  {
    if user.Some? && user.value.email != "" then user.value.email else FallbackContact
  }

  /**
   * `{...newItem, date, status: 'active', contact}`: the record sent to the backend. The three
   * store-assigned fields win over whatever the draft carried; every other field is the draft's.
   */
  function Stamp(d: Draft, today: string, user: Option<User>): (r: Draft)
    ensures r.date == today && r.status == "active" && r.contact == ContactFor(user)
    ensures r.(date := d.date, status := d.status, contact := d.contact) == d
  {
    d.(date := today, status := "active", contact := ContactFor(user))
  }

  /** The list after a create call: the returned record in front of the old list, or the old list on failure. */
  function AfterCreate(items: seq<Item>, response: Result<Item, string>): (r: seq<Item>)
    ensures response.Success? ==> |r| == |items| + 1 && r[0] == response.value && r[1..] == items
    ensures response.Failure? ==> r == items
  {
    match response
    case Success(created) => [created] + items
    case Failure(_) => items
  }

  /** What `addItem` resolves to: the backend record's id, or the error it rethrows. */
  function CreateOutcome(response: Result<Item, string>): (r: Result<int, string>)
    ensures r.Success? <==> response.Success?
    ensures response.Success? ==> r.value == response.value.id
    ensures response.Failure? ==> r.error == response.error
  {
    match response
    case Success(created) => Success(created.id)
    case Failure(e) => Failure(e)
  }

  /** The three top-level views of `App`'s render. */
  datatype Gate = ShowLoading | ShowError(message: string) | ShowRoutes

  /** `if (loading) … if (error) …`: loading wins over an error, and an error hides the routes. */
  function GateFor(loading: bool, error: Option<string>): (g: Gate)
    ensures loading ==> g == ShowLoading
    ensures g.ShowError? <==> !loading && error.Some? && error.value != ""
    ensures g.ShowError? ==> g.message == error.value
    ensures g == ShowRoutes <==> !loading && (error.None? || error.value == "")
  {
    if loading then ShowLoading
    else if error.Some? && error.value != "" then ShowError(error.value)
    else ShowRoutes
  }

  datatype Page =
    | LandingPage
    | LoginPage
    | RegisterPage
    | DashboardPage
    | PostLostPage
    | PostFoundPage
    | BrowseLostPage
    | BrowseFoundPage
    | ItemDetailPage(id: string)
    | Redirect(target: string)
    | NoMatch

  /** Paths that need a signed-in user. */
  predicate MembersOnly(path: string)
  {
    path == "/dashboard" || path == "/post-lost" || path == "/post-found"
  }

  /** Paths that make no sense for a signed-in user. */
  predicate GuestsOnly(path: string)
  {
    path == "/login" || path == "/register"
  }

  /** `/item/:id`: one non-empty segment after `/item/`. */
  predicate IsItemPath(path: string)
  {
    |path| > 6 && path[..6] == "/item/" && '/' !in path[6..]
  }

  /** The route table, with the guards on the user's presence. */
  function Route(path: string, signedIn: bool): (p: Page)
    ensures MembersOnly(path) ==> (p == Redirect("/login") <==> !signedIn)
    ensures GuestsOnly(path) ==> (p == Redirect("/dashboard") <==> signedIn)
    ensures p.Redirect? ==> MembersOnly(path) || GuestsOnly(path)
    ensures p.ItemDetailPage? ==> path == "/item/" + p.id && p.id != ""
  {
    if path == "/" then LandingPage
    else if path == "/login" then (if signedIn then Redirect("/dashboard") else LoginPage)
    else if path == "/register" then (if signedIn then Redirect("/dashboard") else RegisterPage)
    else if path == "/dashboard" then (if signedIn then DashboardPage else Redirect("/login"))
    else if path == "/post-lost" then (if signedIn then PostLostPage else Redirect("/login"))
    else if path == "/post-found" then (if signedIn then PostFoundPage else Redirect("/login"))
    else if path == "/lost-items" then BrowseLostPage
    else if path == "/found-items" then BrowseFoundPage
    else if IsItemPath(path) then ItemDetailPage(path[6..])
    else NoMatch
  }

  /** Every path without a guard shows the same page whether or not someone is signed in. */
  lemma PublicRoutesIgnoreSession(path: string)
    requires !MembersOnly(path) && !GuestsOnly(path)
    ensures Route(path, true) == Route(path, false)
  {
  }

  /** `/item/${id}` for a numeric id. */
  function ItemPath(id: int): (path: string)
    ensures |path| > 6 && path[..6] == "/item/" && path[6..] == Numbers.DecimalString(id)
  {
    "/item/" + Numbers.DecimalString(id)
  }

  /** An item link opens the detail page for exactly the id's decimal form, signed in or not. */
  lemma ItemPathRoutes(id: int, signedIn: bool)
    ensures Route(ItemPath(id), signedIn) == ItemDetailPage(Numbers.DecimalString(id))
  {
    var path := ItemPath(id);
    assert '/' !in path[6..];
    // Every other route's second character differs from the 'i' of "/item/".
    assert path[1] == 'i';
  }

  /** What `${itemId}` writes when `itemId` is the promise an un-awaited `addItem` call returns. */
  const PromiseText: string := "[object Promise]"

  const PromiseItemPath: string := "/item/" + PromiseText

  /** That path is still an item link: it opens the detail page with the promise's text as its id. */
  lemma PromisePathRoutes(signedIn: bool)
    ensures Route(PromiseItemPath, signedIn) == ItemDetailPage(PromiseText)
  {
    var path := PromiseItemPath;
    assert path[1] == 'i' && path[6..] == PromiseText;
    assert '/' !in PromiseText;
  }

  class App {
    var user: Option<User>
    var items: seq<Item>
    var loading: bool
    var error: Option<string>

    /** The first render: no user, no items, loading. */
    constructor ()
      ensures user == None && items == [] && loading && error == None
    {
      user := None;
      items := [];
      loading := true;
      error := None;
    }

    /** What the app renders: the spinner, the error screen or the routes. */
    function View(): (g: Gate)
      reads this
      ensures loading ==> g == ShowLoading
      ensures g.ShowError? ==> !loading && error == Some(g.message) && g.message != ""
      ensures g == ShowRoutes <==> !loading && (error.None? || error.value == "")
    {
      GateFor(loading, error)
    }

    /** The mount effect: the backend's answer replaces the list, or the fixed error is recorded. */
    method FetchItems(response: Result<seq<Item>, string>)
      modifies this
      ensures !loading && user == old(user)
      ensures response.Success? ==> items == response.value && error == old(error)
      ensures response.Failure? ==> items == old(items) && error == Some(FetchErrorMessage)
    {
      match response {
        case Success(data) =>
          items := data;
          loading := false;
        case Failure(_) =>
          error := Some(FetchErrorMessage);
          loading := false;
      }
    }

    /** `setUser`, as the registration form uses it. */
    method SetUser(u: Option<User>)
      modifies this`user
      ensures user == u
    {
      user := u;
    }

    /**
     * `addItem`: stamps the draft, hands it to the backend, and on success puts the returned record
     * at the head of the list. On failure the list is untouched and the error is passed on.
     */
    method AddItem(newItem: Draft, today: string, createItem: Draft -> Result<Item, string>)
      returns (r: Result<int, string>)
      modifies this`items
      ensures items == AfterCreate(old(items), createItem(Stamp(newItem, today, user)))
      ensures r == CreateOutcome(createItem(Stamp(newItem, today, user)))
    {
      var item := Stamp(newItem, today, user);
      var response := createItem(item);
      match response {
        case Success(created) =>
          items := [created] + items;
          r := Success(created.id);
        case Failure(e) =>
          r := Failure(e);
      }
    }
  }

  /**
   * Mounting the application against a given backend answer: a failed fetch ends in the error view
   * with no items and no loading indicator, a successful one shows the routes over the returned list.
   */
  method Startup(response: Result<seq<Item>, string>) returns (count: nat, loading: bool, view: Gate)
    ensures !loading
    ensures response.Failure? ==> count == 0 && view == ShowError(FetchErrorMessage)
    ensures response.Success? ==> count == |response.value| && view == ShowRoutes
  {
    var app := new App();
    app.FetchItems(response);
    count, loading, view := |app.items|, app.loading, app.View();
  }
}
