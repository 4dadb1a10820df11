# Lost & Found board client — a Dafny model

This project models the client side of a university Lost & Found board. The board is a React single-page application. People browse lost and found listings, filter them, post new listings through multi-step wizards, register, and see their own listings on a dashboard.

The model covers:

- **the application root** (`Directory.App`):
  - the session user, the item list and its loading and error flags;
  - the fetch on mount;
  - `addItem`, which stamps the date, the `active` status and the contact onto a draft, hands it to the backend and puts the returned record at the head of the list;
  - the loading/error render gate;
  - the route table with its guards for members and guests.
- **the browse pages** (`BrowseLost`, `BrowseFound`, over the shared `Search` rules):
  - the case-insensitive search over title and description;
  - the filters where an empty value means "all", and the reward-only flag;
  - the filter handlers and "clear filters";
  - the `search` URL parameter.
- **the posting wizards** (`PostLost`, `PostFound`) and **the registration wizard** (`Register`):
  - the step counter;
  - per-step validation and the disabled submit button;
  - the input handlers, image upload and removal;
  - the Back button;
  - the delayed submission that builds the record (cover image, item type, fixed urgency for found items) and hands it to the store, or signs in the new account.
- **the derived views**:
  - the dashboard's ownership split and counters (`Dashboard`);
  - the detail page's lookup by route id, owner check, rows, badges, similar items, contact panel and claim dialog (`ItemDetail`);
  - the landing page's "recently found" strip and search box (`Landing`);
  - the badge style tables (`Badges`).
- **the endpoint URL builders** (`ApiConfig`).

The generic pieces are modelled in their own modules:

- `filter`/`slice` are in `Seqs`.
- `toLowerCase`, `includes` and `trim` are in `Text`.
- ECMAScript `parseInt` and the decimal form of an integer are in `Numbers`.

The backend is not modelled as code. It is a parameter:

- The fetch receives a `Result<seq<Item>, string>`.
- `addItem` receives a function `createItem: Draft -> Result<Item, string>`.

The clock is also a parameter: `today` for the date stamp, `now` for a new account's id.

### Behaviour of the code that the model keeps

- **Validation of a create is left to the wizards.** `addItem` (frontend/src/App.js:54-70) validates nothing. The wizards keep their submit button disabled until the current step is valid (frontend/src/pages/PostLostPage.js:92-105, frontend/src/pages/PostFoundPage.js:97-110), and that keeps incomplete items out. The model keeps this split:
  - `Directory.App.AddItem` accepts any draft.
  - Each wizard's `Submit` has the precondition "the button is enabled".
  - The wizard invariant `Valid()` records that every earlier step passed.
  - Together they ensure that a posted draft is `Complete`.
- **Create errors do not stop the form.** `addItem` rethrows a failure (frontend/src/App.js:65-68). The wizards call it without `await` (frontend/src/pages/PostLostPage.js:86-88, frontend/src/pages/PostFoundPage.js:91-93) and navigate in every case. This is logged under "## Findings".
- **A failed fetch keeps the list it had.** The catch branch of the fetch (frontend/src/App.js:35-37) sets only the error and the loading flag. At start-up the list is empty (frontend/src/App.js:24), so `Directory.Startup` proves the count is 0 after a failed initial fetch.

## Model

| member | source | states |
|---|---|---|
| Seqs.Filter | frontend/src/pages/DashboardPage.js:12-14 | The result is no longer than the input, holds exactly the elements that pass the predicate, and every position passes. |
| Seqs.Take | frontend/src/pages/LandingPage.js:28 | `slice(0, n)` has length `min(|s|, n)` and is the prefix of that length, so it is the whole sequence when that is no longer than `n`. |
| Seqs.DropIndex | frontend/src/pages/PostLostPage.js:64-67 | Removing a valid index leaves the elements before and after it; any other index leaves the sequence unchanged. |
| Seqs.FilterIsSubsequence | frontend/src/pages/BrowseLostPage.js:22-36 | A filter keeps store order: its result is a subsequence of its input. |
| Seqs.SubsequenceDropHead | frontend/src/pages/BrowseLostPage.js:22-36 | A subsequence of a tail is a subsequence of the whole sequence. |
| Seqs.SubsequenceDropFirst | frontend/src/pages/BrowseLostPage.js:22-36 | Dropping the first element of a subsequence leaves a subsequence. |
| Seqs.SubsequencePrefix | frontend/src/pages/ItemDetailPage.js:87-89 | A prefix of a subsequence is a subsequence, so a filtered list cut with `slice` keeps store order. |
| Seqs.SubsequenceTransitive | frontend/src/pages/DashboardPage.js:12-14 | Filtering twice still gives a subsequence of the original list. |
| Seqs.SubsequenceLength | frontend/src/pages/DashboardPage.js:30 | A subsequence is never longer than its source, which bounds the counters. |
| Seqs.FilterAllPass | frontend/src/pages/BrowseLostPage.js:25-36 | A filter whose predicate holds everywhere returns its input. |
| Seqs.FilterExtensional | frontend/src/pages/BrowseLostPage.js:25-36 | Two predicates that agree on every element filter alike. |
| Seqs.FilterConjunction | frontend/src/pages/BrowseLostPage.js:22-36 | Filtering by one predicate and then another equals filtering once by their conjunction. |
| Seqs.FilterCommutes | frontend/src/pages/BrowseLostPage.js:22-36 | Two filters may be applied in either order. |
| Seqs.FilterIdempotent | frontend/src/pages/BrowseLostPage.js:25-36 | Filtering an already filtered list by the same predicate changes nothing. |
| Seqs.FilterPartition | frontend/src/pages/DashboardPage.js:13-14 | Two complementary filters split a list: their multisets add up to it, and so do their lengths. |
| Seqs.FilterCons | frontend/src/App.js:63 | An element put at the head survives a filter exactly when it passes. |
| Text.Lower | frontend/src/pages/BrowseLostPage.js:26-28 | `toLowerCase` keeps the length and maps each character to its lower-case form. |
| Text.Upper | frontend/src/pages/BrowseLostPage.js:26-28 | Upper-casing keeps the length and maps each character to its upper-case form. |
| Text.LowerOfUpper | frontend/src/pages/BrowseLostPage.js:26-28 | Lower-casing an upper-cased string equals lower-casing the original. |
| Text.LowerIdempotent | frontend/src/pages/BrowseLostPage.js:26-28 | Lower-casing twice equals lower-casing once. |
| Text.ContainsEmpty | frontend/src/pages/BrowseLostPage.js:26-28 | Every string contains the empty string. |
| Text.ContainsItself | frontend/src/pages/BrowseLostPage.js:26-28 | Every string contains itself. |
| Text.TrimStart | frontend/src/pages/LandingPage.js:14 | The result is a suffix, it starts with a non-space, and everything dropped is white space. |
| Text.TrimEnd | frontend/src/pages/LandingPage.js:14 | The result is a prefix, it ends with a non-space, and everything dropped is white space. |
| Text.Trim | frontend/src/pages/LandingPage.js:14 | `trim()` is a contiguous piece of the string whose first and last characters are not white space. |
| Text.TrimEmptyIff | frontend/src/pages/LandingPage.js:14 | `trim()` is empty exactly when every character is ECMAScript white space. |
| Numbers.DigitValue | frontend/src/pages/ItemDetailPage.js:22 | A digit's value is below 16, a decimal digit has its face value, and values of 10 and up belong to hex letters. |
| Numbers.LeadingDigits | frontend/src/pages/ItemDetailPage.js:22 | The longest prefix of radix digits: it is a prefix, all of it is digits, and the next character is not a digit. |
| Numbers.ParseInt | frontend/src/pages/ItemDetailPage.js:22 | `parseInt` succeeds on a string that starts with a decimal digit and does not start with `0x`/`0X`. It is NaN when the first character is neither white space, a sign nor a digit. |
| Numbers.DigitChar | frontend/src/pages/PostLostPage.js:88 | The character written for a digit reads back as that digit. |
| Numbers.NatDigits | frontend/src/pages/PostLostPage.js:88 | A number's digit string is non-empty, decimal, and has no leading zero. |
| Numbers.DecimalString | frontend/src/pages/PostLostPage.js:88 | `${n}` is non-empty and starts with `-` exactly for negative numbers. Every character after the first is a decimal digit, and so is the first for `n >= 0`. |
| Numbers.NatDigitsValue | frontend/src/pages/PostLostPage.js:88 | Reading a number's digit string back gives the number. |
| Numbers.LeadingDigitsOfDigits | frontend/src/pages/ItemDetailPage.js:22 | A digit string is its own leading run of digits. |
| Numbers.ParseDecimalRoundTrip | frontend/src/pages/ItemDetailPage.js:22 | `parseInt` of an integer's decimal form gives back that integer. |
| Domain.CoverImage | frontend/src/pages/PostLostPage.js:83 | The cover image is never empty. It is the first upload when that exists and is non-empty, and the default picture otherwise. |
| Domain.OfKind | frontend/src/pages/BrowseLostPage.js:22 | Every item in the result has the requested type. |
| Domain.KindsPartition | frontend/src/pages/BrowseLostPage.js:22 | The lost and found views split the store: multisets and lengths add up, and each item is in exactly one. |
| Search.MatchesQuery | frontend/src/pages/BrowseLostPage.js:26-28 | The empty query matches every item, and so does a query equal to the title or the description up to case. |
| Search.QueryIgnoresCase | frontend/src/pages/BrowseLostPage.js:26-28 | Two queries with the same lower-cased form match the same items. |
| Search.SiftIsConjunction | frontend/src/pages/BrowseLostPage.js:25-36 | Applying criteria one after another equals one filter by their conjunction. |
| Search.SiftOrderIrrelevant | frontend/src/pages/BrowseLostPage.js:35 | Any reordering of the same criteria selects the same items in the same order. |
| Search.SiftIdempotent | frontend/src/pages/BrowseLostPage.js:25-36 | Re-applying the criteria to their own result changes nothing. |
| Directory.ContactFor | frontend/src/App.js:60 | The contact is never empty: it is the user's email when there is a user with a non-empty email, and the fallback address otherwise. |
| Directory.Stamp | frontend/src/App.js:56-61 | The sent record carries today's date, status `active` and the session contact. Every other field is the draft's. |
| Directory.AfterCreate | frontend/src/App.js:62-63 | On success the returned record heads the list and the old list follows it unchanged. On failure the list is untouched. |
| Directory.CreateOutcome | frontend/src/App.js:64-67 | `addItem` resolves to the created record's id exactly when the backend succeeds, and rethrows the backend's error otherwise. |
| Directory.GateFor | frontend/src/App.js:71-77 | Loading wins. A non-empty error is shown otherwise, and hides the routes. The routes show exactly when neither applies. |
| Directory.Route | frontend/src/App.js:86-94 | Members-only paths redirect to `/login` exactly when signed out. Guest paths redirect to `/dashboard` exactly when signed in. No other path redirects. An item page's id is the non-empty segment after `/item/`. |
| Directory.PublicRoutesIgnoreSession | frontend/src/App.js:86-94 | A path with no guard shows the same page signed in or out. |
| Directory.ItemPath | frontend/src/pages/PostLostPage.js:88 | An item link is `/item/` followed by the id's decimal form. |
| Directory.ItemPathRoutes | frontend/src/App.js:94 | An item link opens the detail page for that id's decimal form, signed in or not. |
| Directory.PromisePathRoutes | frontend/src/pages/PostLostPage.js:87-88 | The link built from an un-awaited `addItem` still routes to the detail page, with `[object Promise]` as the id. |
| Directory.App.constructor | frontend/src/App.js:23-26 | The first render has no user, no items, loading on and no error. |
| Directory.App.View | frontend/src/App.js:72-78 | The app shows the spinner while loading. Otherwise it shows the error screen exactly when the error is a non-empty message, and the routes exactly when there is none. |
| Directory.App.FetchItems | frontend/src/App.js:29-41 | On success the response becomes the list. On failure the list stays and the fixed message is recorded. Loading ends either way and the user is unchanged. |
| Directory.App.SetUser | frontend/src/App.js:23 | The session user becomes the given one. |
| Directory.App.AddItem | frontend/src/App.js:54-69 | The list becomes `AfterCreate` of the backend's answer to the stamped draft, and the result is its `CreateOutcome`. |
| Directory.Startup | frontend/src/App.js:29-41 | A failed initial fetch ends in the error view with 0 items and loading off. A successful one shows the routes over exactly the returned items. |
| Badges.Lookup | frontend/src/pages/DashboardPage.js:36-43 | A known key gets its class and an unknown key the fallback's. The answer is always one of the table's classes. |
| Badges.StatusBadge | frontend/src/pages/DashboardPage.js:36-43 | `active`, `claimed` and `resolved` map to `status-<status>`. Anything else maps to `status-active`. |
| Badges.StatusBadgeNamesKnownStatus | frontend/src/pages/DashboardPage.js:36-43 | The badge names the status itself exactly when the status is one of the three known ones. |
| Badges.DashboardUrgencyBadge | frontend/src/pages/DashboardPage.js:45-52 | The small pill plus `urgency-<u>` for high, medium or low. Any other value gets `urgency-medium`. |
| Badges.UrgencyBadge | frontend/src/pages/ItemDetailPage.js:67-74 | The pill plus the urgency's tone. Unknown urgencies get the medium tone. |
| Badges.ConditionBadge | frontend/src/pages/ItemDetailPage.js:76-84 | The pill plus the condition's tone. Unknown conditions get the good tone. |
| BrowseLost.FilteredItems | frontend/src/pages/BrowseLostPage.js:22-36 | Exactly the lost items matching the query and every filter, in store order, never more than the lost items. |
| BrowseLost.CriteriaMeanMatches | frontend/src/pages/BrowseLostPage.js:25-36 | The five criteria hold together exactly when the page's match condition holds. |
| BrowseLost.CriteriaInAnyOrder | frontend/src/pages/BrowseLostPage.js:35 | Applying the five criteria in any order gives the page's list. |
| BrowseLost.NoFiltersShowAllLost | frontend/src/pages/BrowseLostPage.js:12-18 | With an empty query and the initial filters, every lost item is listed. |
| BrowseLost.SearchIgnoresCase | frontend/src/pages/BrowseLostPage.js:26-28 | Queries that agree after lower-casing list the same items. |
| BrowseLost.UpperCaseQuerySameResult | frontend/src/pages/BrowseLostPage.js:26-28 | Upper-casing the query does not change the list. |
| BrowseLost.DateRangeIgnored | frontend/src/pages/BrowseLostPage.js:25-36 | The date-range filter has no effect on the list. |
| BrowseLost.RewardFlagNarrows | frontend/src/pages/BrowseLostPage.js:33 | Turning on reward-only keeps exactly the listed items with a positive reward. |
| BrowseLost.FilterIdempotent | frontend/src/pages/BrowseLostPage.js:25-36 | Filtering the shown list again changes nothing. |
| BrowseLost.SearchParam | frontend/src/pages/BrowseLostPage.js:56-59 | The URL carries a search parameter exactly when the query is non-empty. |
| BrowseLost.InitialQuery | frontend/src/pages/BrowseLostPage.js:11 | The starting query is empty exactly when the URL has no `search` parameter or an empty one; otherwise it is that parameter. |
| BrowseLost.SearchParamRoundTrip | frontend/src/pages/BrowseLostPage.js:11 | Re-opening the page on the URL `handleSearch` wrote restores the query. |
| BrowseLost.CardUrgencyBadge | frontend/src/pages/BrowseLostPage.js:75-82 | The card badge is the small pill followed by the same tone classes as the detail page's large badge. An unknown urgency gets the medium tone. |
| BrowseLost.LostBrowser.constructor | frontend/src/pages/BrowseLostPage.js:11-18 | The query comes from the URL's search parameter, or is empty, and the filters start empty. |
| BrowseLost.LostBrowser.SetQuery | frontend/src/pages/BrowseLostPage.js:214 | The query becomes the typed text. |
| BrowseLost.LostBrowser.ChangeFilter | frontend/src/pages/BrowseLostPage.js:61-63 | Exactly the named filter takes the new value. |
| BrowseLost.LostBrowser.ClearFilters | frontend/src/pages/BrowseLostPage.js:65-73 | The filters return to their initial values and the query is kept. |
| BrowseLost.LostBrowser.ClearShowsAll | frontend/src/pages/BrowseLostPage.js:65-73 | With no query, clearing the filters shows every lost item. |
| BrowseFound.FilteredItems | frontend/src/pages/BrowseFoundPage.js:20-33 | Exactly the found items matching the query and every filter, in store order. |
| BrowseFound.CriteriaMeanMatches | frontend/src/pages/BrowseFoundPage.js:23-33 | The four criteria hold together exactly when the page's match condition holds. |
| BrowseFound.CriteriaInAnyOrder | frontend/src/pages/BrowseFoundPage.js:32 | Applying the four criteria in any order gives the page's list. |
| BrowseFound.NoFiltersShowAllFound | frontend/src/pages/BrowseFoundPage.js:11-16 | With an empty query and the initial filters, every found item is listed. |
| BrowseFound.SearchIgnoresCase | frontend/src/pages/BrowseFoundPage.js:24-26 | Queries that agree after lower-casing list the same items. |
| BrowseFound.DateRangeIgnored | frontend/src/pages/BrowseFoundPage.js:23-33 | The date-range filter, which has a control on this page, has no effect on the list. |
| BrowseFound.CardConditionBadge | frontend/src/pages/BrowseFoundPage.js:77-84 | The card badge is the small pill followed by the same tone classes as the detail page's large badge. An unknown condition gets the good tone. |
| BrowseFound.FoundBrowser.constructor | frontend/src/pages/BrowseFoundPage.js:10-16 | The query and all filters start empty. |
| BrowseFound.FoundBrowser.SetQuery | frontend/src/pages/BrowseFoundPage.js:211 | The query becomes the typed text. |
| BrowseFound.FoundBrowser.ChangeFilter | frontend/src/pages/BrowseFoundPage.js:64-66 | Exactly the named filter takes the new value. |
| BrowseFound.FoundBrowser.ClearFilters | frontend/src/pages/BrowseFoundPage.js:68-75 | The filters return to their initial values and the query is kept. |
| PostLost.InputStep | frontend/src/pages/PostLostPage.js:107-399 | Every text input belongs to step 1, 2 or 4; step 3 has only the image controls. |
| PostLost.Apply | frontend/src/pages/PostLostPage.js:51-54 | An input leaves the uploaded images and the fields of every other step unchanged. |
| PostLost.StepValid | frontend/src/pages/PostLostPage.js:92-105 | Only steps 1-4 can be valid, and step 3 always is. The empty form passes exactly steps 3 and 4. |
| PostLost.EditKeepsOtherSteps | frontend/src/pages/PostLostPage.js:92-105 | Editing a field does not change whether any other step is valid. |
| PostLost.ImagesIrrelevant | frontend/src/pages/PostLostPage.js:92-105 | Images never affect step validity. |
| PostLost.ToDraft | frontend/src/pages/PostLostPage.js:80-84 | The record for `addItem` has type lost and the cover image, and carries every form field over. |
| PostLost.ValidStepsMakeComplete | frontend/src/pages/PostLostPage.js:92-105 | A form passing steps 1 and 2 yields a record with every field a lost item requires. |
| PostLost.PostedRecord | frontend/src/pages/PostLostPage.js:80-84 | The record sent to the backend is a lost item with status active, today's date, the session contact, the title and the cover image. |
| PostLost.Wizard.constructor | frontend/src/pages/PostLostPage.js:10-23 | The wizard opens on step 1, not loading, with the initial form (medium urgency, email contact). |
| PostLost.Wizard.Edit | frontend/src/pages/PostLostPage.js:51-54 | Only the edited field changes, and the wizard invariant survives. |
| PostLost.Wizard.SubmitDisabled | frontend/src/pages/PostLostPage.js:471 | The button is disabled while loading, and enabled only when the current step is valid. |
| PostLost.Wizard.UploadImages | frontend/src/pages/PostLostPage.js:56-62 | The new images are appended after the existing ones, and nothing else changes. |
| PostLost.Wizard.RemoveImage | frontend/src/pages/PostLostPage.js:64-67 | Exactly the image at the index is removed, and nothing else changes. |
| PostLost.Wizard.Submit | frontend/src/pages/PostLostPage.js:69-90 | Before step 4 it only advances one step. On step 4 it starts loading and schedules the form's record, which is complete. |
| PostLost.Wizard.Back | frontend/src/pages/PostLostPage.js:463 | After step 1 it goes back one step and navigates nowhere. On step 1 it returns the target `/dashboard`, which routes a signed-in user to the dashboard. |
| PostLost.Wizard.FinishAsWritten | frontend/src/pages/PostLostPage.js:78-89 | The store receives the record, loading ends, and the target is always `/item/[object Promise]`. |
| PostLost.Wizard.Finish | frontend/src/pages/PostLostPage.js:78-89 | Corrected: the store receives the record and loading ends. The target is the created item's link, or the backend's error keeps the form on its step. |
| PostFound.InputStep | frontend/src/pages/PostFoundPage.js:112-388 | Every text input belongs to step 1, 2 or 4; step 3 has only the image controls. |
| PostFound.Apply | frontend/src/pages/PostFoundPage.js:58-61 | An input leaves the uploaded images and the fields of every other step unchanged. |
| PostFound.StepValid | frontend/src/pages/PostFoundPage.js:97-110 | Only steps 1-4 can be valid, and step 3 always is. The empty form passes step 3 only. |
| PostFound.EditKeepsOtherSteps | frontend/src/pages/PostFoundPage.js:97-110 | Editing a field does not change whether any other step is valid. |
| PostFound.ImagesIrrelevant | frontend/src/pages/PostFoundPage.js:97-110 | Images never affect step validity. |
| PostFound.ToDraft | frontend/src/pages/PostFoundPage.js:84-89 | The record has type found, the cover image, urgency medium and no reward, and carries every form field over. |
| PostFound.ValidStepsMakeComplete | frontend/src/pages/PostFoundPage.js:97-110 | A form passing steps 1, 2 and 4 yields a record with every field a found item requires. |
| PostFound.Wizard.constructor | frontend/src/pages/PostFoundPage.js:10-23 | The wizard opens on step 1, not loading, with the initial form. |
| PostFound.Wizard.Edit | frontend/src/pages/PostFoundPage.js:58-61 | Only the edited field changes, and the wizard invariant survives. |
| PostFound.Wizard.SubmitDisabled | frontend/src/pages/PostFoundPage.js:456 | The button is disabled while loading, and enabled only when the current step is valid. |
| PostFound.Wizard.UploadImages | frontend/src/pages/PostFoundPage.js:63-67 | The new images are appended, and nothing else changes. |
| PostFound.Wizard.RemoveImage | frontend/src/pages/PostFoundPage.js:69-72 | Exactly the image at the index is removed. |
| PostFound.Wizard.Submit | frontend/src/pages/PostFoundPage.js:74-95 | Before step 4 it only advances. On step 4 it starts loading and schedules the form's record, which is complete. |
| PostFound.Wizard.Back | frontend/src/pages/PostFoundPage.js:448 | After step 1 it goes back one step and navigates nowhere. On step 1 it returns the target `/dashboard`, which routes a signed-in user to the dashboard. |
| PostFound.Wizard.FinishAsWritten | frontend/src/pages/PostFoundPage.js:83-94 | The store receives the record, loading ends, and the target is always `/item/[object Promise]`. |
| PostFound.Wizard.Finish | frontend/src/pages/PostFoundPage.js:83-94 | Corrected: the target is the created item's link, or the backend's error keeps the form on its step. |
| Email.IndexOf | frontend/src/pages/RegisterPage.js:149-157 | The result is the position of the first occurrence of the character, or none when it does not occur. |
| Email.LabelHasNoAt | frontend/src/pages/RegisterPage.js:149-157 | A domain label never contains `@`. |
| Email.DomainHasNoAt | frontend/src/pages/RegisterPage.js:149-157 | A valid domain never contains `@`. |
| Email.ValidEmailSplits | frontend/src/pages/RegisterPage.js:149-157 | For a local part without `@`, `local@domain` is a valid e-mail address exactly when the local part and the domain are valid. |
| Email.ValidEmailHasOneAt | frontend/src/pages/RegisterPage.js:149-157 | A valid e-mail address has exactly one `@`, with at least one character on each side. |
| Email.NoAtRejected | frontend/src/pages/RegisterPage.js:149-157 | A value without `@`, such as `abc`, is not a valid e-mail address, so it cannot leave step 1. |
| Register.InputStep | frontend/src/pages/RegisterPage.js:97-250 | Name and email inputs are on step 1; password, confirmation and terms are on step 2. |
| Register.Apply | frontend/src/pages/RegisterPage.js:46-52 | An input event changes exactly its field: the checkbox's checked state, or the text value. |
| Register.Step1Valid | frontend/src/pages/RegisterPage.js:54 | The untouched form never passes step 1. |
| Register.Step2Valid | frontend/src/pages/RegisterPage.js:55-57 | Step 2 passes only with matching passwords and the terms accepted; differing passwords always fail it. |
| Register.ShowsMismatch | frontend/src/pages/RegisterPage.js:223-225 | The warning stays hidden while the confirmation is empty or equals the password. |
| Register.MismatchBlocksStep2 | frontend/src/pages/RegisterPage.js:223 | While "Passwords do not match" shows, step 2 is invalid, and a valid step 2 never shows it. |
| Register.NewUser | frontend/src/pages/RegisterPage.js:34-40 | The account's email is the entered one, its id is the clock reading, and its name is the first name, a space and the last name. |
| Register.Wizard.constructor | frontend/src/pages/RegisterPage.js:10-21 | The form opens on step 1, empty, terms unchecked, not loading. |
| Register.Wizard.Edit | frontend/src/pages/RegisterPage.js:46-52 | Only the edited field changes, and the invariant survives. |
| Register.Wizard.SubmitDisabled | frontend/src/pages/RegisterPage.js:265 | An enabled button on step 1 means step 1 is valid. On step 2 it means step 2 is valid and nothing is loading. |
| Register.Wizard.Submit | frontend/src/pages/RegisterPage.js:23-44 | It runs only when the button is enabled and the browser accepts the `type="email"` field (line 150). Step 1 goes to step 2. Step 2 starts loading and schedules the form, which passes both steps and carries a valid e-mail address. |
| Register.Wizard.Back | frontend/src/pages/RegisterPage.js:254-261 | Step 2 goes back to step 1. |
| Register.Wizard.Finish | frontend/src/pages/RegisterPage.js:33-43 | The new account becomes the session user and loading ends. The returned target is `/dashboard`, which routes the now signed-in user to the dashboard. |
| Dashboard.UserItems | frontend/src/pages/DashboardPage.js:12 | Exactly the items whose contact is the user's email, in store order. |
| Dashboard.UserLost | frontend/src/pages/DashboardPage.js:13 | Exactly the user's lost items. |
| Dashboard.UserFound | frontend/src/pages/DashboardPage.js:14 | Exactly the user's found items. |
| Dashboard.SectionsPartition | frontend/src/pages/DashboardPage.js:13-14 | The lost and found sections split the user's items and keep store order. |
| Dashboard.StatsFor | frontend/src/pages/DashboardPage.js:29-34 | "Items Posted" is the user's item count and "Helping Others" the found count, with helping ≤ posted ≤ store size. The other two counters are fixed. |
| Dashboard.ShowsEmptyState | frontend/src/pages/DashboardPage.js:253 | The empty-state panel shows for a signed-out visitor and for an empty store. |
| Dashboard.EmptyStateIff | frontend/src/pages/DashboardPage.js:253 | The empty-state panel shows exactly when the user owns no item. |
| Dashboard.SignedOutOwnsNothing | frontend/src/pages/DashboardPage.js:12 | Without a user no item is listed. |
| Dashboard.ListedUnderContact | frontend/src/pages/DashboardPage.js:12 | Every item is listed for the user whose email is its contact. |
| Dashboard.CreatedItemHeadsDashboard | frontend/src/App.js:54-69 | After a successful create by a user with an email, that user's list is the new item followed by their previous items. This holds when the backend echoes the contact. |
| Dashboard.StatusBadgeOf | frontend/src/pages/DashboardPage.js:36-43 | A card's status badge names a known status, or falls back to active. |
| Dashboard.UrgencyBadgeOf | frontend/src/pages/DashboardPage.js:45-52 | A card's urgency badge names a known urgency, or falls back to medium. |
| ItemDetail.FindById | frontend/src/pages/ItemDetailPage.js:22 | It returns the first item with the id, or nothing exactly when no item has it (or the id is NaN). |
| ItemDetail.FindPrefersFirst | frontend/src/pages/ItemDetailPage.js:22 | Once an item carries the id the lookup succeeds, and nothing after that item affects it. |
| ItemDetail.RouteItem | frontend/src/pages/ItemDetailPage.js:22-36 | The page's item is in the store and carries the parsed route id. A segment that is not a number shows "Item not found". |
| ItemDetail.NewItemPageShowsIt | frontend/src/App.js:62-64 | The link to a created item, opened on the updated list, shows that item. |
| ItemDetail.PromisePageNotFound | frontend/src/pages/PostLostPage.js:87-88 | The link built from an un-awaited `addItem` shows "Item not found" for every store. |
| ItemDetail.IsOwner | frontend/src/pages/ItemDetailPage.js:38 | Ownership needs a user, and holds exactly when the user's email is the item's contact. |
| ItemDetail.ShowsRewardRow | frontend/src/pages/ItemDetailPage.js:235-242 | The reward row shows only for a lost item with a reward. It is hidden for found items and for a missing or zero reward. |
| ItemDetail.ShowsStorageRow | frontend/src/pages/ItemDetailPage.js:244-251 | The storage row shows only for a found item. It is hidden for lost items and for an empty storage location. |
| ItemDetail.RowsExclusive | frontend/src/pages/ItemDetailPage.js:235-251 | The reward row (lost items only) and the storage row (found items only) never show together. |
| ItemDetail.HeaderBadges | frontend/src/pages/ItemDetailPage.js:138-150 | The raw status class first, then the urgency badge for lost items or the condition badge for found items with a condition. |
| ItemDetail.SimilarItems | frontend/src/pages/ItemDetailPage.js:87-89 | At most three other items of the same type and category, never the item itself, in store order. They are the first ones of the full similar list. |
| ItemDetail.ContactHeading | frontend/src/pages/ItemDetailPage.js:302 | The heading asks "Found this item?" for lost items and "Is this yours?" for found ones. |
| ItemDetail.ContactPanelFor | frontend/src/pages/ItemDetailPage.js:305-358 | An owner sees the owner panel. A signed-in non-owner sees the claim button, labelled by type. Signed out, the prompt names owner or finder. |
| ItemDetail.OwnerNeverClaims | frontend/src/pages/ItemDetailPage.js:305-358 | An item's author sees the owner panel, and no listed item offers its own author a claim. |
| ItemDetail.ClaimDialog.constructor | frontend/src/pages/ItemDetailPage.js:14-19 | The dialog starts closed with an empty message and email contact. |
| ItemDetail.ClaimDialog.Open | frontend/src/pages/ItemDetailPage.js:323-339 | The claim button opens the dialog. |
| ItemDetail.ClaimDialog.SetMessage | frontend/src/pages/ItemDetailPage.js:403-414 | The textarea sets the message. |
| ItemDetail.ClaimDialog.ChooseContactMethod | frontend/src/pages/ItemDetailPage.js:422-443 | A radio sets the contact method to `email` or `phone`, and the phone input shows exactly when `phone` is chosen. |
| ItemDetail.ClaimDialog.SetPhoneNumber | frontend/src/pages/ItemDetailPage.js:445-454 | The phone input, present only for phone contact, sets the phone number. |
| ItemDetail.ClaimDialog.Close | frontend/src/pages/ItemDetailPage.js:458-464 | The Cancel button, like the close icon at line 392, hides the dialog. |
| ItemDetail.ClaimDialog.Submit | frontend/src/pages/ItemDetailPage.js:41-46 | It runs only with a non-empty message, and with a phone number while phone contact is chosen (both controls are `required`, lines 413 and 452). Submitting closes the dialog and leaves the store's items and user unchanged. |
| Landing.RecentFound | frontend/src/pages/LandingPage.js:28 | At most three found items, in store order, forming a prefix of the found list. |
| Landing.ShowsRecent | frontend/src/pages/LandingPage.js:215 | When the strip is hidden, every stored item is a lost item; an empty store hides it. |
| Landing.ShowsRecentIff | frontend/src/pages/LandingPage.js:215 | The strip renders exactly when the store holds a found item. |
| Landing.Href | frontend/src/pages/LandingPage.js:15 | The target is the path, `?search=`, then the query. |
| Landing.SearchTarget | frontend/src/pages/LandingPage.js:12-17 | It navigates exactly when the query has a non-space character, to the lost items page with the query untrimmed. |
| Landing.SearchOpensLostBrowser | frontend/src/pages/LandingPage.js:15 | The search opens the lost items page signed in or out, and that page starts with the typed query. |
| ApiConfig.ItemEndpoint | frontend/src/config/api.js:5 | `/items`, a `/`, then the id. |
| ApiConfig.CreateApiUrl | frontend/src/config/api.js:8 | The base URL followed by the endpoint. |
| ApiConfig.ItemIdOf | frontend/src/config/api.js:4-8 | An id read from a URL rebuilds that URL. |
| ApiConfig.ItemUrlExtendsCollection | frontend/src/config/api.js:4-8 | A per-item URL has the collection URL as a proper prefix, followed by `/`. |
| ApiConfig.ItemUrlRoundTrip | frontend/src/config/api.js:5-8 | Reading the id back from its URL gives the id. |
| ApiConfig.ItemUrlInjective | frontend/src/config/api.js:5-8 | Distinct ids never share a URL. |

## Left out

- frontend/src/services/api.js makes axios HTTP calls, which are network I/O. It is not part of this model. The backend's answers are parameters.
- backend/server.py is a FastAPI service over MongoDB and is not part of this model. Its UUID string ids clash with the client's `parseInt` lookup. Ids are modelled as integers, as the client treats them.
- frontend/src/components/Header.js is not part of this model. Its search guard repeats the landing page's, which is modelled.
- The demo auto-login effect (frontend/src/App.js:43-52), mock data and hard-coded claim requests and statistics are left out. The last two appear only as the fixed counters in `Dashboard.StatsFor`.
- Animations, view modes, the share menu, the sort dropdown (which has no handler) and every other piece of markup are left out.
- Timers are left out: `setTimeout` is modelled by splitting each submission into `Submit` and `Finish`. The clock is the `today` and `now` parameters.
- `URL.createObjectURL`, clipboard, `window.open`, `alert` and navigation are browser APIs. Uploaded images arrive as URL strings. A `navigate(...)` call is modelled as the target string the method returns.
- HTML constraint validation is modelled where it decides something: the registration e-mail field and the claim dialog's `required` controls. The posting wizards' `required` controls are already implied by their step checks. The reward's `min="0"` is implied by its `nat` type. The phone field's `type="tel"` imposes no format in browsers.
- `encodeURIComponent` on the search query is left out. Targets carry the query as typed.
- React Router matching is modelled as exact, case-sensitive path comparison. `/item/:id` takes one non-empty segment.
- `Text.Lower`: `toLowerCase` is modelled on ASCII letters only, because Unicode case mapping tables are out of scope.
- `Numbers.ParseInt`: the conversion of long digit runs to double precision is not modelled, because the values are exact integers. The result is unbounded, and `-0` is 0, which `===` treats the same way.
- `Numbers.DecimalString`: the exponent notation JavaScript uses for magnitudes of 10^21 and above is not modelled.
- `Badges.Lookup`: keys inherited from `Object.prototype` (such as `constructor`) would find a function instead of falling back. Only the listed keys are modelled.
- `Directory.App.AddItem`: the stale closure over `items` (two overlapping creates would lose one) is not modelled. Each call sees the current list.
- `PostLost.ToDraft`: the reward arrives from its numeric input as `Option<nat>`. The raw string (empty, negative or fractional) is not modelled.
- `Domain.Item`: `type` is the enumeration lost/found, as the backend declares it. An item of any other type is not represented, so the partition lemmas hold unconditionally.
- Share links and the "Send Message" button have no effect in the source and are left out.

## Findings

| source | as written | input that shows it | evidently intended | confidence | as-written member | corrected member |
|---|---|---|---|---|---|---|
| frontend/src/pages/PostLostPage.js:87-88 | `addItem(itemData)` is not awaited. Its pending promise is written into `/item/${itemId}`, so the page opens `/item/[object Promise]`, and `parseInt` of that segment is NaN. | Any submission on step 4, whatever the backend answers. The detail page then shows "Item not found". | Await `addItem`, open `/item/<created id>`, and stay on the form when the create fails. | not executed | PostLost.Wizard.FinishAsWritten, ItemDetail.PromisePageNotFound | PostLost.Wizard.Finish, ItemDetail.NewItemPageShowsIt |
| frontend/src/pages/PostFoundPage.js:92-93 | The same un-awaited `addItem` call and the same navigation to `/item/[object Promise]`. | Any submission on step 4. | Await `addItem`, then navigate to the created item or report the failure. | not executed | PostFound.Wizard.FinishAsWritten, ItemDetail.PromisePageNotFound | PostFound.Wizard.Finish, ItemDetail.NewItemPageShowsIt |
