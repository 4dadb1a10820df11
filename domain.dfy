/** The item record shared by every page, the draft a posting form hands to the store, and the session user. */
module Domain {
  import opened Wrappers
  import Seqs

  /** `type`: 'lost' or 'found' (a reserved word in Dafny, so the field is called `kind`). */
  datatype ItemType = Lost | Found

  /**
   * A listing as the store holds it. `status`, `urgency` and `condition` stay strings because the
   * badge tables look them up with a fallback for unknown values; `reward` is absent or a number.
   */
  datatype Item = Item(
    id: int,
    kind: ItemType,
    title: string,
    description: string,
    category: string,
    location: string,
    date: string,
    time: string,
    image: string,
    status: string,
    contact: string,
    urgency: string,
    reward: Option<nat>,
    condition: string,
    storageLocation: string)

  /**
   * The object `addItem` receives: the posting form's field record plus `type` and `image`.
   * Fields a form does not have are "" (or None); `status` and `contact` are filled in by the store.
   */
  datatype Draft = Draft(
    kind: ItemType,
    title: string,
    description: string,
    category: string,
    location: string,
    date: string,
    time: string,
    image: string,
    images: seq<string>,
    urgency: string,
    reward: Option<nat>,
    condition: string,
    storageLocation: string,
    contactPreference: string,
    status: string,
    contact: string)

  datatype User = User(id: int, name: string, email: string, avatar: string)

  /** The picture a listing gets when no image was uploaded. */
  const DefaultImage: string := "https://images.unsplash.com/photo-1558618666-fbd6c4d9d9b2?w=400"

  /** `formData.images[0] || DefaultImage`: the first upload, unless there is none or it is empty. */
  function CoverImage(images: seq<string>): (r: string)
    ensures r != ""
    ensures |images| > 0 && images[0] != "" ==> r == images[0]
    ensures r != DefaultImage ==> |images| > 0 && r == images[0]
  {
    if |images| > 0 && images[0] != "" then images[0] else DefaultImage
  }

  function KindIs(k: ItemType): Item -> bool
  {
    (x: Item) => x.kind == k
  }

  /** `items.filter(item => item.type === k)`. */
  function OfKind(items: seq<Item>, k: ItemType): (r: seq<Item>)
    ensures forall x :: x in r ==> x.kind == k
  {
    Seqs.Filter(items, KindIs(k))
  }

  /** The lost and the found views split the directory: every item lands in exactly one of them. */
  lemma KindsPartition(items: seq<Item>)
    ensures multiset(OfKind(items, Lost)) + multiset(OfKind(items, Found)) == multiset(items)
    ensures |OfKind(items, Lost)| + |OfKind(items, Found)| == |items|
    ensures forall x :: x in items ==> (x in OfKind(items, Lost) <==> x !in OfKind(items, Found))
  {
    Seqs.FilterPartition(items, KindIs(Lost), KindIs(Found));
  }

  /** `user?.email === item.contact`: only a signed-in user can own an item. */
  predicate Owns(user: Option<User>, x: Item)
  {
    user.Some? && user.value.email == x.contact
  }

  function OwnedBy(user: Option<User>): Item -> bool
  {
    (x: Item) => Owns(user, x)
  }

  /**
   * The fields an item must carry before it is created: title and category for every
   * item, plus description, date and location for a lost item and additionally condition and
   * storage location for a found one.
   */
  predicate Complete(d: Draft)
  {
    && d.title != "" && d.category != ""
    && d.description != "" && d.date != "" && d.location != ""
    && (d.kind == Found ==> d.condition != "" && d.storageLocation != "")
  }
}
