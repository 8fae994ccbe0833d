/** The records the site keeps in the browser's local storage, the storage itself
    (one origin-wide key/value space) and the 24-hour freshness rule for a saved
    checkout, which the checkout wizard and the profile card both apply. */
module Records {
  import opened Common

  // ---------------------------------------------------------------------------
  // Checkout wizard state as it is saved

  datatype Step = Shipping | Payment | Review | Confirmation

  datatype ShippingInfo = ShippingInfo(
    firstName: string, lastName: string, email: string, phone: string,
    address: string, city: string, state: string, zipCode: string, country: string)

  datatype CardDetails = CardDetails(cardNumber: string, cardName: string, expiry: string, cvc: string)

  /** The object `saveCheckoutData` serialises; `timestamp` is in milliseconds. */
  datatype CheckoutRecord = CheckoutRecord(
    activeStep: Step, shippingInfo: ShippingInfo, paymentMethod: string,
    shippingMethod: string, cardDetails: CardDetails, timestamp: int)

  // ---------------------------------------------------------------------------
  // Favourite facts

  datatype Source = Api | Fallback
  datatype AdoptionStatus = Available | Pending | Adopted

  /** A fact record as the explore page, the axolotl demo and the favourites page
      store it; the optional fields are absent from some writers' records. */
  datatype Fact = Fact(
    id: string, fact: string, animal: string, category: string, image: string,
    source: Option<Source>, name: Option<string>, breed: Option<string>,
    age: Option<string>, location: Option<string>, personality: Option<seq<string>>,
    adoptionStatus: Option<AdoptionStatus>, specialNeeds: Option<string>)

  /** What a facts request gives back: a failure (network error, abort, a
      status that is not ok, a body that is not JSON), or a JSON body whose
      `data` member is an array of strings (`Some`) or anything else (`None`). */
  datatype FactsResponse = Failed | Received(data: Option<seq<string>>)

  /** The connection badge state of the fact pages. */
  datatype ApiStatus = Loading | Success | Error | Demo

  // ---------------------------------------------------------------------------
  // User profile

  datatype Profile = Profile(
    name: string, email: string, phone: string, address: string, avatar: string,
    joinDate: string, favoriteCount: int, adoptionCount: int, bio: string)

  /** A stored profile object: any subset of the profile's fields. */
  datatype ProfilePatch = ProfilePatch(
    name: Option<string>, email: Option<string>, phone: Option<string>,
    address: Option<string>, avatar: Option<string>, joinDate: Option<string>,
    favoriteCount: Option<int>, adoptionCount: Option<int>, bio: Option<string>)

  // ---------------------------------------------------------------------------
  // Local storage

  /** What `JSON.parse` makes of a stored string: unreadable, or one of the
      record shapes the site writes. */
  datatype Value =
    | Corrupt
    | CheckoutValue(record: CheckoutRecord)
    | IdList(ids: seq<string>)
    | FactList(facts: seq<Fact>)
    | ProfileValue(patch: ProfilePatch)

  const SavedCheckoutKey: string := "savedCheckout"
  const FavoritesKey: string := "animalFactFavorites"
  const FactsDataKey: string := "animalFactsData"
  const ProfileKey: string := "userProfile"

  /** The browser's `localStorage` for the site's origin. */
  class Store {
    var entries: map<string, Value>

    constructor (initial: map<string, Value>)
      ensures entries == initial
    {
      entries := initial;
    }

    method SetItem(key: string, v: Value)
      modifies this
      ensures entries == old(entries)[key := v]
    {
      entries := entries[key := v];
    }

    method RemoveItem(key: string)
      modifies this
      ensures entries == old(entries) - {key}
    {
      entries := entries - {key};
    }
  }

  /** The stored id list, or `None` when the key is absent or does not parse as one. */
  function StoredIds(entries: map<string, Value>): (r: Option<seq<string>>)
    ensures r.Some? <==> FavoritesKey in entries && entries[FavoritesKey].IdList?
  {
    if FavoritesKey in entries && entries[FavoritesKey].IdList? then Some(entries[FavoritesKey].ids) else None
  }

  /** The stored fact list, or `None` when the key is absent or does not parse as one. */
  function StoredFacts(entries: map<string, Value>): (r: Option<seq<Fact>>)
    ensures r.Some? <==> FactsDataKey in entries && entries[FactsDataKey].FactList?
  {
    if FactsDataKey in entries && entries[FactsDataKey].FactList? then Some(entries[FactsDataKey].facts) else None
  }

  // ---------------------------------------------------------------------------
  // Freshness of a saved checkout

  const DayMillis: int := 24 * 60 * 60 * 1000

  /** A checkout saved at `savedAt` may be offered at `now` (both in milliseconds). */
  predicate IsFresh(savedAt: int, now: int)
  {
    now - savedAt < DayMillis
  }

  /** What a mount handler finds under "savedCheckout". A parsed value of another
      shape has no timestamp; comparing with the resulting NaN is false, so it
      counts as expired. */
  datatype SavedState = NothingSaved | Unreadable | Resumable(record: CheckoutRecord) | Expired

  function InspectSaved(entries: map<string, Value>, now: int): (s: SavedState)
    ensures s.NothingSaved? <==> SavedCheckoutKey !in entries
    ensures s.Unreadable? <==> SavedCheckoutKey in entries && entries[SavedCheckoutKey].Corrupt?
    ensures s.Resumable? <==> SavedCheckoutKey in entries && entries[SavedCheckoutKey].CheckoutValue?
                              && IsFresh(entries[SavedCheckoutKey].record.timestamp, now)
    ensures s.Resumable? ==> s.record == entries[SavedCheckoutKey].record
  {
    if SavedCheckoutKey !in entries then NothingSaved
    else match entries[SavedCheckoutKey]
      case Corrupt => Unreadable
      case CheckoutValue(r) => if IsFresh(r.timestamp, now) then Resumable(r) else Expired
      case _ => Expired
  }

  /** The storage a mount check leaves behind: an expired value is removed, a
      fresh or unreadable one stays. */
  function AfterMountCheck(entries: map<string, Value>, now: int): (r: map<string, Value>)
    ensures InspectSaved(entries, now).Expired? ==> r == entries - {SavedCheckoutKey}
    ensures !InspectSaved(entries, now).Expired? ==> r == entries
  {
    if InspectSaved(entries, now).Expired? then entries - {SavedCheckoutKey} else entries
  }

  /** After the mount check nothing expired is left under the key, other keys are
      untouched, and running the check again changes nothing. */
  lemma MountCheckSettles(entries: map<string, Value>, now: int)
    ensures !InspectSaved(AfterMountCheck(entries, now), now).Expired?
    ensures AfterMountCheck(AfterMountCheck(entries, now), now) == AfterMountCheck(entries, now)
    ensures forall k :: k != SavedCheckoutKey ==>
              (k in AfterMountCheck(entries, now) <==> k in entries)
  {
  }

  /** A record exactly 24 hours old is already stale; one saved a moment later is not. */
  lemma FreshnessBoundary(savedAt: int)
    ensures !IsFresh(savedAt, savedAt + DayMillis)
    ensures IsFresh(savedAt, savedAt + DayMillis - 1)
    ensures !IsFresh(savedAt, savedAt + 25 * 60 * 60 * 1000)
  {
  }

  /** Staleness is permanent: once a record is too old it stays too old. */
  lemma StaleStaysStale(savedAt: int, now: int, later: int)
    requires !IsFresh(savedAt, now) && now <= later
    ensures !IsFresh(savedAt, later)
  {
  }
}

/** The product type of the storefront catalogue. */
module Catalog {
  /** Product ids: numbers in the catalogue, strings in the cart's signatures;
      one id type here. */
  type ProductId = int

  /** A catalogue product. The price is a whole number here; the site's
      `number` prices may be fractional, which is not modelled. */
  datatype Product = Product(
    id: ProductId, name: string, description: string, price: int, image: string,
    category: string, material: string, featured: bool, createdAt: string)
}
