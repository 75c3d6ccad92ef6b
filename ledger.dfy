/**
 * The slot ledger: the JSON document kept as the free-text description of a calendar event, and
 * the request bodies the two forms post to the server.
 *
 * JSON `null` and an absent key are both `None`: every reader in the core treats them alike (both
 * are falsy). Amounts are integer cents, instants are milliseconds since the epoch.
 */
module Ledger {
  import opened Wrappers

  /** A reading of `Date.now()`, or the instant an ISO timestamp in the ledger denotes. */
  type Millis = int

  /** The price, in cents, every component falls back to. */
  const DefaultPrice: int := 10000

  /** An offer to take over a booking, as the add-offer handler stores it. */
  datatype Offer = Offer(
    offerId: string,
    offerAmount: int,
    offerBy: string,
    phone: string,
    location: string,
    offerAt: Millis,
    offerValidUntil: Millis,
    offerAccepted: bool,
    partialPaymentID: Option<string>,
    partialPaymentAmount: int,
    partialPaymentCaptured: bool,
    fullPaymentID: Option<string>,
    fullPaymentAmount: int,
    fullPaymentAuthorized: bool,
    fullPaymentFulfilled: bool,
    paymentSplit: bool)

  /** A booking record as the booking form builds it; `offers` is absent until the first offer. */
  datatype Booking = Booking(
    bookingId: string,
    price: int,
    paymentID: string,
    name: string,
    contact: string,
    phone: string,
    location: string,
    amountAuthorisedForPayment: int,
    paymentAuthorised: bool,
    paymentFulfilled: bool,
    desiredOffer: int,
    bookedAt: Millis,
    offers: Option<seq<Offer>>)

  /**
   * The top-level ledger object. `price` is the key the booking form reads; the server writes
   * `originalPrice` in its default ledger. Keys the core never reads or writes are not modelled.
   */
  datatype Slot = Slot(
    status: Option<string>,
    price: Option<int>,
    originalPrice: Option<int>,
    latestBookingPrice: Option<int>,
    recommendedPrice: Option<int>,
    suggestedOffer: Option<int>,
    bookings: Option<seq<Booking>>)

  /**
   * What `JSON.parse` can produce from a description: an object (read as a ledger), `null`,
   * a primitive (number, string, boolean), or an array. Only objects are looked into.
   */
  datatype Json = LedgerObject(slot: Slot) | NullValue | ScalarValue | ArrayValue

  /** `JSON.parse`, a call into the runtime: `None` when it throws. */
  type JsonParser = string -> Option<Json>

  /** The body `offerData` of a POST to /api/add-offer. */
  datatype OfferData = OfferData(
    offerAmount: int,
    offerBy: string,
    phone: string,
    location: string,
    partialPaymentAmount: int,
    fullPaymentAmount: int,
    offerValidUntil: Millis,
    name: string)

  /** The body of a POST to /api/update-slot-after-booking. */
  datatype BookingUpdate = BookingUpdate(
    slotId: string,
    bookingData: Booking,
    latestBookingPrice: int,
    recommendedPrice: int)

  /** The body of a POST to /api/add-offer. */
  datatype OfferPost = OfferPost(slotId: string, offerData: OfferData)

  /** JavaScript truthiness of a numeric field: present and not zero. */
  predicate Truthy(x: Option<int>) {
    x.Some? && x.value != 0
  }

  /** JavaScript truthiness of a string field: present and not empty. */
  predicate TruthyText(x: Option<string>) {
    x.Some? && x.value != ""
  }

  /** The bookings of a ledger; an absent array reads as empty. */
  function BookingsOf(s: Slot): seq<Booking> {
    s.bookings.GetOr([])
  }

  /** The offers of a booking; an absent array reads as empty. */
  function OffersOf(b: Booking): seq<Offer> {
    b.offers.GetOr([])
  }

  /** The object the booking handler starts from when the stored description is not JSON. */
  const DefaultLedger: Slot :=
    Slot(Some("available"), None, Some(DefaultPrice), None, None, None, Some([]))

  /** The split invariant: the two payment parts of an offer add up to the amount offered. */
  predicate SplitBalanced(o: Offer) {
    o.partialPaymentAmount + o.fullPaymentAmount == o.offerAmount
  }

  /** Every offer on every booking of the ledger keeps the split invariant. */
  predicate AllSplitsBalanced(s: Slot) {
    forall b, o :: b in BookingsOf(s) && o in OffersOf(b) ==> SplitBalanced(o)
  }
}
