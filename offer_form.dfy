/**
 * src/components/OfferForm.js: the offer form reads the slot's price from the server, checks
 * that the offer exceeds it, splits the excess between the current holder and the provider, takes
 * a card payment for the whole offer and posts the offer to /api/add-offer.
 *
 * Amounts are integer cents: the offer arrives already converted (`Math.round(offerAmount * 100)`).
 */
module OfferPage {
  import opened Wrappers
  import opened Ledger
  import opened Checkout

  /** Line 81: an offer stays open for 30 minutes. */
  const OfferWindow: int := 30 * 60000

  const PriceTooLow: string := "Offer must be higher than the original booking price."

  /** The two parts of an offer: to the current holder, and to the service provider. */
  datatype Split = Split(partialPaymentAmount: int, fullPaymentAmount: int)

  /**
   * Lines 68 to 79: no split unless the offer exceeds the booking price; then the holder gets half
   * the excess, rounded down, and the provider the rest of the offer.
   */
  function SplitOffer(offerCents: int, bookingPrice: int): (r: Option<Split>)
    ensures r.None? <==> offerCents <= bookingPrice
    ensures r.Some? ==> r.value.partialPaymentAmount + r.value.fullPaymentAmount == offerCents
    ensures r.Some? ==> 0 <= 2 * r.value.partialPaymentAmount <= offerCents - bookingPrice <=
                        2 * r.value.partialPaymentAmount + 1
    ensures r.Some? ==> r.value.fullPaymentAmount > bookingPrice
    ensures r.Some? && bookingPrice >= 0 ==> r.value.partialPaymentAmount <= r.value.fullPaymentAmount
  {
    var overflow := offerCents - bookingPrice;
    if overflow <= 0 then None
    else
      var partial := overflow / 2;
      Some(Split(partial, offerCents - partial))
  }

  /** An excess of one cent leaves nothing for the holder. */
  lemma OneCentExcess(bookingPrice: int)
    ensures SplitOffer(bookingPrice + 1, bookingPrice) == Some(Split(0, bookingPrice + 1))
  {
  }

  /** The `offerData` posted to /api/add-offer, lines 115 to 127; `now` is the form's clock. */
  function OfferRequest(slotId: string, offerCents: int, split: Split, contact: Contact, now: Millis): (r: OfferPost)
    ensures r.offerData.offerAmount == offerCents
    ensures r.offerData.offerValidUntil - now == OfferWindow
  {
    OfferPost(slotId, OfferData(
      offerAmount := offerCents,
      offerBy := contact.email,
      phone := contact.phone,
      location := contact.location,
      partialPaymentAmount := split.partialPaymentAmount,
      fullPaymentAmount := split.fullPaymentAmount,
      offerValidUntil := now + OfferWindow,
      name := contact.name))
  }

  /** An offer the form posts keeps the split invariant and pays the provider more than the price. */
  lemma PostedOfferIsBalanced(slotId: string, offerCents: int, bookingPrice: int, contact: Contact, now: Millis)
    requires SplitOffer(offerCents, bookingPrice).Some?
    ensures var d := OfferRequest(slotId, offerCents, SplitOffer(offerCents, bookingPrice).value, contact, now).offerData;
            d.partialPaymentAmount + d.fullPaymentAmount == d.offerAmount &&
            d.fullPaymentAmount > bookingPrice && d.partialPaymentAmount >= 0
  {
  }

  /** The state of the offer form that the handlers change. */
  class OfferForm {
    var bookingPrice: int
    var loading: bool
    var error: Option<string>
    /** Whether `onClose()` has been called. */
    var closed: bool

    /** Lines 22 to 26: the initial state. */
    constructor ()
      ensures bookingPrice == DefaultPrice && !loading && error.None? && !closed
    {
      bookingPrice := DefaultPrice;
      loading := false;
      error := None;
      closed := false;
    }

    /**
     * `fetchSlotPrice`, lines 30 to 40: the price /api/get-slot-price answers, or no change when
     * the request fails.
     */
    method FetchSlotPrice(backend: Option<int>)
      modifies this
      ensures bookingPrice == backend.GetOr(old(bookingPrice))
      ensures loading == old(loading) && error == old(error) && closed == old(closed)
    {
      if backend.Some? {
        bookingPrice := backend.value;
      }
    }

    /**
     * `handleSubmit`, lines 56 to 139. `stripeReady` is whether Stripe.js has loaded. Returns the
     * amount of the payment intent requested and the add-offer request sent, if any: an offer that
     * does not exceed the price is refused before either, and the offer goes out only once the card
     * payment is confirmed.
     */
    method HandleSubmit(slotId: string, offerCents: int, contact: Contact, stripeReady: bool,
                        payment: PaymentStep, delivery: Delivery, now: Millis)
      returns (intent: Option<int>, sent: Option<OfferPost>)
      modifies this
      ensures !stripeReady ==> intent.None? && sent.None? && unchanged(this)
      ensures stripeReady && offerCents <= old(bookingPrice) ==>
                intent.None? && sent.None? && error == Some(PriceTooLow) && !loading && closed == old(closed)
      ensures stripeReady && offerCents > old(bookingPrice) ==>
                intent == Some(offerCents) &&
                sent == (if payment.Confirmed?
                         then Some(OfferRequest(slotId, offerCents, SplitOffer(offerCents, old(bookingPrice)).value, contact, now))
                         else None) &&
                error == SubmitError(payment, delivery) && !loading &&
                closed == (old(closed) || (payment.Confirmed? && delivery.Delivered?))
      ensures bookingPrice == old(bookingPrice)
    {
      intent, sent := None, None;
      if !stripeReady {
        return;
      }
      loading := true;
      error := None;
      var split := SplitOffer(offerCents, bookingPrice);
      if split.None? {
        error := Some(PriceTooLow);
        loading := false;
        return;
      }
      intent := Some(offerCents);
      match payment {
        case IntentFailed(m) =>
          error := Some(ErrorText(m));
        case ConfirmFailed(m) =>
          error := Some(ErrorText(m));
        case Confirmed(_) =>
          sent := Some(OfferRequest(slotId, offerCents, split.value, contact, now));
          match delivery {
            case Delivered =>
              closed := true;
            case Rejected(m) =>
              error := Some(ErrorText(m));
          }
      }
      loading := false;
    }
  }
}
