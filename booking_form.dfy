/**
 * src/components/BookingForm.js: the booking form reads the slot's price, takes a card payment
 * and posts the new booking and the slot's new prices to /api/update-slot-after-booking.
 *
 * Amounts are integer cents: the desired offer arrives already multiplied by 100.
 */
module BookingPage {
  import opened Wrappers
  import opened JsText
  import opened Ledger
  import opened JsonUtils
  import opened Checkout
  import Server

  /**
   * Lines 106 and 190: the slot's new asking price is the price paid plus twice what the holder
   * wants for giving the slot up (see `Flows.RecommendedOfferPaysHolder` for why twice).
   */
  function RecommendedPrice(price: int, desiredOffer: int): (r: int)
    ensures desiredOffer >= 0 ==> r >= price
    ensures desiredOffer > 0 ==> r > price
  {
    price + desiredOffer * 2
  }

  /** The `newBooking` record of lines 109 to 122 and 193 to 206. */
  function NewBooking(price: int, desiredOffer: int, contact: Contact, clientSecret: string, now: nat): Booking {
    Booking(
      bookingId := "booking_" + Decimal(now),
      price := price,
      paymentID := clientSecret,
      name := contact.name,
      contact := contact.email,
      phone := contact.phone,
      location := contact.location,
      amountAuthorisedForPayment := price,
      paymentAuthorised := true,
      paymentFulfilled := false,
      desiredOffer := desiredOffer,
      bookedAt := now,
      offers := None)
  }

  /**
   * The body posted to /api/update-slot-after-booking (lines 125 to 133 and 209 to 217). The
   * booking, the authorised amount and `latestBookingPrice` all carry the price the form showed.
   */
  function BookingRequest(slotId: string, price: int, desiredOffer: int, contact: Contact,
                          clientSecret: string, now: nat): (r: BookingUpdate)
    ensures r.latestBookingPrice == r.bookingData.price == r.bookingData.amountAuthorisedForPayment == price
    ensures r.bookingData.paymentAuthorised && !r.bookingData.paymentFulfilled
    ensures r.bookingData.offers.None? && r.bookingData.paymentID == clientSecret
    ensures r.recommendedPrice == RecommendedPrice(r.bookingData.price, r.bookingData.desiredOffer)
  {
    BookingUpdate(slotId, NewBooking(price, desiredOffer, contact, clientSecret, now), price,
                  RecommendedPrice(price, desiredOffer))
  }

  /**
   * The price `fetchPrice` (lines 33 to 51) leaves on the form. With a non-empty description the
   * form parses it and takes a truthy `price` key; `null` throws inside the try and is swallowed.
   * Without one it asks /api/get-slot-price, whose answer is `backend` (`None` when it fails).
   */
  function PriceAfterFetch(current: int, description: Option<string>, parse: JsonParser,
                           backend: Option<int>): int
  {
    if TruthyText(description) then
      match ParseJsonSafely(description, parse)
      case Some(LedgerObject(s)) => if Truthy(s.price) then s.price.value else current
      case _ => current
    else if backend.Some? then backend.value
    else current
  }

  /**
   * With a description, the default price stays unless the description parses to an object with a
   * truthy `price`, and then that price is shown.
   */
  lemma DescribedPriceRule(description: Option<string>, parse: JsonParser, backend: Option<int>)
    requires TruthyText(description)
    ensures var p := PriceAfterFetch(DefaultPrice, description, parse, backend);
            var parsed := ParseJsonSafely(description, parse);
            (parsed.Some? && parsed.value.LedgerObject? && Truthy(parsed.value.slot.price) ==>
               p == parsed.value.slot.price.value) &&
            (!(parsed.Some? && parsed.value.LedgerObject? && Truthy(parsed.value.slot.price)) ==>
               p == DefaultPrice)
  {
  }

  /**
   * Without a description the form still shows 10000: the server either fails on the missing
   * description or finds no "Price: " in the empty one.
   */
  lemma EmptyDescriptionKeepsDefault(description: Option<string>, parse: JsonParser)
    requires !TruthyText(description)
    ensures PriceAfterFetch(DefaultPrice, description, parse, Server.SlotPrice(description)) == DefaultPrice
  {
    if description.Some? {
      assert description.value == [];
      assert !Occurs(description.value, Server.PriceMarker) by {
        forall i | 0 <= i <= 0 ensures !At([], i, Server.PriceMarker) {
        }
      }
    }
  }

  /** The state of the booking form that the handlers change. */
  class BookingForm {
    var price: int
    var loading: bool
    var error: Option<string>
    var useCardElement: bool
    /** Whether `onClose()` has been called. */
    var closed: bool

    /** Lines 25 to 29: the initial state. */
    constructor ()
      ensures price == DefaultPrice && !loading && error.None? && useCardElement && !closed
    {
      price := DefaultPrice;
      loading := false;
      error := None;
      useCardElement := true;
      closed := false;
    }

    /** `fetchPrice`, lines 33 to 51. */
    method FetchPrice(description: Option<string>, parse: JsonParser, backend: Option<int>)
      modifies this
      ensures price == PriceAfterFetch(old(price), description, parse, backend)
      ensures loading == old(loading) && error == old(error)
      ensures useCardElement == old(useCardElement) && closed == old(closed)
    {
      if TruthyText(description) {
        var parsed := ParseJsonSafely(description, parse);
        match parsed {
          case Some(LedgerObject(s)) =>
            if Truthy(s.price) {
              price := s.price.value;
            }
          case _ =>
        }
      } else if backend.Some? {
        price := backend.value;
      }
    }

    /**
     * `handleSubmit`, lines 153 to 225. Returns the amount of the payment intent requested and the
     * ledger request sent, if any: the request goes out only once the card payment is confirmed.
     */
    method HandleSubmit(slotId: string, desiredOffer: int, contact: Contact, payment: PaymentStep,
                        delivery: Delivery, now: nat)
      returns (intent: Option<int>, sent: Option<BookingUpdate>)
      modifies this
      ensures !old(useCardElement) ==> intent.None? && sent.None? && unchanged(this)
      ensures old(useCardElement) ==>
                intent == Some(old(price)) &&
                sent == (if payment.Confirmed?
                         then Some(BookingRequest(slotId, old(price), desiredOffer, contact, payment.clientSecret, now))
                         else None) &&
                error == SubmitError(payment, delivery) && !loading &&
                closed == (old(closed) || (payment.Confirmed? && delivery.Delivered?))
      ensures price == old(price) && useCardElement == old(useCardElement)
    {
      intent, sent := None, None;
      if !useCardElement {
        return;
      }
      loading := true;
      error := None;
      intent := Some(price);
      match payment {
        case IntentFailed(m) =>
          error := Some(ErrorText(m));
          loading := false;
        case ConfirmFailed(m) =>
          error := Some(ErrorText(m));
          loading := false;
        case Confirmed(secret) =>
          sent := Some(BookingRequest(slotId, price, desiredOffer, contact, secret, now));
          match delivery {
            case Delivered =>
              loading := false;
              closed := true;
            case Rejected(m) =>
              error := Some(ErrorText(m));
              loading := false;
          }
      }
    }

    /**
     * The payment-request button's "paymentmethod" handler, lines 77 to 140: as `HandleSubmit`, but
     * the event is completed with success before the ledger request and with fail on any error,
     * and the form stays open.
     */
    method OnPaymentMethod(slotId: string, desiredOffer: int, contact: Contact, payment: PaymentStep,
                           delivery: Delivery, now: nat)
      returns (intent: Option<int>, sent: Option<BookingUpdate>, completions: seq<Completion>)
      modifies this
      ensures intent == Some(old(price))
      ensures sent == (if payment.Confirmed?
                       then Some(BookingRequest(slotId, old(price), desiredOffer, contact, payment.clientSecret, now))
                       else None)
      ensures completions == (if payment.Confirmed? then [CompleteSuccess] else []) +
                             (if SubmitError(payment, delivery).Some? then [CompleteFail] else [])
      ensures error == SubmitError(payment, delivery) && !loading
      ensures price == old(price) && useCardElement == old(useCardElement) && closed == old(closed)
    {
      loading := true;
      error := None;
      intent := Some(price);
      sent := None;
      completions := [];
      match payment {
        case IntentFailed(m) =>
          error := Some(ErrorText(m));
          completions := completions + [CompleteFail];
        case ConfirmFailed(m) =>
          error := Some(ErrorText(m));
          completions := completions + [CompleteFail];
        case Confirmed(secret) =>
          completions := completions + [CompleteSuccess];
          sent := Some(BookingRequest(slotId, price, desiredOffer, contact, secret, now));
          if delivery.Rejected? {
            error := Some(ErrorText(delivery.message));
            completions := completions + [CompleteFail];
          }
      }
      loading := false;
    }
  }
}
