/**
 * The ledger logic of server.js: the three handlers that read, change and write back the ledger
 * kept in a calendar event's description, the price read by /api/get-slot-price, the reading of an
 * SMS reply, and which of the POST handlers Express runs.
 *
 * The calendar read becomes the `description` parameter (absent when the event has none), and the
 * write becomes the `written` part of a handler's outcome. `JSON.parse` is the `parse` parameter.
 */
module Server {
  import opened Wrappers
  import opened JsText
  import opened Ledger

  /** Why a handler answers with an error instead of success. */
  datatype Failure =
    | InvalidDescriptionFormat  // add-offer, 400: the description is not JSON
    | NoActiveBookings          // add-offer, 400: no booking to attach the offer to
    | InternalError             // 500: something inside the handler's try block threw

  datatype Answer = Success | Failed(failure: Failure)

  /** What a handler did: the document it wrote back to the event, if any, and its answer. */
  datatype Outcome = Outcome(written: Option<Json>, answer: Answer)

  /** The SMS add-offer sends after its write: to the phone of the latest booking, about the offer. */
  datatype Notice = Notice(to: string, offer: Offer)

  datatype OfferOutcome = OfferOutcome(written: Option<Json>, notice: Option<Notice>, answer: Answer)

  /** `JSON.parse(event.data.description)`; an event without a description makes it throw. */
  function ReadDescription(description: Option<string>, parse: JsonParser): Option<Json> {
    if description.None? then None else parse(description.value)
  }

  /** The latest booking with an offer appended to its `offers`, which is created if absent. */
  function WithOffer(b: Booking, o: Offer): Booking {
    b.(offers := Some(OffersOf(b) + [o]))
  }

  /** The bookings with the last one given the offer. */
  function WithOfferOnLatest(bs: seq<Booking>, o: Offer): seq<Booking>
    requires bs != []
  {
    bs[..|bs| - 1] + [WithOffer(bs[|bs| - 1], o)]
  }

  /** The ledger after a booking: lines 249 to 259. */
  function Booked(s: Slot, request: BookingUpdate): Slot {
    s.(status := Some("booked"),
       latestBookingPrice := Some(request.latestBookingPrice),
       recommendedPrice := Some(request.recommendedPrice),
       bookings := Some(BookingsOf(s) + [request.bookingData]))
  }

  /** The offer record add-offer stores, lines 317 to 334; `now` is `Date.now()` on the server. */
  function NewOffer(data: OfferData, now: nat): Offer {
    Offer(
      offerId := "offer_" + Decimal(now),
      offerAmount := data.offerAmount,
      offerBy := data.offerBy,
      phone := data.phone,
      location := data.location,
      offerAt := now,
      offerValidUntil := data.offerValidUntil,
      offerAccepted := false,
      partialPaymentID := None,
      partialPaymentAmount := data.partialPaymentAmount,
      partialPaymentCaptured := false,
      fullPaymentID := None,
      fullPaymentAmount := data.fullPaymentAmount,
      fullPaymentAuthorized := false,
      fullPaymentFulfilled := false,
      paymentSplit := true)
  }

  /**
   * /api/update-slot-after-booking on what `JSON.parse` made of the description. Text that is not
   * JSON starts from the default ledger. `null` throws on the `bookings` test; on a primitive the
   * property writes are ignored and the `push` throws; on an array they are dropped by
   * `JSON.stringify`, so the array is written back as it was.
   */
  function AfterBooking(parsed: Option<Json>, request: BookingUpdate): Outcome {
    match parsed
    case None => Outcome(Some(LedgerObject(Booked(DefaultLedger, request))), Success)
    case Some(LedgerObject(s)) => Outcome(Some(LedgerObject(Booked(s, request))), Success)
    case Some(NullValue) => Outcome(None, Failed(InternalError))
    case Some(ScalarValue) => Outcome(None, Failed(InternalError))
    case Some(ArrayValue) => Outcome(Some(ArrayValue), Success)
  }

  /**
   * /api/add-offer on what `JSON.parse` made of the description. `smsSent` is whether Twilio
   * accepted the notification, which is sent only after the write.
   */
  function AfterOffer(parsed: Option<Json>, data: OfferData, now: nat, smsSent: bool): OfferOutcome {
    match parsed
    case None => OfferOutcome(None, None, Failed(InvalidDescriptionFormat))
    case Some(NullValue) => OfferOutcome(None, None, Failed(InternalError))
    case Some(ScalarValue) => OfferOutcome(None, None, Failed(NoActiveBookings))
    case Some(ArrayValue) => OfferOutcome(None, None, Failed(NoActiveBookings))
    case Some(LedgerObject(s)) =>
      var bs := BookingsOf(s);
      if bs == [] then OfferOutcome(None, None, Failed(NoActiveBookings))
      else
        var offer := NewOffer(data, now);
        OfferOutcome(
          Some(LedgerObject(s.(bookings := Some(WithOfferOnLatest(bs, offer))))),
          Some(Notice(bs[|bs| - 1].phone, offer)),
          if smsSent then Success else Failed(InternalError))
  }

  /** What the suggested-offer handler starts from when the description is not JSON. */
  const EmptyLedger: Slot := Slot(None, None, None, None, None, None, Some([]))

  /**
   * The first /api/set-offer-amount handler (line 362) on what `JSON.parse` made of the description.
   * `null` throws on the assignment; on a primitive or an array the new property does not survive
   * `JSON.stringify`, so the value is written back as it was.
   */
  function AfterSuggestedOffer(parsed: Option<Json>, amount: int): Outcome {
    match parsed
    case None => Outcome(Some(LedgerObject(EmptyLedger.(suggestedOffer := Some(amount)))), Success)
    case Some(LedgerObject(s)) => Outcome(Some(LedgerObject(s.(suggestedOffer := Some(amount)))), Success)
    case Some(NullValue) => Outcome(None, Failed(InternalError))
    case Some(ScalarValue) => Outcome(Some(ScalarValue), Success)
    case Some(ArrayValue) => Outcome(Some(ArrayValue), Success)
  }

  /** The parsed `descriptionJSON` object, which the handlers change in place before writing it back. */
  class SlotDocument {
    var status: Option<string>
    var price: Option<int>
    var originalPrice: Option<int>
    var latestBookingPrice: Option<int>
    var recommendedPrice: Option<int>
    var suggestedOffer: Option<int>
    var bookings: Option<seq<Booking>>

    /** The object as `JSON.stringify` writes it. */
    function Value(): Slot
      reads this
    {
      Slot(status, price, originalPrice, latestBookingPrice, recommendedPrice, suggestedOffer, bookings)
    }

    constructor (s: Slot)
      ensures Value() == s
    {
      status := s.status;
      price := s.price;
      originalPrice := s.originalPrice;
      latestBookingPrice := s.latestBookingPrice;
      recommendedPrice := s.recommendedPrice;
      suggestedOffer := s.suggestedOffer;
      bookings := s.bookings;
    }

    /** `if (!descriptionJSON.bookings) descriptionJSON.bookings = [];` */
    method EnsureBookings()
      modifies this
      ensures bookings == Some(BookingsOf(old(Value())))
      ensures Value() == old(Value()).(bookings := bookings)
    {
      if bookings.None? {
        bookings := Some([]);
      }
    }

    /** The three top-level assignments of lines 254 to 256. */
    method MarkBooked(latest: int, recommended: int)
      modifies this
      ensures Value() == old(Value()).(status := Some("booked"),
                                       latestBookingPrice := Some(latest),
                                       recommendedPrice := Some(recommended))
    {
      status := Some("booked");
      latestBookingPrice := Some(latest);
      recommendedPrice := Some(recommended);
    }

    /** `descriptionJSON.bookings.push(bookingData)`. */
    method PushBooking(b: Booking)
      requires bookings.Some?
      modifies this
      ensures Value() == old(Value()).(bookings := Some(old(bookings.value) + [b]))
    {
      bookings := Some(bookings.value + [b]);
    }

    /** Lines 308 to 335: the latest booking gets its `offers` array if missing, then the offer. */
    method PushOfferToLatest(o: Offer)
      requires bookings.Some? && bookings.value != []
      modifies this
      ensures Value() == old(Value()).(bookings := Some(WithOfferOnLatest(old(bookings.value), o)))
    {
      var bs := bookings.value;
      var latest := bs[|bs| - 1];
      if latest.offers.None? {
        latest := latest.(offers := Some([]));
      }
      latest := latest.(offers := Some(latest.offers.value + [o]));
      bookings := Some(bs[..|bs| - 1] + [latest]);
    }

    /** `descriptionJSON.suggestedOffer = offerAmount`. */
    method SetSuggestedOffer(amount: int)
      modifies this
      ensures Value() == old(Value()).(suggestedOffer := Some(amount))
    {
      suggestedOffer := Some(amount);
    }
  }

  /** POST /api/update-slot-after-booking, lines 217 to 275. */
  method UpdateSlotAfterBooking(description: Option<string>, parse: JsonParser, request: BookingUpdate)
    returns (r: Outcome)
    ensures r == AfterBooking(ReadDescription(description, parse), request)
  {
    var parsed := ReadDescription(description, parse);
    var doc: SlotDocument;
    match parsed {
      case None =>
        doc := new SlotDocument(DefaultLedger);
      case Some(LedgerObject(s)) =>
        doc := new SlotDocument(s);
      case Some(NullValue) =>
        return Outcome(None, Failed(InternalError));
      case Some(ScalarValue) =>
        return Outcome(None, Failed(InternalError));
      case Some(ArrayValue) =>
        return Outcome(Some(ArrayValue), Success);
    }
    doc.EnsureBookings();
    doc.MarkBooked(request.latestBookingPrice, request.recommendedPrice);
    doc.PushBooking(request.bookingData);
    r := Outcome(Some(LedgerObject(doc.Value())), Success);
  }

  /** POST /api/add-offer, lines 278 to 359. */
  method AddOffer(description: Option<string>, parse: JsonParser, data: OfferData, now: nat, smsSent: bool)
    returns (r: OfferOutcome)
    ensures r == AfterOffer(ReadDescription(description, parse), data, now, smsSent)
  {
    var parsed := ReadDescription(description, parse);
    var doc: SlotDocument;
    match parsed {
      case None =>
        return OfferOutcome(None, None, Failed(InvalidDescriptionFormat));
      case Some(NullValue) =>
        return OfferOutcome(None, None, Failed(InternalError));
      case Some(ScalarValue) =>
        return OfferOutcome(None, None, Failed(NoActiveBookings));
      case Some(ArrayValue) =>
        return OfferOutcome(None, None, Failed(NoActiveBookings));
      case Some(LedgerObject(s)) =>
        doc := new SlotDocument(s);
    }
    if doc.bookings.None? || doc.bookings.value == [] {
      return OfferOutcome(None, None, Failed(NoActiveBookings));
    }
    var latest := doc.bookings.value[|doc.bookings.value| - 1];
    var offer := NewOffer(data, now);
    doc.PushOfferToLatest(offer);
    var written := LedgerObject(doc.Value());
    var notice := Notice(latest.phone, offer);
    if smsSent {
      r := OfferOutcome(Some(written), Some(notice), Success);
    } else {
      r := OfferOutcome(Some(written), Some(notice), Failed(InternalError));
    }
  }

  /** POST /api/set-offer-amount, the handler registered at line 362. */
  method SetOfferAmount(description: Option<string>, parse: JsonParser, amount: int) returns (r: Outcome)
    ensures r == AfterSuggestedOffer(ReadDescription(description, parse), amount)
  {
    var parsed := ReadDescription(description, parse);
    var doc: SlotDocument;
    match parsed {
      case None =>
        doc := new SlotDocument(EmptyLedger);
      case Some(LedgerObject(s)) =>
        doc := new SlotDocument(s);
      case Some(NullValue) =>
        return Outcome(None, Failed(InternalError));
      case Some(ScalarValue) =>
        return Outcome(Some(ScalarValue), Success);
      case Some(ArrayValue) =>
        return Outcome(Some(ArrayValue), Success);
    }
    doc.SetSuggestedOffer(amount);
    r := Outcome(Some(LedgerObject(doc.Value())), Success);
  }

  // ---------------------------------------------------------------------------------------------
  // What the handlers promise

  /** The ledger a successful booking update starts from: the parsed object, or the default one. */
  function PriorLedger(parsed: Option<Json>): Option<Slot> {
    match parsed
    case None => Some(DefaultLedger)
    case Some(LedgerObject(s)) => Some(s)
    case _ => None
  }

  /**
   * A booking update on a ledger (parsed, or the default one for text that is not JSON) marks it
   * booked with the requested prices whatever its status was, appends exactly one booking at the
   * end, keeps every earlier booking in place, and leaves the other keys alone.
   */
  lemma BookingUpdateAppends(parsed: Option<Json>, request: BookingUpdate)
    requires PriorLedger(parsed).Some?
    ensures var s := PriorLedger(parsed).value;
            var out := AfterBooking(parsed, request);
            out.answer == Success && out.written.Some? && out.written.value.LedgerObject? &&
            var t := out.written.value.slot;
            t.status == Some("booked") &&
            t.latestBookingPrice == Some(request.latestBookingPrice) &&
            t.recommendedPrice == Some(request.recommendedPrice) &&
            t.bookings.Some? && |BookingsOf(t)| == |BookingsOf(s)| + 1 &&
            BookingsOf(t)[..|BookingsOf(s)|] == BookingsOf(s) &&
            BookingsOf(t)[|BookingsOf(s)|] == request.bookingData &&
            t.price == s.price && t.originalPrice == s.originalPrice && t.suggestedOffer == s.suggestedOffer
  {
  }

  /** Text that is not JSON is booked as the default ledger: available, 10000 cents, no bookings. */
  lemma BookingUpdateOnUnparsedText(request: BookingUpdate)
    ensures AfterBooking(None, request) == AfterBooking(Some(LedgerObject(DefaultLedger)), request)
    ensures DefaultLedger.status == Some("available") && DefaultLedger.originalPrice == Some(10000)
    ensures DefaultLedger.latestBookingPrice.None? && DefaultLedger.recommendedPrice.None?
    ensures BookingsOf(DefaultLedger) == []
  {
  }

  /** Two bookings in a row leave both in `bookings`, in call order, neither overwritten. */
  lemma TwoBookingsKeepCallOrder(s: Slot, first: BookingUpdate, second: BookingUpdate)
    ensures BookingsOf(Booked(Booked(s, first), second)) ==
            BookingsOf(s) + [first.bookingData, second.bookingData]
  {
  }

  /**
   * Add-offer writes nothing when the description is not JSON or has no booking; otherwise it
   * appends exactly one offer to the latest booking and changes nothing else: not the other
   * bookings, not the latest booking's other fields or earlier offers, not the top-level keys.
   */
  lemma AddOfferAppends(parsed: Option<Json>, data: OfferData, now: nat, smsSent: bool)
    ensures var out := AfterOffer(parsed, data, now, smsSent);
            (parsed.None? ==> out == OfferOutcome(None, None, Failed(InvalidDescriptionFormat))) &&
            (parsed.Some? && parsed.value.LedgerObject? && BookingsOf(parsed.value.slot) == [] ==>
               out == OfferOutcome(None, None, Failed(NoActiveBookings))) &&
            (out.written.Some? ==>
               parsed.Some? && parsed.value.LedgerObject? &&
               var s := parsed.value.slot;
               var bs := BookingsOf(s);
               out.written.value.LedgerObject? &&
               var t := out.written.value.slot;
               var n := |bs|;
               n > 0 && t.bookings.Some? && |BookingsOf(t)| == n &&
               BookingsOf(t)[..n - 1] == bs[..n - 1] &&
               BookingsOf(t)[n - 1] == bs[n - 1].(offers := BookingsOf(t)[n - 1].offers) &&
               OffersOf(BookingsOf(t)[n - 1]) == OffersOf(bs[n - 1]) + [NewOffer(data, now)] &&
               t.(bookings := s.bookings) == s)
  {
  }

  /** An offer is only written when there is a ledger object with a booking, and then always. */
  lemma AddOfferWritesIffBooked(parsed: Option<Json>, data: OfferData, now: nat, smsSent: bool)
    ensures AfterOffer(parsed, data, now, smsSent).written.Some? <==>
            parsed.Some? && parsed.value.LedgerObject? && BookingsOf(parsed.value.slot) != []
    ensures AfterOffer(parsed, data, now, smsSent).notice.Some? ==>
            AfterOffer(parsed, data, now, smsSent).written.Some?
  {
  }

  /**
   * The stored offer starts unaccepted, uncaptured and unauthorised with no payment ids, split, and
   * copies amounts and deadline from the request. Its split holds exactly when the request's does:
   * the server does not check it.
   */
  lemma NewOfferStartsOpen(data: OfferData, now: nat)
    ensures var o := NewOffer(data, now);
            !o.offerAccepted && !o.partialPaymentCaptured && !o.fullPaymentAuthorized &&
            !o.fullPaymentFulfilled && o.partialPaymentID.None? && o.fullPaymentID.None? &&
            o.paymentSplit && o.offerAmount == data.offerAmount &&
            o.partialPaymentAmount == data.partialPaymentAmount &&
            o.fullPaymentAmount == data.fullPaymentAmount &&
            o.offerValidUntil == data.offerValidUntil && o.offerAt == now
    ensures SplitBalanced(NewOffer(data, now)) <==>
            data.partialPaymentAmount + data.fullPaymentAmount == data.offerAmount
  {
  }

  /** Offers made at different milliseconds get different ids. */
  lemma OfferIdsDiffer(data1: OfferData, data2: OfferData, now1: nat, now2: nat)
    requires now1 != now2
    ensures NewOffer(data1, now1).offerId != NewOffer(data2, now2).offerId
  {
    var p := "offer_";
    if NewOffer(data1, now1).offerId == NewOffer(data2, now2).offerId {
      assert Decimal(now1) == (p + Decimal(now1))[|p|..] == (p + Decimal(now2))[|p|..] == Decimal(now2);
      DecimalValue(now1);
      DecimalValue(now2);
    }
  }

  /**
   * Setting the suggested offer changes `suggestedOffer` and nothing else; text that is not JSON
   * becomes exactly `{bookings: [], suggestedOffer}`.
   */
  lemma SuggestedOfferOnlyTouchesItself(parsed: Option<Json>, amount: int)
    ensures var out := AfterSuggestedOffer(parsed, amount);
            (parsed.None? ==> out.written == Some(LedgerObject(Slot(None, None, None, None, None, Some(amount), Some([]))))) &&
            (parsed.Some? && parsed.value.LedgerObject? ==>
               out.written.Some? && out.written.value.LedgerObject? &&
               out.written.value.slot.suggestedOffer == Some(amount) &&
               out.written.value.slot.(suggestedOffer := parsed.value.slot.suggestedOffer) == parsed.value.slot)
  {
  }

  // ---------------------------------------------------------------------------------------------
  // GET /api/get-slot-price

  const PriceMarker: string := "Price: "

  /**
   * Line 208: `parseInt(description.split("Price: ")[1]) || 10000`. NaN and 0 both fall back to
   * 10000; an event without a description makes `split` throw, and the handler answers 500 (`None`).
   */
  function SlotPrice(description: Option<string>): (r: Option<int>)
    ensures r.Some? <==> description.Some?
    ensures r.Some? ==> r.value != 0
    ensures description.Some? && !Occurs(description.value, PriceMarker) ==> r == Some(DefaultPrice)
    ensures description.Some? ==>
              var piece := SecondPiece(description.value, PriceMarker);
              var n := if piece.Some? then ParseInt(piece.value) else None;
              (n.Some? && n.value != 0 ==> r == n) &&
              (n.None? || n == Some(0) ==> r == Some(DefaultPrice))
  {
    match description
    case None => None
    case Some(d) =>
      var n := match SecondPiece(d, PriceMarker) case None => None case Some(piece) => ParseInt(piece);
      Some(if n.Some? && n.value != 0 then n.value else DefaultPrice)
  }

  /** `split(sep)[1]` once the first occurrence of `sep` is known. */
  lemma SecondPieceAfter(s: string, sep: string, i: nat)
    requires sep != [] && IndexOf(s, sep) == Some(i)
    ensures SecondPiece(s, sep) ==
            Some(match IndexOf(s[i + |sep|..], sep)
                 case None => s[i + |sep|..]
                 case Some(j) => s[i + |sep|..][..j])
  {
  }

  /** The text after the marker up to the next marker, when it starts with a numeral. */
  lemma NumeralPiece(n: nat, rest: string) returns (tail: string)
    requires n > 0
    requires rest == [] || !IsDigit(rest[0])
    ensures tail == [] || !IsDigit(tail[0])
    ensures var after := Decimal(n) + rest;
            Decimal(n) + tail ==
              match IndexOf(after, PriceMarker) case None => after case Some(j) => after[..j]
  {
    var d := Decimal(n);
    var after := d + rest;
    match IndexOf(after, PriceMarker) {
      case None =>
        tail := rest;
      case Some(j) =>
        forall i | 0 <= i < |d| ensures !At(after, i, PriceMarker) {
          if i + |PriceMarker| <= |after| {
            assert after[i..i + |PriceMarker|][0] == after[i] == d[i];
          }
        }
        assert j >= |d|;
        tail := rest[..j - |d|];
        assert after[..j] == d + tail;
    }
  }

  /**
   * The price after the first "Price: " marker is read back when it is a positive numeral not
   * followed by a digit, whatever text comes before the marker.
   */
  lemma SlotPriceReadsNumeral(s: string, i: nat, n: nat, rest: string)
    requires IndexOf(s, PriceMarker) == Some(i)
    requires n > 0
    requires rest == [] || !IsDigit(rest[0])
    requires s[i + |PriceMarker|..] == Decimal(n) + rest
    ensures SlotPrice(Some(s)) == Some(n)
  {
    var d := Decimal(n);
    var tail := NumeralPiece(n, rest);
    assert SecondPiece(s, PriceMarker) == Some(d + tail) by {
      SecondPieceAfter(s, PriceMarker, i);
    }
    ParseIntDecimal(n, tail);
  }

  /** No occurrence of the marker can start inside text without a 'P'. */
  lemma MarkerAfterPrefix(prefix: string, tail: string)
    requires 'P' !in prefix
    ensures IndexOf(prefix + PriceMarker + tail, PriceMarker) == Some(|prefix|)
  {
    var s := prefix + PriceMarker + tail;
    assert At(s, |prefix|, PriceMarker) by {
      assert s[|prefix|..|prefix| + |PriceMarker|] == PriceMarker;
    }
    forall i | 0 <= i < |prefix| ensures !At(s, i, PriceMarker) {
      if i + |PriceMarker| <= |s| {
        assert s[i..i + |PriceMarker|][0] == s[i] == prefix[i];
      }
    }
  }

  /** Text with no 'P' before the marker: the marker found is the one written after it. */
  lemma SlotPriceAfterPlainText(prefix: string, n: nat, rest: string)
    requires 'P' !in prefix
    requires n > 0
    requires rest == [] || !IsDigit(rest[0])
    ensures SlotPrice(Some(prefix + PriceMarker + Decimal(n) + rest)) == Some(n)
  {
    var s := prefix + PriceMarker + (Decimal(n) + rest);
    assert prefix + PriceMarker + Decimal(n) + rest == s;
    MarkerAfterPrefix(prefix, Decimal(n) + rest);
    assert s[|prefix| + |PriceMarker|..] == Decimal(n) + rest;
    SlotPriceReadsNumeral(s, |prefix|, n, rest);
  }

  // ---------------------------------------------------------------------------------------------
  // POST /api/twilio-webhook

  datatype Reply = Accept | Decline | Unrecognised

  /** Lines 81 to 89: the body trimmed and lower-cased, then compared with "yes" and "no". */
  function ClassifyReply(body: string): Reply {
    Reading(Response(body))
  }

  /** `Body.trim().toLowerCase()`. */
  function Response(body: string): string {
    ToLower(Trim(body))
  }

  function Reading(response: string): Reply {
    if response == "yes" then Accept
    else if response == "no" then Decline
    else Unrecognised
  }

  lemma ToLowerIdempotent(s: string)
    ensures ToLower(ToLower(s)) == ToLower(s)
  {
  }

  /** Lower-casing a word keeps it free of white space at its ends. */
  lemma ToLowerUnpadded(word: string)
    requires word != [] ==> !IsSpace(word[0]) && !IsSpace(word[|word| - 1])
    ensures var v := ToLower(word); v != [] ==> !IsSpace(v[0]) && !IsSpace(v[|v| - 1])
  {
  }

  lemma ResponseOfPadded(pre: string, word: string, post: string)
    requires forall k :: 0 <= k < |pre| ==> IsSpace(pre[k])
    requires forall k :: 0 <= k < |post| ==> IsSpace(post[k])
    requires word != [] ==> !IsSpace(word[0]) && !IsSpace(word[|word| - 1])
    ensures Response(pre + word + post) == Response(ToLower(word))
  {
    assert Trim(pre + word + post) == word by {
      TrimPadding(pre, word, post);
    }
    LowerWordReadsAsItself(word);
  }

  /** A lower-cased word without white space at its ends is its own response. */
  lemma LowerWordReadsAsItself(word: string)
    requires word != [] ==> !IsSpace(word[0]) && !IsSpace(word[|word| - 1])
    ensures Response(ToLower(word)) == ToLower(word)
  {
    LowerWordIsTrimmed(word);
    ResponseOfTrimmed(ToLower(word));
    ToLowerIdempotent(word);
  }

  lemma LowerWordIsTrimmed(word: string)
    requires word != [] ==> !IsSpace(word[0]) && !IsSpace(word[|word| - 1])
    ensures Trim(ToLower(word)) == ToLower(word)
  {
    ToLowerUnpadded(word);
    TrimUnpadded(ToLower(word));
  }

  lemma ResponseOfTrimmed(text: string)
    requires Trim(text) == text
    ensures Response(text) == ToLower(text)
  {
  }

  /** Surrounding white space and letter case do not change how a reply is read. */
  lemma ClassifyReplyIgnoresPaddingAndCase(pre: string, word: string, post: string, variant: string)
    requires forall k :: 0 <= k < |pre| ==> IsSpace(pre[k])
    requires forall k :: 0 <= k < |post| ==> IsSpace(post[k])
    requires word != [] ==> !IsSpace(word[0]) && !IsSpace(word[|word| - 1])
    requires variant == ToLower(word)
    ensures ClassifyReply(pre + word + post) == ClassifyReply(variant)
  {
    ResponseOfPadded(pre, word, post);
  }

  /** A reply reads as accept exactly when it is "yes" in some letter case, padded with white space. */
  lemma AcceptMeansYes(body: string)
    ensures ClassifyReply(body) == Accept <==>
            (var t := Trim(body);
             |t| == 3 && ToLowerAscii(t[0]) == 'y' && ToLowerAscii(t[1]) == 'e' && ToLowerAscii(t[2]) == 's')
  {
    var t := Trim(body);
    if |t| == 3 {
      assert ToLower(t) == [ToLowerAscii(t[0]), ToLowerAscii(t[1]), ToLowerAscii(t[2])];
    }
  }

  // ---------------------------------------------------------------------------------------------
  // Which POST handler runs

  /** The POST handlers of server.js. */
  datatype PostHandler =
    | SmsWebhook                 // line 77
    | BookingUpdateHandler       // line 217
    | AddOfferHandler            // line 278
    | SuggestedOfferHandler      // line 362
    | PaymentIntentHandler       // line 406
    | SuggestedOfferTextHandler  // line 431

  /** The POST routes in registration order. */
  const PostRoutes: seq<(string, PostHandler)> := [
    ("/api/twilio-webhook", SmsWebhook),
    ("/api/update-slot-after-booking", BookingUpdateHandler),
    ("/api/add-offer", AddOfferHandler),
    ("/api/set-offer-amount", SuggestedOfferHandler),
    ("/create-payment-intent", PaymentIntentHandler),
    ("/api/set-offer-amount", SuggestedOfferTextHandler)
  ]

  /** Express runs the first registered handler whose path matches; none of these calls `next()`. */
  function Dispatch(routes: seq<(string, PostHandler)>, path: string): (r: Option<PostHandler>)
    ensures r.Some? ==> exists k :: 0 <= k < |routes| && routes[k] == (path, r.value) &&
                                    forall j :: 0 <= j < k ==> routes[j].0 != path
    ensures r.None? <==> forall k :: 0 <= k < |routes| ==> routes[k].0 != path
  {
    if routes == [] then None
    else if routes[0].0 == path then Some(routes[0].1)
    else
      var r := Dispatch(routes[1..], path);
      if r.Some? then
        var k :| 0 <= k < |routes[1..]| && routes[1..][k] == (path, r.value) &&
                 forall j :: 0 <= j < k ==> routes[1..][j].0 != path;
        assert routes[k + 1] == (path, r.value);
        r
      else
        assert forall k :: 1 <= k < |routes| ==> routes[k] == routes[1..][k - 1];
        r
  }

  /** A handler registered after another one for the same path never runs. */
  lemma ShadowedHandlerNeverRuns(routes: seq<(string, PostHandler)>, early: nat, late: nat, path: string)
    requires early < late < |routes| && routes[early].0 == routes[late].0
    requires forall i :: 0 <= i < |routes| && i != late ==> routes[i].1 != routes[late].1
    ensures Dispatch(routes, path) != Some(routes[late].1)
  {
    var r := Dispatch(routes, path);
    if r.Some? {
      var k :| 0 <= k < |routes| && routes[k] == (path, r.value) &&
               forall j :: 0 <= j < k ==> routes[j].0 != path;
      if routes[late].0 == path {
        assert k <= early;
      }
      assert k != late;
    }
  }

  /** The second /api/set-offer-amount handler (line 431) is never reached. */
  lemma SecondSuggestedOfferHandlerUnreachable(path: string)
    ensures Dispatch(PostRoutes, path) != Some(SuggestedOfferTextHandler)
  {
    ShadowedHandlerNeverRuns(PostRoutes, 3, 5, path);
  }

  /** The first /api/set-offer-amount handler (line 362) is the one that answers that path. */
  lemma SuggestedOfferHandlerAnswers(path: string)
    requires path == "/api/set-offer-amount"
    ensures Dispatch(PostRoutes, path) == Some(SuggestedOfferHandler)
  {
    assert PostRoutes[3] == (path, SuggestedOfferHandler);
  }
}
