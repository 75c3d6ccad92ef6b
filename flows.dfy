/**
 * How the forms and the server's handlers fit together over one ledger: what the ledger keeps
 * true when every write comes from the forms, what the recommended price means to a later
 * offer, and the worked prices of the offer rule.
 */
module Flows {
  import opened Wrappers
  import opened JsText
  import opened Ledger
  import opened Server
  import opened Checkout
  import opened BookingPage
  import opened OfferPage

  /**
   * The top-level prices describe the latest booking: `latestBookingPrice` is its price and
   * `recommendedPrice` its price plus twice its desired offer.
   */
  predicate PricesDescribeLatest(s: Slot) {
    var bs := BookingsOf(s);
    bs != [] ==>
      s.latestBookingPrice == Some(bs[|bs| - 1].price) &&
      s.recommendedPrice == Some(RecommendedPrice(bs[|bs| - 1].price, bs[|bs| - 1].desiredOffer))
  }

  /** What a ledger written only through the forms keeps true. */
  predicate ConsistentLedger(s: Slot) {
    PricesDescribeLatest(s) && AllSplitsBalanced(s)
  }

  /** The ledger a handler wrote, if it wrote one. */
  function WrittenLedger(written: Option<Json>): Option<Slot> {
    if written.Some? && written.value.LedgerObject? then Some(written.value.slot) else None
  }

  /** A ledger the handlers may start from: the default one, or a consistent parsed object. */
  predicate ConsistentStart(parsed: Option<Json>) {
    parsed.None? || (parsed.value.LedgerObject? && ConsistentLedger(parsed.value.slot))
  }

  lemma DefaultLedgerIsConsistent()
    ensures ConsistentLedger(DefaultLedger)
  {
  }

  /** Appending a booking without offers keeps every split balanced. */
  lemma AppendBookingKeepsSplits(s: Slot, b: Booking)
    requires AllSplitsBalanced(s) && b.offers.None?
    ensures AllSplitsBalanced(s.(bookings := Some(BookingsOf(s) + [b])))
  {
    var t := s.(bookings := Some(BookingsOf(s) + [b]));
    forall b', o | b' in BookingsOf(t) && o in OffersOf(b') ensures SplitBalanced(o) {
      if b' != b {
        assert b' in BookingsOf(s);
      }
    }
  }

  /** A booking made through the booking form leaves the ledger consistent. */
  lemma BookingFlowKeepsConsistency(parsed: Option<Json>, slotId: string, price: int, desiredOffer: int,
                                    contact: Contact, clientSecret: string, now: nat)
    requires ConsistentStart(parsed)
    ensures var out := AfterBooking(parsed, BookingRequest(slotId, price, desiredOffer, contact, clientSecret, now));
            WrittenLedger(out.written).Some? && ConsistentLedger(WrittenLedger(out.written).value)
  {
    var request := BookingRequest(slotId, price, desiredOffer, contact, clientSecret, now);
    var s := if parsed.None? then DefaultLedger else parsed.value.slot;
    AppendBookingKeepsSplits(s, request.bookingData);
    var t := Booked(s, request);
    assert t.bookings == s.(bookings := Some(BookingsOf(s) + [request.bookingData])).bookings;
  }

  /** Giving the latest booking one more balanced offer keeps every split balanced. */
  lemma OfferOnLatestKeepsSplits(s: Slot, o: Offer)
    requires AllSplitsBalanced(s) && BookingsOf(s) != [] && SplitBalanced(o)
    ensures AllSplitsBalanced(s.(bookings := Some(WithOfferOnLatest(BookingsOf(s), o))))
  {
    var bs := BookingsOf(s);
    var n := |bs|;
    var t := s.(bookings := Some(WithOfferOnLatest(bs, o)));
    forall b', o' | b' in BookingsOf(t) && o' in OffersOf(b') ensures SplitBalanced(o') {
      var k :| 0 <= k < n && BookingsOf(t)[k] == b';
      if k < n - 1 {
        assert b' == bs[k];
      } else {
        assert OffersOf(b') == OffersOf(bs[n - 1]) + [o];
        if o' != o {
          assert o' in OffersOf(bs[n - 1]);
        }
      }
    }
  }

  /**
   * An offer made through the offer form leaves the ledger consistent: the split it carries is
   * balanced, and the latest booking keeps its price and desired offer.
   */
  lemma OfferFlowKeepsConsistency(parsed: Option<Json>, slotId: string, offerCents: int, bookingPrice: int,
                                  contact: Contact, formNow: Millis, serverNow: nat, smsSent: bool)
    requires ConsistentStart(parsed)
    requires SplitOffer(offerCents, bookingPrice).Some?
    ensures var post := OfferRequest(slotId, offerCents, SplitOffer(offerCents, bookingPrice).value, contact, formNow);
            var out := AfterOffer(parsed, post.offerData, serverNow, smsSent);
            WrittenLedger(out.written).Some? ==> ConsistentLedger(WrittenLedger(out.written).value)
  {
    var post := OfferRequest(slotId, offerCents, SplitOffer(offerCents, bookingPrice).value, contact, formNow);
    if parsed.Some? && parsed.value.LedgerObject? && BookingsOf(parsed.value.slot) != [] {
      var s := parsed.value.slot;
      var o := NewOffer(post.offerData, serverNow);
      OfferOnLatestKeepsSplits(s, o);
      var bs := BookingsOf(s);
      var t := s.(bookings := Some(WithOfferOnLatest(bs, o)));
      assert BookingsOf(t)[|bs| - 1] == WithOffer(bs[|bs| - 1], o);
    }
  }

  /** Setting the suggested offer leaves a consistent ledger consistent. */
  lemma SuggestedOfferKeepsConsistency(s: Slot, amount: int)
    requires ConsistentLedger(s)
    ensures var out := AfterSuggestedOffer(Some(LedgerObject(s)), amount);
            WrittenLedger(out.written).Some? && ConsistentLedger(WrittenLedger(out.written).value)
  {
  }

  /**
   * The server does not check the split: an offer whose parts do not add up to its amount is stored
   * as sent, and the ledger then breaks the split invariant.
   */
  lemma ServerStoresUnbalancedSplit(s: Slot, data: OfferData, now: nat, smsSent: bool)
    requires BookingsOf(s) != []
    requires data.partialPaymentAmount + data.fullPaymentAmount != data.offerAmount
    ensures var out := AfterOffer(Some(LedgerObject(s)), data, now, smsSent);
            WrittenLedger(out.written).Some? && !AllSplitsBalanced(WrittenLedger(out.written).value)
  {
    var bs := BookingsOf(s);
    var o := NewOffer(data, now);
    var t := s.(bookings := Some(WithOfferOnLatest(bs, o)));
    var latest := BookingsOf(t)[|bs| - 1];
    assert latest in BookingsOf(t);
    assert OffersOf(latest) == OffersOf(bs[|bs| - 1]) + [o];
    assert o in OffersOf(latest) && !SplitBalanced(o);
    assert AfterOffer(Some(LedgerObject(s)), data, now, smsSent).written == Some(LedgerObject(t));
  }

  /**
   * What the recommended price means: an offer reaches it exactly when the holder's half of the
   * excess over the price they paid reaches their desired offer, and an offer of exactly the
   * recommended price pays them exactly that.
   */
  lemma RecommendedOfferPaysHolder(price: int, desiredOffer: int, offerCents: int)
    requires desiredOffer > 0
    ensures offerCents >= RecommendedPrice(price, desiredOffer) <==>
            SplitOffer(offerCents, price).Some? && SplitOffer(offerCents, price).value.partialPaymentAmount >= desiredOffer
    ensures SplitOffer(RecommendedPrice(price, desiredOffer), price) == Some(Split(desiredOffer, price + desiredOffer))
  {
  }

  /** Two bookings made one after the other stay in `bookings` in that order. */
  lemma TwoBookingsInOrder(parsed: Option<Json>, first: BookingUpdate, second: BookingUpdate)
    requires ConsistentStart(parsed)
    ensures var once := WrittenLedger(AfterBooking(parsed, first).written);
            once.Some? &&
            var twice := WrittenLedger(AfterBooking(Some(LedgerObject(once.value)), second).written);
            var before := BookingsOf(if parsed.None? then DefaultLedger else parsed.value.slot);
            twice.Some? && BookingsOf(twice.value) == before + [first.bookingData, second.bookingData]
  {
    var s := if parsed.None? then DefaultLedger else parsed.value.slot;
    TwoBookingsKeepCallOrder(s, first, second);
  }

  /**
   * The offer rule on a ledger whose description has no "Price: " marker, as the JSON the server
   * writes unless one of its stored text fields holds one: the form measures offers against 10000
   * cents. 15000 splits 2500 / 12500, 13000 splits 1500 / 11500, and 10000 is refused.
   */
  lemma OfferRuleOnJsonLedger(description: string)
    requires !Occurs(description, PriceMarker)
    ensures var base := SlotPrice(Some(description)).value;
            base == 10000 &&
            SplitOffer(15000, base) == Some(Split(2500, 12500)) &&
            SplitOffer(13000, base) == Some(Split(1500, 11500)) &&
            SplitOffer(10000, base).None?
  {
  }
}
