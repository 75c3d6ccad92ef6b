/**
 * The ledger readers of the slot list: the status of a slot, the price shown on its tile, and which
 * tile shows it. Each reads the description through `parseJSONSafely`.
 */
module EligibleContent {
  import opened Wrappers
  import opened JsText
  import opened Ledger
  import opened JsonUtils

  /** The three kinds of tile the list can render for a slot. */
  datatype Tile = BookingTile | OfferTile | ErrorTile

  /** The guard both readers start with: the description is a string with something besides blanks. */
  predicate HasText(description: Option<string>) {
    description.Some? && description.value != "" && Trim(description.value) != ""
  }

  /** The ledger object the description parses to, if it parses to an object at all. */
  function ParsedLedger(description: Option<string>, parse: JsonParser): (r: Option<Slot>)
    ensures r.Some? ==> HasText(description) &&
                        ParseJsonSafely(description, parse) == Some(LedgerObject(r.value))
    ensures HasText(description) && ParseJsonSafely(description, parse).Some? &&
            ParseJsonSafely(description, parse).value.LedgerObject? ==>
              r == Some(ParseJsonSafely(description, parse).value.slot)
  {
    if HasText(description) then
      match ParseJsonSafely(description, parse)
      case Some(LedgerObject(s)) => Some(s)
      case _ => None
    else None
  }

  /**
   * `getSlotStatus`: the ledger's `status` when it is a non-empty string; "unknown" when the
   * description is missing or blank, does not parse, or parses to something without a status.
   */
  function SlotStatus(description: Option<string>, parse: JsonParser): (r: string)
    ensures r != ""
    ensures !HasText(description) ==> r == "unknown"
    ensures HasText(description) && ParseJsonSafely(description, parse).None? ==> r == "unknown"
    ensures r != "unknown" ==> ParsedLedger(description, parse).Some? &&
                               ParsedLedger(description, parse).value.status == Some(r)
    ensures ParsedLedger(description, parse).Some? && TruthyText(ParsedLedger(description, parse).value.status) ==>
              r == ParsedLedger(description, parse).value.status.value
  {
    match ParsedLedger(description, parse)
    case Some(s) => if TruthyText(s.status) then s.status.value else "unknown"
    case None => "unknown"
  }

  /**
   * `getDisplayPrice`: a booked ledger shows its `recommendedPrice`, an available one its
   * `originalPrice`, each only when it is present and not zero; anything else shows nothing.
   */
  function DisplayPrice(description: Option<string>, parse: JsonParser): (r: Option<int>)
    ensures !HasText(description) ==> r.None?
    ensures HasText(description) && ParseJsonSafely(description, parse).None? ==> r.None?
    ensures r.Some? ==> r.value != 0
    ensures r.Some? ==> ParsedLedger(description, parse).Some? &&
                        var s := ParsedLedger(description, parse).value;
                        (s.status == Some("booked") && r == s.recommendedPrice) ||
                        (s.status == Some("available") && r == s.originalPrice)
    ensures ParsedLedger(description, parse).Some? ==>
              var s := ParsedLedger(description, parse).value;
              (s.status == Some("booked") && Truthy(s.recommendedPrice) ==> r == s.recommendedPrice) &&
              (s.status == Some("available") && Truthy(s.originalPrice) ==> r == s.originalPrice)
  {
    match ParsedLedger(description, parse)
    case Some(s) =>
      if s.status == Some("booked") && Truthy(s.recommendedPrice) then s.recommendedPrice
      else if s.status == Some("available") && Truthy(s.originalPrice) then s.originalPrice
      else None
    case None => None
  }

  /** The conditional in the render: available to the booking tile, booked to the offer tile. */
  function TileFor(status: string): (t: Tile)
    ensures t == BookingTile <==> status == "available"
    ensures t == OfferTile <==> status == "booked"
  {
    if status == "available" then BookingTile
    else if status == "booked" then OfferTile
    else ErrorTile
  }

  /**
   * The price a tile shows is tied to the tile: the booking tile only ever shows the original price,
   * the offer tile only the recommended price, and the error tile nothing.
   */
  lemma DisplayPriceMatchesTile(description: Option<string>, parse: JsonParser)
    ensures var tile := TileFor(SlotStatus(description, parse));
            var price := DisplayPrice(description, parse);
            var s := ParsedLedger(description, parse);
            (tile == ErrorTile ==> price.None?) &&
            (tile == BookingTile && price.Some? ==> s.Some? && price == s.value.originalPrice) &&
            (tile == OfferTile && price.Some? ==> s.Some? && price == s.value.recommendedPrice)
  {
    var status := SlotStatus(description, parse);
    var price := DisplayPrice(description, parse);
    if price.Some? {
      var s := ParsedLedger(description, parse).value;
      if s.status == Some("booked") && Truthy(s.recommendedPrice) {
        assert status == "booked";
      } else {
        assert status == "available";
      }
    }
  }

  /** A ledger read as booked with a non-zero recommended price shows exactly that price. */
  lemma BookedShowsRecommended(description: Option<string>, parse: JsonParser, s: Slot)
    requires HasText(description) && ParseJsonSafely(description, parse) == Some(LedgerObject(s))
    requires s.status == Some("booked")
    ensures TileFor(SlotStatus(description, parse)) == OfferTile
    ensures DisplayPrice(description, parse) == (if Truthy(s.recommendedPrice) then s.recommendedPrice else None)
  {
    assert ParsedLedger(description, parse) == Some(s);
    assert SlotStatus(description, parse) == s.status.value by {
      assert TruthyText(s.status);
    }
    assert DisplayPrice(description, parse) == (if Truthy(s.recommendedPrice) then s.recommendedPrice else None);
  }

  /** A ledger read as available goes to the booking tile and shows its non-zero original price. */
  lemma AvailableShowsOriginal(description: Option<string>, parse: JsonParser, s: Slot)
    requires HasText(description) && ParseJsonSafely(description, parse) == Some(LedgerObject(s))
    requires s.status == Some("available")
    ensures TileFor(SlotStatus(description, parse)) == BookingTile
    ensures DisplayPrice(description, parse) == (if Truthy(s.originalPrice) then s.originalPrice else None)
  {
    assert ParsedLedger(description, parse) == Some(s);
    assert SlotStatus(description, parse) == s.status.value by {
      assert TruthyText(s.status);
    }
  }
}
