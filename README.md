# Slot ledger of unbooked-demo, in Dafny

unbooked-demo sells appointment slots kept in a Google Calendar. Each slot's state is a JSON
document stored as the description of its calendar event: the slot `status`, its prices
(`originalPrice`, `latestBookingPrice`, `recommendedPrice`, `suggestedOffer`) and an ordered list of
`bookings`, each holding an ordered list of `offers`. A booking form takes a card payment and
records a booking. An offer form lets a later visitor offer more for a booked slot; the excess over
the price is split between the current holder and the provider. The slot list reads the ledger to
choose a tile and a price for each slot.

This project models that ledger and every piece of code that reads or writes it:

- `Ledger` (ledger.dfy): the ledger document and the request bodies, as datatypes. JSON `null`
  and a missing key are both `None`, because every reader treats them alike. Amounts are integer
  cents, instants are milliseconds.
- `Server` (server.dfy): server.js. The parsed description is a class, `SlotDocument`, which the
  handlers change in place: booking update, add-offer and the suggested-offer update. Each handler
  method is proved equal to a pure function of what `JSON.parse` returned. Lemmas about those
  functions state what each handler promises. The module also covers the price read by
  /api/get-slot-price, the reading of an SMS reply, and which POST handler Express runs.
- `BookingPage` (booking_form.dfy) and `OfferPage` (offer_form.dfy): the two forms. The pricing
  rules are functions. The component state (price, loading flag, error, closed) is a class whose
  methods follow `fetchPrice` / `fetchSlotPrice` and the submit handlers. `Checkout`
  (checkout.dfy) holds what the two forms share.
- `EligibleContent` (eligible_content.dfy): the slot status, the display price and the choice of
  tile.
- `JsonUtils` (json_utils.dfy): `parseJSONSafely`, as the exact chain of replacements and a trim
  before the parse. `JsText` (js_text.dfy) gives the JavaScript string built-ins that chain relies
  on: `trim`, literal global `replace`, `indexOf`, `split`, `parseInt` and `toLowerCase`.
- `BookingAvailability` (booking_availability.dfy): the Sunday-noon booking window.
- `Flows` (flows.dfy): how the pieces fit together. If every write comes from the forms, the
  ledger stays consistent. The module also proves what the recommended price means to a later
  offer, and works through concrete prices.

Calls the model cannot see become parameters:
- `JSON.parse` is a `JsonParser` function, with `None` when it throws.
- The calendar read is the `description` argument, and the calendar write is the `written` part of
  a handler's outcome.
- The payment steps and the HTTP replies the forms wait for are `PaymentStep` and `Delivery`
  values.
- Whether Twilio accepted the SMS is `smsSent`.
- The clocks (`Date.now()`, `getDay()` and so on) are numbers passed in.

Two behaviours of the code worth knowing:
- The offer form measures an offer against the price /api/get-slot-price returns. That handler
  looks for a `"Price: "` marker. The JSON the server writes has none of its own; one appears only
  when a stored text field holds it (a booking's name, contact or location, server.js:259, or an
  offer's `offerBy`, `phone` or `location`, server.js:320-322), and then that text sets the price
  (`Server.SlotPriceReadsNumeral`). Without one the base is 10000 cents, whatever the ledger's
  recommended price is (`Flows.OfferRuleOnJsonLedger`: 15000 splits 2500 / 12500, and 13000 is
  accepted).
- The booking form reads the ledger key `price`, while the server's default ledger and the slot
  list use `originalPrice`.

## Model

| member | source | states |
|---|---|---|
| JsText.Trim | src/utils/jsonUtils.js:12 | the trimmed text has no white space at either end and holds only characters of the input |
| JsText.TrimPadding | server.js:81 | trimming a word padded with white space on both sides gives the word back |
| JsText.ReplaceAll | src/utils/jsonUtils.js:5-11 | a literal global replacement brings in no character that is in neither the input nor the replacement |
| JsText.ReplaceAllAbsent | src/utils/jsonUtils.js:9 | where the pattern does not occur, a global replacement returns the text unchanged |
| JsText.SecondPiece | server.js:208 | `split(sep)[1]` is undefined exactly when `sep` does not occur; otherwise it starts right after the first occurrence, no occurrence starts inside it, and it runs to the next occurrence or to the end |
| JsText.ParseIntDecimal | server.js:208 | `parseInt` reads back a positive decimal numeral followed by anything that does not start with a digit |
| JsText.DecimalValue | server.js:318 | reading back the decimal rendering of a number gives the number |
| JsonUtils.StripTags | src/utils/jsonUtils.js:5 | after tag removal no '<' is followed anywhere later by a '>', and no new character appears |
| JsonUtils.RemoveZeroWidth | src/utils/jsonUtils.js:6 | the result holds no U+200B to U+200D or U+FEFF, and only characters of the input |
| JsonUtils.Clean | src/utils/jsonUtils.js:4-12 | the text handed to the parser has no white space at either end |
| JsonUtils.ParseJsonSafely | src/utils/jsonUtils.js:1-18 | input that is not a string gives null; otherwise the result is exactly what `JSON.parse` gives for the cleaned text, null when that parse throws |
| JsonUtils.BreakRemovalIsNoOp | src/utils/jsonUtils.js:5-9 | the `<br>` removal never changes the text, because tag removal already left no tag pair |
| JsonUtils.CleanHasNoTagPair | src/utils/jsonUtils.js:5-12 | in the cleaned text no '<' is followed anywhere later by '>' |
| JsonUtils.CleanDropsInvisibles | src/utils/jsonUtils.js:6-8 | the cleaned text holds no line feed, no U+00A0 and no zero-width character |
| JsonUtils.DoublyEscapedQuote | src/utils/jsonUtils.js:10-11 | `&amp;quot;` cleans to `&quot;`, not to a quote, because `&quot;` is decoded first |
| BookingAvailability.IsBookingAvailable | src/utils/bookingAvailibility.js:8 | true only on Sunday (0) and only at hour 12; for a valid minute, true exactly then |
| BookingAvailability.WindowEdges | src/utils/bookingAvailibility.js:8 | every minute of Sunday's 12 o'clock hour is open; Sunday 11:59, Sunday 13:00 and hour 12 on any other day are not |
| EligibleContent.ParsedLedger | src/components/EligibleContent.js:34-36 | a ledger is read exactly from a description with text that parses to an object, and it is that object |
| EligibleContent.SlotStatus | src/components/EligibleContent.js:33-41 | the parsed ledger's `status` whenever it is a non-empty string; "unknown" for a missing, blank or unparseable description; any other status is the parsed ledger's own |
| EligibleContent.DisplayPrice | src/components/EligibleContent.js:44-63 | a booked ledger with a non-zero `recommendedPrice` shows it, an available one with a non-zero `originalPrice` shows that; nothing for a missing, blank or unparseable description; a price shown is always one of those two |
| EligibleContent.TileFor | src/components/EligibleContent.js:78-97 | the booking tile exactly for "available", the offer tile exactly for "booked", the error tile otherwise |
| EligibleContent.DisplayPriceMatchesTile | src/components/EligibleContent.js:44-97 | the error tile never shows a price, the booking tile only the original price, the offer tile only the recommended price |
| EligibleContent.BookedShowsRecommended | src/components/EligibleContent.js:48-89 | a ledger whose status is "booked" gets the offer tile and shows its recommended price when that is non-zero, nothing otherwise |
| EligibleContent.AvailableShowsOriginal | src/components/EligibleContent.js:54-85 | a ledger whose status is "available" gets the booking tile and shows its original price when that is non-zero, nothing otherwise |
| Server.SlotDocument.constructor | server.js:241 | the document holds exactly the parsed ledger |
| Server.SlotDocument.EnsureBookings | server.js:249-251 | a missing `bookings` becomes empty; nothing else changes |
| Server.SlotDocument.MarkBooked | server.js:254-256 | status "booked" and the two prices set; nothing else changes |
| Server.SlotDocument.PushBooking | server.js:259 | the booking is appended at the end; nothing else changes |
| Server.SlotDocument.PushOfferToLatest | server.js:308-335 | the latest booking gets the offer appended to its offers (created if missing); nothing else changes |
| Server.SlotDocument.SetSuggestedOffer | server.js:387 | only `suggestedOffer` changes |
| Server.UpdateSlotAfterBooking | server.js:217-275 | the handler's write and answer are those of `AfterBooking` on what the description parsed to |
| Server.AddOffer | server.js:278-359 | the handler's write, SMS and answer are those of `AfterOffer` on what the description parsed to |
| Server.SetOfferAmount | server.js:362-403 | the handler's write and answer are those of `AfterSuggestedOffer` on what the description parsed to |
| Server.BookingUpdateAppends | server.js:249-259 | a booking update marks the slot booked with the requested prices whatever its prior status, appends exactly one booking at the end, keeps earlier bookings in order, and leaves the other keys alone |
| Server.BookingUpdateOnUnparsedText | server.js:232-246 | a description that does not parse is booked as the default ledger: available, 10000, no prices, no bookings |
| Server.TwoBookingsKeepCallOrder | server.js:259 | two booking updates leave both bookings, in call order |
| Server.AddOfferAppends | server.js:292-335 | add-offer fails without writing when the description does not parse or has no booking; otherwise it appends exactly one offer to the latest booking and changes nothing else |
| Server.AddOfferWritesIffBooked | server.js:292-348 | a write happens exactly when the description is a ledger with a booking, and the SMS only after the write |
| Server.NewOfferStartsOpen | server.js:317-334 | a new offer is unaccepted, uncaptured and unauthorised, has no payment ids, is split, and copies amounts and deadline; its split holds exactly when the request's does |
| Server.OfferIdsDiffer | server.js:318 | offers made at different milliseconds get different ids |
| Server.SuggestedOfferOnlyTouchesItself | server.js:376-387 | only `suggestedOffer` changes; a description that does not parse becomes exactly `{bookings: [], suggestedOffer}` |
| Server.SlotPrice | server.js:208 | the handler fails only without a description; the piece after the first marker is the price when it reads as a non-zero integer, and 10000 when the marker is absent, the piece reads as NaN or as 0 |
| Server.SlotPriceReadsNumeral | server.js:208 | a positive numeral right after the first "Price: " marker, followed by a non-digit, is the price, whatever text precedes the marker |
| Server.SlotPriceAfterPlainText | server.js:208 | text without a 'P' before the marker, then the marker and a positive numeral, reads as that numeral |
| Server.ClassifyReplyIgnoresPaddingAndCase | server.js:81-89 | white space around a reply and its letter case do not change how it is read |
| Server.AcceptMeansYes | server.js:81-82 | a reply reads as accept exactly when its trimmed text is "yes" in any letter case |
| Server.Dispatch | server.js:77-458 | a path equal to a registered one runs the first handler registered for it; a path equal to none runs nothing |
| Server.ShadowedHandlerNeverRuns | server.js:362-458 | a handler registered after another one for the same path never runs |
| Server.SecondSuggestedOfferHandlerUnreachable | server.js:431-458 | the second /api/set-offer-amount handler is never reached |
| Server.SuggestedOfferHandlerAnswers | server.js:361-403 | /api/set-offer-amount is answered by the handler registered first for it |
| Checkout.ErrorText | src/components/BookingForm.js:222 | the error shown is never empty: the thrown message, or the fallback text |
| Checkout.SubmitError | src/components/OfferForm.js:110-135 | a submission leaves no error exactly when the payment was confirmed and the ledger request succeeded |
| BookingPage.RecommendedPrice | src/components/BookingForm.js:190 | with a non-negative desired offer the recommended price is at least the price, and above it for a positive offer |
| BookingPage.BookingRequest | src/components/BookingForm.js:190-217 | the posted `latestBookingPrice`, the booking's price and its authorised amount all equal the price; the booking is authorised, unfulfilled and has no offers; the recommended price is computed from the booking's own price and desired offer |
| BookingPage.DescribedPriceRule | src/components/BookingForm.js:35-39 | with a description, the price stays 10000 unless it parses to an object with a truthy `price`, which is then used |
| BookingPage.EmptyDescriptionKeepsDefault | src/components/BookingForm.js:40-46 | without a description the server's answer still leaves the form at 10000 |
| BookingPage.BookingForm.constructor | src/components/BookingForm.js:24-29 | the form starts at 10000 cents, not loading, without error, on the card element |
| BookingPage.BookingForm.FetchPrice | src/components/BookingForm.js:33-51 | the price becomes `PriceAfterFetch` of the description or the server's answer; nothing else changes |
| BookingPage.BookingForm.HandleSubmit | src/components/BookingForm.js:153-225 | the ledger request goes out exactly when the payment is confirmed, and carries the shown price; the form closes only when that request succeeds; the error is the first failure's |
| BookingPage.BookingForm.OnPaymentMethod | src/components/BookingForm.js:77-140 | as the submit handler, with the event completed as success before the ledger request and as fail on any error |
| OfferPage.SplitOffer | src/components/OfferForm.js:68-79 | refused exactly when the offer does not exceed the price; otherwise the holder's part is half the excess rounded down, the parts add up to the offer, the provider's part exceeds the price and, for a non-negative price, is at least the holder's |
| OfferPage.OneCentExcess | src/components/OfferForm.js:78-79 | an excess of one cent gives the holder nothing |
| OfferPage.OfferRequest | src/components/OfferForm.js:80-127 | the posted offer carries the offered amount and expires 30 minutes after the form's clock |
| OfferPage.PostedOfferIsBalanced | src/components/OfferForm.js:78-127 | an offer the form posts has balanced parts and pays the provider more than the price |
| OfferPage.OfferForm.constructor | src/components/OfferForm.js:22-26 | the base price is 10000 until the fetch succeeds |
| OfferPage.OfferForm.FetchSlotPrice | src/components/OfferForm.js:30-40 | the base price becomes the server's answer, or stays when the request fails |
| OfferPage.OfferForm.HandleSubmit | src/components/OfferForm.js:56-139 | an offer at or below the price is refused before any payment intent or ledger request; otherwise the offer goes out exactly when the payment is confirmed, with the split of `SplitOffer` |
| Flows.BookingFlowKeepsConsistency | server.js:249-259 | a booking from the booking form leaves the ledger consistent: top-level prices describe the latest booking and every split is balanced |
| Flows.OfferFlowKeepsConsistency | server.js:308-335 | an offer from the offer form leaves a consistent ledger consistent |
| Flows.SuggestedOfferKeepsConsistency | server.js:387 | setting the suggested offer leaves a consistent ledger consistent |
| Flows.ServerStoresUnbalancedSplit | server.js:327-330 | the server does not check the split: an unbalanced offer is stored and breaks the invariant |
| Flows.RecommendedOfferPaysHolder | src/components/BookingForm.js:190 | an offer reaches the recommended price exactly when the holder's half of the excess reaches their desired offer; the recommended price itself pays exactly that |
| Flows.TwoBookingsInOrder | server.js:259 | two bookings through the handler stay in call order |
| Flows.OfferRuleOnJsonLedger | src/components/OfferForm.js:68-79 | against a description without "Price: " the base is 10000: 15000 splits 2500 / 12500, 13000 splits 1500 / 11500, 10000 is refused |

## Left out

- HTTP plumbing: Express routing beyond choosing the handler, request and response objects, status
  codes (errors are the `Failure` datatype), and the handlers' logging.
- Server.Dispatch: compares a request path with a registered path character for character. The
  default Express router (server.js:13) ignores letter case and a trailing slash, so
  `/API/Set-Offer-Amount` and `/api/set-offer-amount/` also reach the handler at server.js:361,
  while the model runs nothing for them. The shadowing lemmas do not depend on this, since both
  /api/set-offer-amount registrations use the same path.
- Google Calendar and OAuth: the token handling, `ensureAuthenticated`, and `events.get` /
  `events.patch` / `events.list`. These are foreign calls. A failure of any of them makes a
  handler answer 500 without a write, and that is not modelled. The read is an argument and the
  write is an output.
- Stripe: payment-intent creation and card confirmation (server.js:406-428 and the forms' calls).
  These are a foreign library. Their result is a `PaymentStep` input; only the order "ledger
  request after confirmation" is stated.
- Twilio: the SMS is modelled only as who receives it and which offer it reports, plus whether it
  was accepted. The text of the message is left out; it prints the amount in cents after a "$".
- The distance check (server.js:97-139) and the browser's geolocation: network and browser APIs.
- Offer acceptance, capture and expiry: the code does not implement them; the webhook only reads
  the reply.
- Concurrency: two requests that read and write the same event can lose an update. The model runs
  handlers one at a time.
- JSON values the model does not represent: a ledger key of an unexpected type (a string price,
  a `bookings` that is not an array, a booking that is not an object) and keys the core never
  touches. `JSON.stringify` keeps the untouched keys, but the model cannot show that.
- Dollar-to-cents conversion and floating point (`Math.round(offerAmount * 100)`,
  `offerAmount * 100`): amounts arrive as integer cents.
- Timestamps: `Date.now()` and `toISOString()` become integer milliseconds; the ISO text is not
  modelled.
- React: rendering, effects and their dependencies (the payment-request handler is registered
  whenever Stripe has loaded over HTTPS; `canMakePayment` decides only whether its button shows),
  the `alert`, the form fields' change handlers, and EligibleContent's `fetchEvents`.
- JsText.ParseInt: its contract states only that blank text reads as NaN. The value read is proved
  for positive decimal numerals (`ParseIntDecimal`), not for signed or hexadecimal input. Numbers
  beyond 2^53, where JavaScript loses precision, are read exactly.
- JsText.ToLower: lower-cases the letters A to Z only, not the rest of Unicode.
- JsText.Trim: works on characters, not on UTF-16 code units.
- The body of the second /api/set-offer-amount handler (server.js:431-458): it never runs
  (`Server.SecondSuggestedOfferHandlerUnreachable`).
- A webhook body without `Body`: `trim` throws and Express answers 500. `ClassifyReply` takes a
  string.
