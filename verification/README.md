# Heritage-Connect: chat reply classifier and booking state

Heritage-Connect is a ticket-booking chat widget for Indian heritage
monuments. This Dafny project models its two pieces of business logic:

- **The API server's `POST /chat` handler** (`server/index.js`). It decides
  which monument a message mentions (`detectSite`: "qutub", then "taj", then
  "hawa", first match wins) and whether today is a Saturday or Sunday
  (`isWeekend`). It then picks one canned reply through a fixed `if / else if`
  chain on the lower-cased message. The chain runs: weekend combo for a
  monument, any other combo, monument details, booking prompt, timings,
  popular sites, offers, and finally an echo of the message. A missing or
  empty `text` gets the 400 "Text is required" answer. The model is the pure
  function `Server.Classify(text, weekend)`. Its replies are the `Template`
  constructors, which carry the monument they name; the literal wording is not
  modelled.
- **The browser widget's state** (`client/src/App.jsx`):
  - the local catalogue (`LOCAL_SITES`, `LOCAL_BY_NAME`);
  - the prices shown in the booking summary (`pricePerTicket`, `baseTotal`,
    `offerDiscount`, `finalTotal`), modelled as pure functions;
  - the title filter applied to encyclopedia search hits;
  - the `App` component's state as the class `Client.App`. Its fields are
    `messages`, `input`, `selectedSite`, `ticketType`, `tickets` and
    `bookingId`, and each event handler is a method that appends to the log
    or updates a field.

`Text` holds the JavaScript string built-ins the code relies on: `includes` is
`Contains`, `toLowerCase` is `ToLower`, and `trim` is `Trim`.

The clock is a parameter: `weekend` is the value of `isWeekend()`, and
`Server.IsWeekend` takes the `getDay()` index. The client's own `isWeekend`
(client/src/App.jsx:116-119) is the same test, so the pricing functions take
the same boolean. The booking id from `generateBookingId` is a parameter of
`ConfirmBooking`.

`PricePerTicket`, `BaseTotal`, `OfferDiscount` and `FinalTotal` are the four
derived price values (client/src/App.jsx:145-151). `DiscountRule`,
`RoundDiscounted`, `TajMahalPrices` and `App.Payable` state more about them.

Three facts about the code:
- The pricing code has no "invalid quantity" error. The count only changes
  through the stepper, which never goes below 1. `App.Valid` keeps
  `tickets >= 1` as an invariant.
- The second branch of the chain fires on a bare "combo", not only on
  "weekend combo".
- The server does not trim the message. A message of spaces only is accepted
  and echoed (`WhitespaceEchoed`).

## Model

| member | source | states |
|---|---|---|
| `Server.DetectSite` | server/index.js:10-15 | the result is a monument whose keyword the text contains and no keyword earlier in the order qutub, taj, hawa occurs; `None` exactly when no keyword occurs |
| `Server.IsWeekend` | server/index.js:18-21 | true exactly when the `getDay` index (0 = Sunday) denotes a Saturday or a Sunday |
| `Server.DisplayName` | server/index.js:46-49 | the name a reply uses for a monument, lower-cased, is detected as that same monument |
| `Server.ReplyFor` | server/index.js:40-136 | a reply naming a monument names the detected one; the confirmed combo and the site-choosing combo come only on weekends, the weekday refusals only on weekdays; an echo repeats the text exactly as written |
| `Server.Classify` | server/index.js:32-34 | the 400 "Text is required" result comes exactly for a missing or empty text; every other text, white space included, gets a reply |
| `Server.ComboForSite` | server/index.js:45-64 | the site combo reply comes exactly when "weekend combo" and a detected monument both occur; it confirms for that monument on a weekend and refuses for it on a weekday |
| `Server.GenericCombo` | server/index.js:67-79 | the generic combo reply comes exactly when "combo" occurs and branch 1 did not fire, whatever else the text holds; the site-choosing variant only on weekends, the weekend-only notice only on weekdays |
| `Server.SiteDetailsIff` | server/index.js:82-91 | the details of a monument come exactly when it is the detected one and neither "combo" nor "book" occurs; the weekend flag plays no part |
| `Server.BookingPromptIff` | server/index.js:94-97 | the booking prompt comes exactly when "book" occurs and "combo" does not, whether or not a monument is named |
| `Server.LaterBranches` | server/index.js:40-136 | with no monument, "combo" or "book": timings words win over popular words, which win over offer words; otherwise the reply echoes the text exactly as written, not lower-cased |
| `Server.WeekendComboHasCombo` | server/index.js:67 | a text containing "weekend combo" contains "combo", so the first test of branch 2 adds nothing to the second |
| `Server.WeekendOnlyMattersForCombo` | server/index.js:51-78 | the weekend flag changes the reply if and only if the lower-cased text contains "combo" |
| `Server.CaseInsensitive` | server/index.js:36-37 | two texts equal after lower-casing get the same reply, apart from the words an echo repeats |
| `Server.LowerCasedMessage` | server/index.js:36 | lower-casing a message before sending it does not change which reply it gets |
| `Server.WhitespaceEchoed` | server/index.js:32-42 | a non-empty text of white space only passes the check and is echoed back unchanged |
| `Text.ContainsIff` | server/index.js:11 | `includes` holds exactly when the phrase occurs at some index of the text |
| `Text.ContainsTrans` | server/index.js:67 | a text containing a phrase contains every block of that phrase |
| `Text.ToLowerIdempotent` | server/index.js:36 | lower-casing twice is lower-casing once |
| `Text.Trim` | client/src/App.jsx:197-198 | the result is a block of the input with white space only around it and none at either end; it is empty exactly when the input is all white space |
| `Client.FindSite` | client/src/App.jsx:248 | the result is the first site with the id; `None` exactly when no site has it |
| `Client.CatalogMatchesServer` | client/src/App.jsx:15-55 | every monument the server detects is a local site whose id is the server's keyword and whose name is the one the server's replies use |
| `Client.PricePerTicket` | client/src/App.jsx:145-148 | an Indian ticket costs the site's Indian price and a foreign ticket its foreign price |
| `Client.BaseTotal` | client/src/App.jsx:149 | with at least one ticket the base is at least one ticket's price; it is zero exactly when there are no tickets or the ticket is free |
| `Client.OfferDiscount` | client/src/App.jsx:150 | the discount is 15% of the base on a weekend with two or more tickets and zero otherwise; it lies between 0 and the base |
| `Client.FinalTotal` | client/src/App.jsx:149-151 | the payable total is (85 * base + 50) div 100 when the discount applies and the base total otherwise; it lies between 0 and the base total |
| `Client.DiscountRule` | client/src/App.jsx:150 | the discount is nonzero exactly on a weekend with two or more tickets and a nonzero base, and then it is 15% of the base total |
| `Client.MathRound` | client/src/App.jsx:151 | the result is the integer nearest the argument, halves going up |
| `Client.RoundDiscounted` | client/src/App.jsx:150-151 | rounding the base less its discount gives (85 * base + 50) div 100 when the discount applies and the base itself otherwise |
| `Client.TajMahalPrices` | client/src/App.jsx:26-27 | Taj Mahal: two Indian tickets on a weekend cost 100 less 15, which is 85; one foreign ticket costs 1300 with no discount |
| `Client.KeepHit` | client/src/App.jsx:77-80 | a hit is kept exactly when its lower-cased title has neither "list of" nor "government of" at any index |
| `Client.FilterHits` | client/src/App.jsx:76-81 | the survivors are hits of the input and pass the title test, and every input hit that passes the test survives |
| `Client.FilterHitsAppend` | client/src/App.jsx:77-81 | filtering a concatenation is concatenating the filtered parts, so the hits keep their relative order |
| `Client.SearchResults` | client/src/App.jsx:76-82 | the result is the first five survivors, or all of them when fewer than five survive |
| `Client.SendRoute` | client/src/App.jsx:205-224 | a local card is shown exactly when "hawa mahal", "taj" or "qutub" occurs; the Hawa Mahal wins over the Taj Mahal, which wins over the Qutub Minar; a search starts exactly when no card is shown and none of "book", "time", "offer" occurs |
| `Client.LocalCardIsMentioned` | client/src/App.jsx:205-216 | the card shown is for a monument whose id occurs in the message, and the server would detect a monument in the same message |
| `Client.SitePriorityDiffers` | client/src/App.jsx:205-216 | with "taj" and "qutub" but not "hawa mahal", the client shows the Taj Mahal card while the server names the Qutub Minar |
| `Client.HawaNeedsFullName` | client/src/App.jsx:205 | "hawa" with neither "hawa mahal", "taj" nor "qutub" shows no card, while the server detects the Hawa Mahal |
| `Client.App.constructor` | client/src/App.jsx:126-142 | the log holds only the welcome line, the Taj Mahal is selected, with two Indian tickets and no booking id |
| `Client.App.PushMessage` | client/src/App.jsx:159-160 | exactly one message is appended and every earlier one is unchanged |
| `Client.App.SetInput` | client/src/App.jsx:685 | the input box holds the typed value |
| `Client.App.Send` | client/src/App.jsx:196-226 | a blank input changes nothing; otherwise the trimmed text is logged first, then the routed site's card, and that site is selected; the box is cleared; a search query is returned exactly when the route is a search |
| `Client.App.BookTickets` | client/src/App.jsx:235-245 | the user's request and then the site options are appended |
| `Client.App.SelectSiteOption` | client/src/App.jsx:247-257 | an unknown id changes nothing; a known id selects that local site and appends the user's request and then its card |
| `Client.App.BookNow` | client/src/App.jsx:259-261 | the booking summary card is appended |
| `Client.App.ConfirmBooking` | client/src/App.jsx:263-271 | the booking id is recorded and one confirmation naming the selected site and the id is appended |
| `Client.App.QuickPill` | client/src/App.jsx:273-293 | "popular", "timings" and "offers" each append their one message; any other kind changes nothing |
| `Client.App.SetTicketType` | client/src/App.jsx:530-540 | the visitor type becomes the chosen one |
| `Client.App.DecrementTickets` | client/src/App.jsx:557 | the count goes down by one but never below 1 |
| `Client.App.IncrementTickets` | client/src/App.jsx:567 | the count goes up by exactly one |
| `Client.App.Payable` | client/src/App.jsx:144-151 | the amount shown for the current selection lies between 0 and its base total |

## Left out

- HTTP plumbing is not modelled: Express setup, CORS, JSON body parsing, logging, `app.listen`, the port default and the `GET /` banner (server/index.js:1-7, 23-25, 145-148).
- The 500 "Server error" path is not modelled. Nothing in the modelled logic throws.
- JSON values of `text` that are not strings (numbers, booleans, objects) are not modelled. `text` is either missing (`None`) or a string.
- Literal reply texts are not modelled. Each reply is a `Template` constructor carrying the monument it names or the echoed text.
- Text.ToLower: maps only the ASCII letters A-Z. JavaScript's full Unicode lower-casing is not modelled, so a non-ASCII character that lower-cases to an ASCII letter (the Kelvin sign to "k") does not match a keyword here.
- Client.FinalTotal: the discount and the subtraction use exact reals. The IEEE double rounding of `baseTotal * 0.15` is not modelled.
- The display of `offerDiscount.toFixed(0)` and of coordinates with `toFixed(2)` is floating-point formatting and is not modelled.
- The encyclopedia lookups are network I/O and are not modelled: `fetch` in `searchExternal` and `getExternalDetails`, and the asynchronous `handleSearchExtraSite` with the card or advisory message it later logs. `App.Send` returns the query such a search would start with.
- `generateBookingId` is driven by `Math.random` and is not modelled. Its result is the `newId` parameter of `App.ConfirmBooking`.
- `new Date()`: the day index or the weekend flag is a parameter.
- Message ids from `Date.now()` are not modelled, and neither are the `setTimeout` delays. `App.BookTickets` logs the site options at once; in the widget, other messages could arrive during the 800 ms delay.
- The typing indicator, the `loadingExternal` flag, scrolling and all JSX rendering are UI and are not modelled.
- Display-only site fields are not modelled: city, tagline, rating, visitors, timings and image.
- The text of the welcome message is not modelled.
- Strings are sequences of Unicode scalar values, not UTF-16 code units: a lone surrogate cannot be represented, and lengths and indices count scalar values.
