/** The booking widget in the browser: the local monument catalogue, the
    price shown in the booking summary, the post-filter on encyclopedia
    search hits, and the chat state that the event handlers update. */
module Client {
  import opened Text
  import Server

  // ---------------------------------------------------------------------
  // Catalogue
  // ---------------------------------------------------------------------

  /** A monument card; prices are whole rupees.  Display-only fields (city,
      tagline, rating, visitors, timings, image) are not modelled. */
  datatype Site = Site(id: string, name: string, priceIndian: nat, priceForeign: nat)

  /** `LOCAL_SITES`: the monuments available without any network access. */
  const LocalSites: seq<Site> := [
    Site("taj", "Taj Mahal", 50, 1300),
    Site("qutub", "Qutub Minar", 40, 600),
    Site("hawa", "Hawa Mahal", 50, 200)
  ]

  /** `LOCAL_BY_NAME`: the same monuments keyed by lower-case name. */
  const LocalByName: map<string, Site> := map[
    "taj mahal" := LocalSites[0],
    "qutub minar" := LocalSites[1],
    "hawa mahal" := LocalSites[2]
  ]

  /** `sites.find(s => s.id === id)`: the first site with that id, if any. */
  function FindSite(sites: seq<Site>, id: string): (r: Option<Site>)
    ensures r.Some? ==> r.value in sites && r.value.id == id
    ensures r.Some? ==> exists i :: 0 <= i < |sites| && sites[i] == r.value && NoIdBefore(sites, id, i)
    ensures r.None? <==> forall s :: s in sites ==> s.id != id
  {
    if sites == [] then None
    else if sites[0].id == id then
      assert NoIdBefore(sites, id, 0);
      Some(sites[0])
    else
      var r := FindSite(sites[1..], id);
      assert forall s :: s in sites ==> s == sites[0] || s in sites[1..];
      if r.Some? then
        var i :| 0 <= i < |sites[1..]| && sites[1..][i] == r.value && NoIdBefore(sites[1..], id, i);
        assert sites[i + 1] == r.value && NoIdBefore(sites, id, i + 1);
        r
      else
        r
  }

  /** No site before index i has the given id. */
  predicate NoIdBefore(sites: seq<Site>, id: string, i: nat)
    requires i <= |sites|
  {
    forall j :: 0 <= j < i ==> sites[j].id != id
  }

  /** The client's catalogue and the server's monuments agree: each monument
      the server detects is a local site whose id is the server's keyword and
      whose name is the name the server's replies use. */
  lemma CatalogMatchesServer(s: Server.SiteId)
    ensures FindSite(LocalSites, Server.Keyword(s)).Some?
    ensures FindSite(LocalSites, Server.Keyword(s)).value.name == Server.DisplayName(s)
  {
    var site := match s
      case Taj => LocalSites[0]
      case Qutub => LocalSites[1]
      case Hawa => LocalSites[2];
    assert site in LocalSites && site.id == Server.Keyword(s);
  }

  // ---------------------------------------------------------------------
  // Price in the booking summary
  // ---------------------------------------------------------------------

  datatype TicketType = Indian | Foreign

  /** `pricePerTicket`: the Indian price for Indian visitors, the foreign
      price otherwise. */
  function PricePerTicket(site: Site, t: TicketType): (r: nat)
    ensures t == Indian ==> r == site.priceIndian
    ensures t == Foreign ==> r == site.priceForeign
  {
    match t
    case Indian => site.priceIndian
    case Foreign => site.priceForeign
  }

  /** `baseTotal`: unit price times the number of tickets. */
  function BaseTotal(site: Site, t: TicketType, tickets: nat): (r: nat)
    ensures tickets > 0 ==> PricePerTicket(site, t) <= r
    ensures r == 0 <==> tickets == 0 || PricePerTicket(site, t) == 0
  {
    PricePerTicket(site, t) * tickets
  }

  /** `offerDiscount`: 15% of the base total on a weekend for two or more
      tickets, nothing otherwise (an exact real, not a rounded one). */
  function OfferDiscount(baseTotal: nat, tickets: nat, weekend: bool): (r: real)
    ensures 0.0 <= r <= baseTotal as real
    ensures r != 0.0 ==> weekend && tickets >= 2
    ensures r * 100.0 == (if weekend && tickets >= 2 then (15 * baseTotal) as real else 0.0)
  {
    if weekend && tickets >= 2 then baseTotal as real * 0.15 else 0.0
  }

  /** `Math.round`: the nearest integer, halves going up. */
  function MathRound(x: real): (r: int)
    ensures r as real - 0.5 <= x < r as real + 0.5
  {
    (x + 0.5).Floor
  }

  /** `finalTotal`: the base total less the discount, rounded.  In integer
      arithmetic that is (85 * base + 50) div 100 when the discount applies
      and the base total otherwise; never negative and never more than the
      base total. */
  function FinalTotal(baseTotal: nat, tickets: nat, weekend: bool): (r: int)
    ensures r == if weekend && tickets >= 2 then (85 * baseTotal + 50) / 100 else baseTotal
    ensures 0 <= r <= baseTotal
  {
    RoundDiscounted(baseTotal, tickets, weekend);
    MathRound(baseTotal as real - OfferDiscount(baseTotal, tickets, weekend))
  }

  /** The discount is granted exactly on a weekend with two or more tickets
      (for a non-zero base), and then it is 15% of the base total. */
  lemma DiscountRule(baseTotal: nat, tickets: nat, weekend: bool)
    ensures (OfferDiscount(baseTotal, tickets, weekend) != 0.0)
              <==> weekend && tickets >= 2 && baseTotal > 0
    ensures (OfferDiscount(baseTotal, tickets, weekend) != 0.0)
              ==> OfferDiscount(baseTotal, tickets, weekend) * 100.0 == (15 * baseTotal) as real
  {
  }

  lemma FloorOfQuotient(q: nat, d: nat)
    requires d > 0
    ensures ((q as real) / (d as real)).Floor == q / d
  {
    var n, m := q / d, q % d;
    assert q == d * n + m;
    assert (q as real) / (d as real) == n as real + (m as real) / (d as real);
    assert 0.0 <= (m as real) / (d as real) < 1.0;
  }

  /** Rounding the discounted total, half up, is integer division:
      (85 * base + 50) div 100 under the discount, the base otherwise. */
  lemma RoundDiscounted(baseTotal: nat, tickets: nat, weekend: bool)
    ensures MathRound(baseTotal as real - OfferDiscount(baseTotal, tickets, weekend))
              == if weekend && tickets >= 2 then (85 * baseTotal + 50) / 100 else baseTotal
  {
    if weekend && tickets >= 2 {
      assert baseTotal as real - baseTotal as real * 0.15 + 0.5 == ((85 * baseTotal + 50) as real) / 100.0;
      FloorOfQuotient(85 * baseTotal + 50, 100);
    } else {
      assert baseTotal as real + 0.5 == ((2 * baseTotal + 1) as real) / 2.0;
      FloorOfQuotient(2 * baseTotal + 1, 2);
    }
  }

  /** Taj Mahal for two Indian visitors on a weekend: 100 less 15 is 85; for
      one foreign visitor there is no discount: 1300. */
  lemma TajMahalPrices()
    ensures BaseTotal(LocalSites[0], Indian, 2) == 100
    ensures FinalTotal(BaseTotal(LocalSites[0], Indian, 2), 2, true) == 85
    ensures FinalTotal(BaseTotal(LocalSites[0], Foreign, 1), 1, true) == 1300
  {
  }

  // ---------------------------------------------------------------------
  // Encyclopedia search post-filter
  // ---------------------------------------------------------------------

  datatype SearchHit = SearchHit(title: string, pageId: int)

  /** The two phrases that mark a search hit as a list or an office rather
      than a monument. */
  const ListOf := "list of"
  const GovernmentOf := "government of"

  /** A hit survives unless its lower-cased title has "list of" or
      "government of". */
  predicate KeepHit(h: SearchHit): (r: bool)
    ensures r <==> (forall i: nat :: !OccursAt(ToLower(h.title), ListOf, i))
                   && (forall i: nat :: !OccursAt(ToLower(h.title), GovernmentOf, i))
  {
    var title := ToLower(h.title);
    assert forall i: nat :: OccursAt(ToLower(h.title), ListOf, i) == OccursAt(title, ListOf, i);
    assert forall i: nat :: OccursAt(ToLower(h.title), GovernmentOf, i) == OccursAt(title, GovernmentOf, i);
    AvoidsBothIff(title, ListOf, GovernmentOf);
    !Contains(title, ListOf) && !Contains(title, GovernmentOf)
  }

  /** `results.filter(...)`: the surviving hits, in their original order. */
  function FilterHits(hits: seq<SearchHit>): (r: seq<SearchHit>)
    ensures |r| <= |hits|
    ensures forall h :: h in r ==> h in hits && KeepHit(h)
    ensures forall i :: 0 <= i < |hits| && KeepHit(hits[i]) ==> hits[i] in r
  {
    if hits == [] then []
    else
      var rest := FilterHits(hits[1..]);
      assert forall i :: 1 <= i < |hits| ==> hits[i] == hits[1..][i - 1];
      (if KeepHit(hits[0]) then [hits[0]] else []) + rest
  }

  /** Filtering keeps the relative order: filtering a concatenation is the
      concatenation of the filtered parts. */
  lemma {:induction false} FilterHitsAppend(a: seq<SearchHit>, b: seq<SearchHit>)
    ensures FilterHits(a + b) == FilterHits(a) + FilterHits(b)
  {
    if a != [] {
      assert (a + b)[0] == a[0] && (a + b)[1..] == a[1..] + b;
      FilterHitsAppend(a[1..], b);
    } else {
      assert a + b == b;
    }
  }

  /** `.filter(...).slice(0, 5)`: the first five surviving hits, or all of
      them when fewer survive. */
  function SearchResults(hits: seq<SearchHit>): (r: seq<SearchHit>)
    ensures |r| == if |FilterHits(hits)| < 5 then |FilterHits(hits)| else 5
    ensures r == FilterHits(hits)[..|r|]
    ensures forall h :: h in r ==> h in hits && KeepHit(h)
  {
    var kept := FilterHits(hits);
    if |kept| < 5 then kept else kept[..5]
  }

  // ---------------------------------------------------------------------
  // Chat input routing
  // ---------------------------------------------------------------------

  const HawaMahal := "hawa" + " mahal"

  /** What sending a message does besides logging it: show a local card,
      start an encyclopedia search, or nothing. */
  datatype Route = ShowLocal(site: Site) | SearchExternal | NoAction

  /** The routing in `handleSend` on the trimmed, lower-cased message:
      "hawa mahal" (the full name), then "taj", then "qutub"; with none of
      them, a search unless the message speaks of booking, times or offers. */
  function SendRoute(lower: string): (r: Route)
    ensures r.ShowLocal? <==> Contains(lower, HawaMahal) || Contains(lower, "taj") || Contains(lower, "qutub")
    ensures r.ShowLocal? ==> r.site in LocalSites
    ensures Contains(lower, HawaMahal) ==> r == ShowLocal(LocalSites[2])
    ensures !Contains(lower, HawaMahal) && Contains(lower, "taj") ==> r == ShowLocal(LocalSites[0])
    ensures (!Contains(lower, HawaMahal) && !Contains(lower, "taj") && Contains(lower, "qutub"))
              ==> r == ShowLocal(LocalSites[1])
    ensures (r.SearchExternal?)
              <==> !r.ShowLocal? && !Contains(lower, "book") && !Contains(lower, "time") && !Contains(lower, "offer")
  {
    if Contains(lower, HawaMahal) then ShowLocal(LocalByName["hawa mahal"])
    else if Contains(lower, "taj") then ShowLocal(LocalByName["taj mahal"])
    else if Contains(lower, "qutub") then ShowLocal(LocalByName["qutub minar"])
    else if !Contains(lower, "book") && !Contains(lower, "time") && !Contains(lower, "offer") then SearchExternal
    else NoAction
  }

  /** The card shown is always for a monument whose id the message contains,
      and the server would detect a monument in the same message. */
  lemma LocalCardIsMentioned(lower: string)
    requires SendRoute(lower).ShowLocal?
    ensures Contains(lower, SendRoute(lower).site.id)
    ensures Server.DetectSite(lower).Some?
  {
    if Contains(lower, HawaMahal) {
      ContainsHead("hawa", " mahal");
      ContainsTrans(lower, HawaMahal, "hawa");
    }
  }

  /** The two monument orders differ: with both "taj" and "qutub" (and not
      "hawa mahal") the client shows the Taj Mahal card while the server
      answers about the Qutub Minar. */
  lemma SitePriorityDiffers(lower: string)
    requires Contains(lower, "taj") && Contains(lower, "qutub") && !Contains(lower, HawaMahal)
    ensures SendRoute(lower) == ShowLocal(LocalSites[0])
    ensures Server.DetectSite(lower) == Some(Server.Qutub)
  {
  }

  /** "hawa" alone is not enough for the client: it shows no card for it,
      while the server detects the Hawa Mahal. */
  lemma HawaNeedsFullName(lower: string)
    requires Contains(lower, "hawa") && !Contains(lower, HawaMahal)
    requires !Contains(lower, "taj") && !Contains(lower, "qutub")
    ensures !SendRoute(lower).ShowLocal?
    ensures Server.DetectSite(lower) == Some(Server.Hawa)
  {
  }

  // ---------------------------------------------------------------------
  // Chat state
  // ---------------------------------------------------------------------

  datatype Sender = User | Bot

  /** The fixed assistant lines; a confirmation names the site and the id. */
  datatype BotLine =
    | Welcome
    | GeneralTimings
    | CurrentOffers
    | Confirmed(siteName: string, bookingId: string)

  /** One entry of the chat log (the timestamp id is not modelled). */
  datatype Message =
    | Chat(from: Sender, text: string)
    | BotText(line: BotLine)
    | SiteCard(site: Site)
    | SiteOptions
    | BookingSummary

  /** The state of the `App` component that the handlers update. */
  class App {
    var messages: seq<Message>
    var input: string
    var selectedSite: Site
    var ticketType: TicketType
    var tickets: nat
    var bookingId: string

    /** The log still opens with the welcome line and the ticket count never
        drops below one. */
    ghost predicate Valid()
      reads this
    {
      tickets >= 1 && |messages| >= 1 && messages[0] == BotText(Welcome)
    }

    /** The initial state: the welcome line, the Taj Mahal selected, two
        Indian tickets, no booking id. */
    constructor ()
      ensures Valid()
      ensures messages == [BotText(Welcome)] && input == ""
      ensures selectedSite == LocalSites[0] && ticketType == Indian && tickets == 2
      ensures bookingId == ""
    {
      messages := [BotText(Welcome)];
      input := "";
      selectedSite := LocalSites[0];
      ticketType := Indian;
      tickets := 2;
      bookingId := "";
    }

    /** `pushMessage`: one message at the end, every earlier one untouched. */
    method PushMessage(m: Message)
      requires Valid()
      modifies this`messages
      ensures Valid()
      ensures messages == old(messages) + [m]
      ensures old(messages) <= messages
    {
      messages := messages + [m];
    }

    /** Typing into the input box. */
    method SetInput(value: string)
      requires Valid()
      modifies this`input
      ensures Valid()
      ensures input == value
    {
      input := value;
    }

    /** `handleSend`.  A blank input changes nothing (the box is not even
        cleared).  Otherwise the trimmed text is logged as the user's message,
        then the routing on its lower-cased form may select a local site and
        log its card; the input box is cleared.  `search` is the query of the
        encyclopedia search the handler starts, if any. */
    method Send() returns (search: Option<string>)
      requires Valid()
      modifies this`messages, this`selectedSite, this`input
      ensures Valid()
      ensures old(messages) <= messages
      ensures Trim(old(input)) == [] ==>
        && messages == old(messages) && selectedSite == old(selectedSite) && input == old(input)
        && search == None
      ensures Trim(old(input)) != [] ==>
        var text := Trim(old(input));
        var route := SendRoute(ToLower(text));
        && messages == old(messages) + [Chat(User, text)] + (if route.ShowLocal? then [SiteCard(route.site)] else [])
        && selectedSite == (if route.ShowLocal? then route.site else old(selectedSite))
        && input == ""
        && search == (if route.SearchExternal? then Some(text) else None)
    {
      var text := Trim(input);
      if text == [] {
        return None;
      }
      var lower := ToLower(text);
      PushMessage(Chat(User, text));
      var route := SendRoute(lower);
      search := None;
      match route {
        case ShowLocal(site) =>
          selectedSite := site;
          PushMessage(SiteCard(site));
        case SearchExternal =>
          search := Some(text);
        case NoAction =>
      }
      input := "";
    }

    /** `handleBookTickets`: the user's request, then the list of site
        options (logged after a short delay in the widget). */
    method BookTickets()
      requires Valid()
      modifies this`messages
      ensures Valid()
      ensures messages == old(messages) + [Chat(User, "I want to book tickets"), SiteOptions]
    {
      PushMessage(Chat(User, "I want to book tickets"));
      PushMessage(SiteOptions);
    }

    /** `handleSelectSiteOption`: an unknown id changes nothing; a known one
        selects that local site and logs the user's request and its card. */
    method SelectSiteOption(id: string)
      requires Valid()
      modifies this`messages, this`selectedSite
      ensures Valid()
      ensures FindSite(LocalSites, id).None? ==> messages == old(messages) && selectedSite == old(selectedSite)
      ensures FindSite(LocalSites, id).Some? ==>
        var site := FindSite(LocalSites, id).value;
        && selectedSite == site && site.id == id
        && messages == old(messages) + [Chat(User, "Show details for " + site.name), SiteCard(site)]
    {
      var found := FindSite(LocalSites, id);
      if found.None? {
        return;
      }
      var site := found.value;
      selectedSite := site;
      PushMessage(Chat(User, "Show details for " + site.name));
      PushMessage(SiteCard(site));
    }

    /** `handleBookNow`: logs the booking summary card. */
    method BookNow()
      requires Valid()
      modifies this`messages
      ensures Valid()
      ensures messages == old(messages) + [BookingSummary]
    {
      PushMessage(BookingSummary);
    }

    /** `handleConfirmBooking` with the generated id `newId`: records the id
        and logs the confirmation for the selected site. */
    method ConfirmBooking(newId: string)
      requires Valid()
      modifies this`messages, this`bookingId
      ensures Valid()
      ensures bookingId == newId
      ensures messages == old(messages) + [BotText(Confirmed(selectedSite.name, newId))]
    {
      bookingId := newId;
      PushMessage(BotText(Confirmed(selectedSite.name, newId)));
    }

    /** `handleQuickPill`: site options, the timings line or the offers line;
        any other kind changes nothing. */
    method QuickPill(kind: string)
      requires Valid()
      modifies this`messages
      ensures Valid()
      ensures messages == old(messages) +
        (if kind == "popular" then [SiteOptions]
         else if kind == "timings" then [BotText(GeneralTimings)]
         else if kind == "offers" then [BotText(CurrentOffers)]
         else [])
    {
      if kind == "popular" {
        PushMessage(SiteOptions);
      } else if kind == "timings" {
        PushMessage(BotText(GeneralTimings));
      } else if kind == "offers" {
        PushMessage(BotText(CurrentOffers));
      }
    }

    /** The visitor-type buttons of the booking summary. */
    method SetTicketType(t: TicketType)
      requires Valid()
      modifies this`ticketType
      ensures Valid()
      ensures ticketType == t
    {
      ticketType := t;
    }

    /** The "-" button: one ticket fewer, but never fewer than one. */
    method DecrementTickets()
      requires Valid()
      modifies this`tickets
      ensures Valid()
      ensures tickets == if old(tickets) > 1 then old(tickets) - 1 else 1
    {
      tickets := if tickets - 1 > 1 then tickets - 1 else 1;
    }

    /** The "+" button: exactly one ticket more. */
    method IncrementTickets()
      requires Valid()
      modifies this`tickets
      ensures Valid()
      ensures tickets == old(tickets) + 1
    {
      tickets := tickets + 1;
    }

    /** The amount the booking summary shows for the current selection. */
    function Payable(weekend: bool): (r: int)
      reads this
      requires Valid()
      ensures 0 <= r <= BaseTotal(selectedSite, ticketType, tickets)
    {
      FinalTotal(BaseTotal(selectedSite, ticketType, tickets), tickets, weekend)
    }
  }
}
