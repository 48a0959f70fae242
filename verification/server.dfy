/** The chat endpoint of the API server: which monument a message mentions,
    whether today is a weekend day, and which canned reply `POST /chat`
    sends back for a message. */
module Server {
  import opened Text

  // ---------------------------------------------------------------------
  // Monuments
  // ---------------------------------------------------------------------

  /** The three monuments the server recognises, in the order it checks them. */
  datatype SiteId = Qutub | Taj | Hawa

  /** The lower-case keyword that identifies each monument in a message. */
  function Keyword(s: SiteId): string
  {
    match s
    case Qutub => "qutub"
    case Taj => "taj"
    case Hawa => "hawa"
  }

  /** Position of a monument in the detection order (0 is checked first). */
  function Rank(s: SiteId): nat
  {
    match s
    case Qutub => 0
    case Taj => 1
    case Hawa => 2
  }

  /** The display name a reply uses for a monument.  Sent back as a message,
      the name is detected as the same monument. */
  function DisplayName(s: SiteId): (r: string)
    ensures DetectSite(ToLower(r)) == Some(s)
  {
    match s
    case Qutub => QutubMinarDetected(); "Qutub Minar"
    case Taj => TajMahalDetected(); "Taj Mahal"
    case Hawa => HawaMahalDetected(); "Hawa Mahal"
  }

  lemma QutubMinarDetected()
    ensures DetectSite(ToLower("Qutub Minar")) == Some(Qutub)
  {
    var lower := ToLower("Qutub Minar");
    LowerName("Qutub Minar", "qutub", " minar");
  }

  lemma TajMahalDetected()
    ensures DetectSite(ToLower("Taj Mahal")) == Some(Taj)
  {
    var lower := ToLower("Taj Mahal");
    LowerName("Taj Mahal", "taj", " mahal");
    assert lower[0] == 't' && lower[1] == 'a' && lower[2] == 'j' && lower[3] == ' ' && lower[4] == 'm';
    FirstCharAbsent(lower, "qutub");
  }

  lemma HawaMahalDetected()
    ensures DetectSite(ToLower("Hawa Mahal")) == Some(Hawa)
  {
    var lower := ToLower("Hawa Mahal");
    LowerName("Hawa Mahal", "hawa", " mahal");
    assert lower[0] == 'h' && lower[1] == 'a' && lower[2] == 'w' && lower[3] == 'a' && lower[4] == ' ';
    assert lower[5] == 'm' && lower[6] == 'a' && lower[7] == 'h';
    FirstCharAbsent(lower, "qutub");
    FirstCharAbsent(lower, "taj");
  }

  /** A display name lower-cases to its keyword followed by the rest. */
  lemma LowerName(name: string, keyword: string, rest: string)
    requires |name| == |keyword| + |rest|
    requires forall i :: 0 <= i < |keyword| ==> LowerChar(name[i]) == keyword[i]
    requires forall i :: 0 <= i < |rest| ==> LowerChar(name[|keyword| + i]) == rest[i]
    ensures ToLower(name) == keyword + rest
    ensures Contains(ToLower(name), keyword)
  {
    assert ToLower(name) == keyword + rest;
    ContainsHead(keyword, rest);
  }

  /** `detectSite`: the first monument, in detection order, whose keyword the
      lower-cased text contains; `None` when it contains none of them. */
  function DetectSite(lower: string): (r: Option<SiteId>)
    ensures r.Some? ==> Contains(lower, Keyword(r.value))
    ensures r.Some? ==> forall s :: Rank(s) < Rank(r.value) ==> !Contains(lower, Keyword(s))
    ensures r.None? <==> forall s :: !Contains(lower, Keyword(s))
  {
    if Contains(lower, "qutub") then Some(Qutub)
    else if Contains(lower, "taj") then Some(Taj)
    else if Contains(lower, "hawa") then Some(Hawa)
    else None
  }

  // ---------------------------------------------------------------------
  // Weekend
  // ---------------------------------------------------------------------

  datatype Weekday = Sunday | Monday | Tuesday | Wednesday | Thursday | Friday | Saturday

  /** The day that `Date.prototype.getDay` denotes by an index 0..6. */
  function DayOf(index: int): Weekday
    requires 0 <= index <= 6
  {
    [Sunday, Monday, Tuesday, Wednesday, Thursday, Friday, Saturday][index]
  }

  /** `isWeekend`: the day with this `getDay` index is a Saturday or a Sunday. */
  function IsWeekend(day: int): (r: bool)
    requires 0 <= day <= 6
    ensures r <==> DayOf(day) == Saturday || DayOf(day) == Sunday
  {
    day == 0 || day == 6
  }

  // ---------------------------------------------------------------------
  // Reply selection
  // ---------------------------------------------------------------------

  const Combo := "combo"
  const WeekendCombo := "weekend " + Combo
  const Book := "book"

  /** The canned replies; the text of each is fixed apart from the monument
      it names or the message it echoes. */
  datatype Template =
    | ComboLockedIn(site: SiteId)        // "Weekend Combo locked in for <site>!"
    | ComboWeekdayForSite(site: SiteId)  // "only valid on Saturdays and Sundays ... <site> at regular prices"
    | ComboChooseSite                    // "You're going for the Weekend Combo ... Which monument ...?"
    | ComboWeekendOnly                   // "only available on Saturdays and Sundays ... Family Pack ... Student Discount"
    | SiteDetails(site: SiteId)          // "Here are the details for <site>."
    | BookingPrompt                      // "Got it, you want to book tickets. Which site ...?"
    | Timings                            // "General timings: ..."
    | PopularSites                       // "Popular heritage sites: ..."
    | Offers                             // "Current special offers: ..."
    | Echo(text: string)                 // "You said: \"<text>\". Ask about sites ..."

  /** The response of `POST /chat`: a reply (200) or "Text is required" (400). */
  datatype ChatResult = Ok(template: Template) | TextRequired

  predicate MentionsTimings(lower: string)
  {
    Contains(lower, "time") || Contains(lower, "timing") || Contains(lower, "open") || Contains(lower, "hours")
  }

  predicate MentionsPopular(lower: string)
  {
    Contains(lower, "popular") || Contains(lower, "sites")
  }

  predicate MentionsOffers(lower: string)
  {
    Contains(lower, "offer") || Contains(lower, "discount") || Contains(lower, "deal")
  }

  /** The reply chain of `POST /chat` for a non-empty message, checked in a
      fixed order on the lower-cased text; only the fallback uses the text
      as the user wrote it. */
  function ReplyFor(text: string, weekend: bool): (r: Template)
    ensures (r.ComboLockedIn? || r.ComboWeekdayForSite? || r.SiteDetails?) ==> Some(r.site) == DetectSite(ToLower(text))
    ensures (r.ComboLockedIn? || r.ComboChooseSite?) ==> weekend
    ensures (r.ComboWeekdayForSite? || r.ComboWeekendOnly?) ==> !weekend
    ensures r.Echo? ==> r.text == text
  {
    var lower := ToLower(text);
    var site := DetectSite(lower);
    if Contains(lower, WeekendCombo) && site.Some? then
      (if !weekend then ComboWeekdayForSite(site.value) else ComboLockedIn(site.value))
    else if Contains(lower, WeekendCombo) || Contains(lower, Combo) then
      (if !weekend then ComboWeekendOnly else ComboChooseSite)
    else if site.Some? && !Contains(lower, Book) then
      SiteDetails(site.value)
    else if Contains(lower, Book) then
      BookingPrompt
    else if MentionsTimings(lower) then
      Timings
    else if MentionsPopular(lower) then
      PopularSites
    else if MentionsOffers(lower) then
      Offers
    else
      Echo(text)
  }

  /** `POST /chat`: `text` is `None` when the body has no `text` field.  A
      missing or empty text is refused; any other text, white space alone
      included, gets a reply. */
  function Classify(text: Option<string>, weekend: bool): (r: ChatResult)
    ensures r == TextRequired <==> text == None || text == Some("")
    ensures r.Ok? ==> r.template == ReplyFor(text.value, weekend)
  {
    if text == None || text.value == "" then TextRequired
    else Ok(ReplyFor(text.value, weekend))
  }

  // ---------------------------------------------------------------------
  // Properties of the reply chain
  // ---------------------------------------------------------------------

  /** A message with "weekend combo" also has "combo". */
  lemma WeekendComboHasCombo(lower: string)
    requires Contains(lower, WeekendCombo)
    ensures Contains(lower, Combo)
  {
    ContainsTail("weekend ", Combo);
    ContainsTrans(lower, WeekendCombo, Combo);
  }

  /** Branch 1: "weekend combo" together with a detected monument, and only
      that, gives the site combo reply; on a weekend it confirms the combo for
      the detected monument, on a weekday it refuses it for that monument. */
  lemma ComboForSite(text: string, weekend: bool)
    ensures var lower := ToLower(text); var r := ReplyFor(text, weekend);
      (r.ComboLockedIn? || r.ComboWeekdayForSite?)
        <==> Contains(lower, WeekendCombo) && DetectSite(lower).Some?
    ensures var lower := ToLower(text); var site := DetectSite(lower);
      Contains(lower, WeekendCombo) && site.Some? ==>
        ReplyFor(text, weekend) == (if weekend then ComboLockedIn(site.value) else ComboWeekdayForSite(site.value))
  {
  }

  /** Branch 2: every other message containing "combo" gets the generic combo
      reply, whatever booking, timing or offer words it also holds. */
  lemma GenericCombo(text: string, weekend: bool)
    ensures var lower := ToLower(text); var r := ReplyFor(text, weekend);
      (r in {ComboChooseSite, ComboWeekendOnly})
        <==> Contains(lower, Combo) && !(Contains(lower, WeekendCombo) && DetectSite(lower).Some?)
    ensures ReplyFor(text, weekend) == ComboChooseSite ==> weekend
    ensures ReplyFor(text, weekend) == ComboWeekendOnly ==> !weekend
  {
    var lower := ToLower(text);
    if Contains(lower, WeekendCombo) {
      WeekendComboHasCombo(lower);
    }
  }

  /** Branch 3: the details of a monument are shown exactly when it is the
      detected one and the message has neither "combo" nor "book". */
  lemma SiteDetailsIff(text: string, weekend: bool, s: SiteId)
    ensures var lower := ToLower(text);
      (ReplyFor(text, weekend) == SiteDetails(s))
        <==> DetectSite(lower) == Some(s) && !Contains(lower, Combo) && !Contains(lower, Book)
  {
    var lower := ToLower(text);
    if Contains(lower, WeekendCombo) {
      WeekendComboHasCombo(lower);
    }
  }

  /** Branch 4: the booking prompt answers every message with "book" and
      without "combo", whether or not it names a monument. */
  lemma BookingPromptIff(text: string, weekend: bool)
    ensures var lower := ToLower(text);
      ReplyFor(text, weekend) == BookingPrompt <==> !Contains(lower, Combo) && Contains(lower, Book)
  {
    var lower := ToLower(text);
    if Contains(lower, WeekendCombo) {
      WeekendComboHasCombo(lower);
    }
  }

  /** Branches 5 to 7 and the fallback: reached only when no monument, no
      "combo" and no "book" occur, then timings before popular sites before
      offers, and otherwise the message is echoed exactly as written. */
  lemma LaterBranches(text: string, weekend: bool)
    ensures var lower := ToLower(text);
      var plain := !Contains(lower, Combo) && !Contains(lower, Book) && DetectSite(lower).None?;
      && (ReplyFor(text, weekend) == Timings <==> plain && MentionsTimings(lower))
      && (ReplyFor(text, weekend) == PopularSites <==> plain && !MentionsTimings(lower) && MentionsPopular(lower))
      && ((ReplyFor(text, weekend) == Offers)
            <==> plain && !MentionsTimings(lower) && !MentionsPopular(lower) && MentionsOffers(lower))
      && ((ReplyFor(text, weekend).Echo?)
            <==> plain && !MentionsTimings(lower) && !MentionsPopular(lower) && !MentionsOffers(lower))
    ensures ReplyFor(text, weekend).Echo? ==> ReplyFor(text, weekend).text == text
  {
    var lower := ToLower(text);
    if Contains(lower, WeekendCombo) {
      WeekendComboHasCombo(lower);
    }
  }

  /** The weekend flag changes the reply if and only if the message contains
      "combo". */
  lemma WeekendOnlyMattersForCombo(text: string)
    ensures ReplyFor(text, true) != ReplyFor(text, false) <==> Contains(ToLower(text), Combo)
  {
    var lower := ToLower(text);
    if Contains(lower, WeekendCombo) {
      WeekendComboHasCombo(lower);
    }
  }

  /** Two replies from the same branch: equal, or both echoes. */
  predicate SameTemplate(a: ChatResult, b: ChatResult)
  {
    a == b || (a.Ok? && b.Ok? && a.template.Echo? && b.template.Echo?)
  }

  /** Keyword matching ignores case: messages that agree once lower-cased
      get the same reply, apart from the words an echo repeats. */
  lemma CaseInsensitive(a: string, b: string, weekend: bool)
    requires ToLower(a) == ToLower(b)
    ensures SameTemplate(Classify(Some(a), weekend), Classify(Some(b), weekend))
  {
  }

  /** In particular, lower-casing a message beforehand does not change which
      reply it gets. */
  lemma LowerCasedMessage(text: string, weekend: bool)
    ensures SameTemplate(Classify(Some(ToLower(text)), weekend), Classify(Some(text), weekend))
  {
    ToLowerIdempotent(text);
    CaseInsensitive(ToLower(text), text, weekend);
  }

  /** No keyword occurs in a text made of white space only. */
  lemma NoKeywordInSpace(s: string, p: string)
    requires AllSpace(s) && p != [] && !IsSpace(p[0])
    ensures !Contains(s, p)
  {
    if Contains(s, p) {
      ContainsChar(s, p, 0);
      assert false;
    }
  }

  /** There is no trimming on the server: a message of white space alone is
      accepted and echoed back. */
  lemma WhitespaceEchoed(text: string, weekend: bool)
    requires text != [] && AllSpace(text)
    ensures Classify(Some(text), weekend) == Ok(Echo(text))
  {
    assert ToLower(text) == text;
    NoKeywordInSpace(text, Combo);
    NoKeywordInSpace(text, WeekendCombo);
    NoKeywordInSpace(text, Book);
    NoKeywordInSpace(text, "qutub");
    NoKeywordInSpace(text, "taj");
    NoKeywordInSpace(text, "hawa");
    NoKeywordInSpace(text, "time");
    NoKeywordInSpace(text, "timing");
    NoKeywordInSpace(text, "open");
    NoKeywordInSpace(text, "hours");
    NoKeywordInSpace(text, "popular");
    NoKeywordInSpace(text, "sites");
    NoKeywordInSpace(text, "offer");
    NoKeywordInSpace(text, "discount");
    NoKeywordInSpace(text, "deal");
  }
}
