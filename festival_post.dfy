/**
 * `POST /api/festival-post`: a festival greeting image for a company.
 * Required fields are checked first; a theme and a greeting are picked from
 * the festival name; the greeting prompt is built from the company details;
 * the retry controller calls the provider; the final error is classified.
 */
module FestivalPost {
  import opened Wrappers
  import opened Text
  import opened FormData
  import opened Retry
  import opened FestivalPostText

  /** The fields the route reads from the form. `logo` is whatever the `logo`
      entry holds; only its presence matters here, since the route never
      sends it to the provider. */
  datatype Request = Request(
    companyName: string, festivalName: string, logo: Option<Value>,
    contactNumber: string, email: string, website: string, address: string,
    quote: string, festivalDate: string)

  datatype CompanyDetails = CompanyDetails(
    companyName: string, contactNumber: string, email: string, website: string,
    address: string, quote: string, festivalName: string, festivalDate: string)

  datatype Response =
    | Created(message: string, imageUrl: string, companyDetails: CompanyDetails, usedModel: string)
    | Refused(status: nat, error: string)

  function ReadForm(form: seq<Entry>): Request {
    Request(
      TextField(form, "company_name"), TextField(form, "festival_name"), Get(form, "logo"),
      TextField(form, "contact_number"), TextField(form, "email"), TextField(form, "website"),
      TextField(form, "address"), TextField(form, "quote"), TextField(form, "festival_date"))
  }

  predicate HasRequiredFields(r: Request) {
    r.companyName != "" && r.festivalName != "" && Truthy(r.logo)
  }

  /** The `logo` entry is a file, whose bytes `arrayBuffer` can read. */
  predicate LogoIsFile(r: Request) {
    r.logo.Some? && r.logo.value.Blob?
  }

  function DetailsOf(r: Request): CompanyDetails {
    CompanyDetails(r.companyName, r.contactNumber, r.email, r.website, r.address, r.quote,
                   r.festivalName, r.festivalDate)
  }

  // ---------------------------------------------------------------------------
  // Theme and greeting

  /** The festivals with a theme of their own, in the order they are tested,
      and every other festival. */
  datatype Theme = Diwali | Holi | RepublicDay | IndependenceDay | OtherFestival

  function ThemeRank(t: Theme): nat {
    match t
    case Diwali => 0
    case Holi => 1
    case RepublicDay => 2
    case IndependenceDay => 3
    case OtherFestival => 4
  }

  /** The lower-case text whose presence in the festival name selects a theme. */
  function Keyword(t: Theme): string
    requires t != OtherFestival
  {
    match t
    case Diwali => "diwali"
    case Holi => "holi"
    case RepublicDay => "republic day"
    case IndependenceDay => "independence day"
  }

  /** The theme of a festival: the first keyword contained in its lower-cased name. */
  function ThemeOf(festivalName: string): Theme {
    var name := Lower(festivalName);
    if Includes(name, "diwali") then Diwali
    else if Includes(name, "holi") then Holi
    else if Includes(name, "republic day") then RepublicDay
    else if Includes(name, "independence day") then IndependenceDay
    else OtherFestival
  }

  /** `festivalTheme` and `festivalGreeting`. */
  datatype Style = Style(theme: string, greeting: string)

  function StyleOf(w: FestivalWording, festivalName: string): Style {
    ThemeStyle(w, ThemeOf(festivalName), festivalName)
  }

  function ThemeStyle(w: FestivalWording, t: Theme, festivalName: string): Style {
    match t
    case Diwali => Style(w.diwaliTheme, "Happy Diwali")
    case Holi => Style(w.holiTheme, "Happy Holi")
    case RepublicDay => Style(w.republicDayTheme, "Happy Republic Day")
    case IndependenceDay => Style(w.independenceDayTheme, "Happy Independence Day")
    case OtherFestival => Style(festivalName + w.otherTheme, "Happy " + festivalName)
  }

  /** The theme branch of `generateFestivalPrompt`: the name is lower-cased
      and tested against each keyword in turn. */
  method SelectStyle(w: FestivalWording, festivalName: string) returns (festivalTheme: string, festivalGreeting: string)
    ensures Style(festivalTheme, festivalGreeting) == StyleOf(w, festivalName)
  {
    var name := Lower(festivalName);
    if Includes(name, "diwali") {
      festivalTheme := w.diwaliTheme;
      festivalGreeting := "Happy Diwali";
    } else if Includes(name, "holi") {
      festivalTheme := w.holiTheme;
      festivalGreeting := "Happy Holi";
    } else if Includes(name, "republic day") {
      festivalTheme := w.republicDayTheme;
      festivalGreeting := "Happy Republic Day";
    } else if Includes(name, "independence day") {
      festivalTheme := w.independenceDayTheme;
      festivalGreeting := "Happy Independence Day";
    } else {
      festivalTheme := festivalName + w.otherTheme;
      festivalGreeting := "Happy " + festivalName;
    }
  }

  // ---------------------------------------------------------------------------
  // The greeting prompt

  /** The instructions of the greeting prompt, in the order the template has them. */
  datatype FestivalPart =
    Base | FestivalDate | Quote | ContactHeader | ContactNumber | Email | Website | Address | Technical

  function Rank(k: FestivalPart): nat {
    match k
    case Base => 0
    case FestivalDate => 1
    case Quote => 2
    case ContactHeader => 3
    case ContactNumber => 4
    case Email => 5
    case Website => 6
    case Address => 7
    case Technical => 8
  }

  /** No instruction appears twice and they follow the template's order. */
  predicate InOrder(parts: seq<Segment<FestivalPart>>) {
    forall i, j :: 0 <= i < j < |parts| ==> Rank(parts[i].kind) < Rank(parts[j].kind)
  }

  /** The base template up to the focal-point line. */
  function BaseText(w: FestivalWording, d: CompanyDetails, s: Style): string {
    w.title + d.festivalName + w.designFor + d.festivalName + w.symbols + s.theme
    + w.positioning + d.companyName + w.greetingLead + s.greeting + w.focalPoint
  }

  function DateText(festivalDate: string): string {
    "\n   - Festival date \"" + festivalDate + "\" should be displayed prominently"
  }

  function QuoteText(quote: string): string {
    "\n   - Motivational quote \"" + quote + "\" should be placed in an elegant style"
  }

  function ContactNumberText(contactNumber: string): string {
    "\n   - Contact number \"" + contactNumber + "\" must be displayed clearly"
  }

  function EmailText(email: string): string {
    "\n   - Email \"" + email + "\" must be displayed clearly"
  }

  function WebsiteText(website: string): string {
    "\n   - Website \"" + website + "\" must be displayed clearly"
  }

  function AddressText(address: string): string {
    "\n   - Address \"" + address + "\" must be at the VERY BOTTOM in a single horizontal line"
  }

  /** The base template with the optional date and quote lines, for the style `s`. */
  function HeadParts(w: FestivalWording, d: CompanyDetails, s: Style): seq<Segment<FestivalPart>> {
    [Segment(Base, BaseText(w, d, s))]
    + Optional(FestivalDate, d.festivalDate, DateText(d.festivalDate))
    + Optional(Quote, d.quote, QuoteText(d.quote))
  }

  /** The contact-information section: its header and the lines for the
      contact details that are given. */
  function ContactParts(w: FestivalWording, d: CompanyDetails): seq<Segment<FestivalPart>> {
    [Segment(ContactHeader, w.contactHeader)]
    + Optional(ContactNumber, d.contactNumber, ContactNumberText(d.contactNumber))
    + Optional(Email, d.email, EmailText(d.email))
    + Optional(Website, d.website, WebsiteText(d.website))
    + Optional(Address, d.address, AddressText(d.address))
  }

  /** The greeting prompt, segment by segment, for the style `s`. */
  function FestivalParts(w: FestivalWording, d: CompanyDetails, s: Style): seq<Segment<FestivalPart>> {
    HeadParts(w, d, s) + ContactParts(w, d) + [Segment(Technical, w.technical)]
  }

  /** `generateFestivalPrompt` with the wording `w`: the style is selected,
      then the prompt grows by `+=` as in the source. */
  method GenerateFestivalPrompt(w: FestivalWording, d: CompanyDetails) returns (prompt: string)
    ensures prompt == Render(FestivalParts(w, d, StyleOf(w, d.festivalName)))
  {
    var festivalTheme, festivalGreeting := SelectStyle(w, d.festivalName);
    prompt := BaseWithQuote(w, d, festivalTheme, festivalGreeting);
    var contact := ContactSection(w, d);
    prompt := prompt + contact;
    prompt := prompt + w.technical;
    ghost var head := HeadParts(w, d, StyleOf(w, d.festivalName));
    RenderConcat(head, ContactParts(w, d));
    RenderAppend(head + ContactParts(w, d), Segment(Technical, w.technical));
  }

  /** The head of the prompt as one string. */
  function HeadText(w: FestivalWording, d: CompanyDetails, s: Style): string {
    BaseText(w, d, s) + IfGiven(d.festivalDate, DateText(d.festivalDate)) + IfGiven(d.quote, QuoteText(d.quote))
  }

  lemma HeadRendering(w: FestivalWording, d: CompanyDetails, s: Style)
    ensures Render(HeadParts(w, d, s)) == HeadText(w, d, s)
  {
    var p0 := [Segment(Base, BaseText(w, d, s))];
    assert Render(p0) == BaseText(w, d, s) by { RenderAppend([], p0[0]); assert [] + p0 == p0; }
    var p1 := p0 + Optional(FestivalDate, d.festivalDate, DateText(d.festivalDate));
    var p2 := p1 + Optional(Quote, d.quote, QuoteText(d.quote));
    RenderAppendOptional(p0, FestivalDate, d.festivalDate, DateText(d.festivalDate));
    RenderAppendOptional(p1, Quote, d.quote, QuoteText(d.quote));
    assert HeadParts(w, d, s) == p2;
  }

  /** The base template, the date element and the quote line. */
  method BaseWithQuote(w: FestivalWording, d: CompanyDetails, festivalTheme: string, festivalGreeting: string)
    returns (prompt: string)
    ensures prompt == Render(HeadParts(w, d, Style(festivalTheme, festivalGreeting)))
  {
    var dateElement := if d.festivalDate != "" then DateText(d.festivalDate) else "";
    prompt := w.title + d.festivalName + w.designFor + d.festivalName + w.symbols + festivalTheme
      + w.positioning + d.companyName + w.greetingLead + festivalGreeting + w.focalPoint + dateElement;
    assert prompt == BaseText(w, d, Style(festivalTheme, festivalGreeting)) + IfGiven(d.festivalDate, DateText(d.festivalDate));
    if d.quote != "" {
      prompt := prompt + QuoteText(d.quote);
    }
    HeadRendering(w, d, Style(festivalTheme, festivalGreeting));
  }

  /** The contact-information section as one string. */
  function ContactText(w: FestivalWording, d: CompanyDetails): string {
    w.contactHeader
    + IfGiven(d.contactNumber, ContactNumberText(d.contactNumber))
    + IfGiven(d.email, EmailText(d.email))
    + IfGiven(d.website, WebsiteText(d.website))
    + IfGiven(d.address, AddressText(d.address))
  }

  lemma ContactRendering(w: FestivalWording, d: CompanyDetails)
    ensures Render(ContactParts(w, d)) == ContactText(w, d)
  {
    var h := w.contactHeader;
    var p0 := [Segment(ContactHeader, h)];
    assert Render(p0) == h by { RenderAppend([], p0[0]); assert [] + p0 == p0; }
    var p1 := p0 + Optional(ContactNumber, d.contactNumber, ContactNumberText(d.contactNumber));
    var p2 := p1 + Optional(Email, d.email, EmailText(d.email));
    var p3 := p2 + Optional(Website, d.website, WebsiteText(d.website));
    var p4 := p3 + Optional(Address, d.address, AddressText(d.address));
    RenderAppendOptional(p0, ContactNumber, d.contactNumber, ContactNumberText(d.contactNumber));
    RenderAppendOptional(p1, Email, d.email, EmailText(d.email));
    RenderAppendOptional(p2, Website, d.website, WebsiteText(d.website));
    RenderAppendOptional(p3, Address, d.address, AddressText(d.address));
    assert ContactParts(w, d) == p4;
  }

  /** The contact-information block, appended line by line. */
  method ContactSection(w: FestivalWording, d: CompanyDetails) returns (section: string)
    ensures section == Render(ContactParts(w, d))
  {
    section := w.contactHeader;
    if d.contactNumber != "" {
      section := section + ContactNumberText(d.contactNumber);
    }
    assert section == w.contactHeader + IfGiven(d.contactNumber, ContactNumberText(d.contactNumber));
    if d.email != "" {
      section := section + EmailText(d.email);
    }
    assert section == w.contactHeader + IfGiven(d.contactNumber, ContactNumberText(d.contactNumber)) + IfGiven(d.email, EmailText(d.email));
    if d.website != "" {
      section := section + WebsiteText(d.website);
    }
    assert section == w.contactHeader + IfGiven(d.contactNumber, ContactNumberText(d.contactNumber)) + IfGiven(d.email, EmailText(d.email)) + IfGiven(d.website, WebsiteText(d.website));
    if d.address != "" {
      section := section + AddressText(d.address);
    }
    ContactRendering(w, d);
  }

  // ---------------------------------------------------------------------------
  // The fallback prompt

  datatype FallbackPart = Elements | FallbackQuote | FallbackContactNumber | FallbackEmail
                        | FallbackWebsite | FallbackAddress | LineBreak | Closing

  function ElementsText(w: FestivalWording, d: CompanyDetails): string {
    w.fallbackIntro + d.festivalName + w.fallbackCompany + d.companyName + w.fallbackGreeting
    + d.festivalName + w.fallbackFont
  }

  function FallbackQuoteText(quote: string): string {
    "- Include motivational quote: \"" + quote + "\" in an elegant style"
  }

  function FallbackContactNumberText(contactNumber: string): string {
    "- Add contact number: \"" + contactNumber + "\" in a small, professional font"
  }

  function FallbackEmailText(email: string): string {
    "- Include email: \"" + email + "\" in a small, professional font"
  }

  function FallbackWebsiteText(website: string): string {
    "- Add website: \"" + website + "\" in a small, professional font"
  }

  function FallbackAddressText(address: string): string {
    "- Include address: \"" + address + "\" in small text at the bottom"
  }

  /** The template of `generateFallbackPrompt`, segment by segment: an empty
      optional field leaves an empty line, not an instruction. */
  function FallbackParts(w: FestivalWording, d: CompanyDetails): seq<Segment<FallbackPart>> {
    [Segment(Elements, ElementsText(w, d))]
    + Optional(FallbackQuote, d.quote, FallbackQuoteText(d.quote))
    + [Segment(LineBreak, "\n")]
    + Optional(FallbackContactNumber, d.contactNumber, FallbackContactNumberText(d.contactNumber))
    + [Segment(LineBreak, "\n")]
    + Optional(FallbackEmail, d.email, FallbackEmailText(d.email))
    + [Segment(LineBreak, "\n")]
    + Optional(FallbackWebsite, d.website, FallbackWebsiteText(d.website))
    + [Segment(LineBreak, "\n")]
    + Optional(FallbackAddress, d.address, FallbackAddressText(d.address))
    + [Segment(Closing, w.fallbackClosing)]
  }

  function FallbackPrompt(w: FestivalWording, d: CompanyDetails): string {
    Render(FallbackParts(w, d))
  }

  // ---------------------------------------------------------------------------
  // The route

  /** The two prompts the route builds for a request: the greeting prompt
      and the fallback. */
  function PromptsFor(w: FestivalWording, r: Request): Prompts {
    var d := DetailsOf(r);
    Prompts(Render(FestivalParts(w, d, StyleOf(w, d.festivalName))), FallbackPrompt(w, d))
  }

  /** The `catch` block of the route. */
  function ErrorResponse(message: string): Response {
    match Classify(message)
    case ModerationRejected => Refused(400, ModerationErrorMessage)
    case ConfigurationError => Refused(500, ConfigurationErrorMessage)
    case GenericFailure => Refused(500, GenericErrorMessage)
  }

  /** What the route answers once the loop has ended: the URL of the first
      image, or the classified error when there is none or the loop rethrew. */
  function Outcome(d: CompanyDetails, end: LoopEnd): Response {
    match end
    case Rethrown(m) => ErrorResponse(m)
    case Returned(url) =>
      if url.Some? && url.value != "" then Created(SuccessMessage, url.value, d, UsedModel)
      else ErrorResponse(NoImageMessage)
  }

  /** The route's answer to the request read from the form, given the
      prompts built for it. A non-empty text under `logo` passes validation,
      but reading its bytes throws before the loop starts. */
  function Handle(r: Request, prompts: Prompts, apiKeyPresent: bool, provider: (nat, string) -> Reply): Response {
    if !HasRequiredFields(r) then Refused(400, RequiredFieldsError)
    else if !LogoIsFile(r) then ErrorResponse(NoBufferMessage)
    else Outcome(DetailsOf(r), Generate(ContextFor(prompts, apiKeyPresent, provider)).end)
  }

  /** `POST`: validation, the prompts, the retry loop, the check for a URL and
      the classification of the error. The route itself runs with the wording
      `RouteWording`; `attempts` and `waits` are the attempts made and the delays
      waited. */
  method Post(w: FestivalWording, form: seq<Entry>, apiKeyPresent: bool, provider: (nat, string) -> Reply)
    returns (response: Response, attempts: seq<Attempt>, waits: seq<nat>)
    ensures response == Handle(ReadForm(form), PromptsFor(w, ReadForm(form)), apiKeyPresent, provider)
    ensures !HasRequiredFields(ReadForm(form)) || !LogoIsFile(ReadForm(form)) ==> attempts == [] && waits == []
    ensures HasRequiredFields(ReadForm(form)) && LogoIsFile(ReadForm(form)) ==>
      var run := Generate(ContextFor(PromptsFor(w, ReadForm(form)), apiKeyPresent, provider));
      attempts == run.attempts && waits == run.waits
  {
    var r := ReadForm(form);
    if r.companyName == "" || r.festivalName == "" || !Truthy(r.logo) {
      return Refused(400, RequiredFieldsError), [], [];
    }
    var details := DetailsOf(r);
    var festivalPrompt := GenerateFestivalPrompt(w, details);
    if !r.logo.value.Blob? {
      return ErrorResponse(NoBufferMessage), [], [];
    }
    response, attempts, waits := GenerateImage(details, Prompts(festivalPrompt, FallbackPrompt(w, details)), apiKeyPresent, provider);
  }

  /** The `try` block of `POST` once the prompts are built: the retry loop,
      the check for a URL and the classification of the error. */
  method GenerateImage(details: CompanyDetails, prompts: Prompts, apiKeyPresent: bool, provider: (nat, string) -> Reply)
    returns (response: Response, attempts: seq<Attempt>, waits: seq<nat>)
    ensures var run := Generate(ContextFor(prompts, apiKeyPresent, provider));
      response == Outcome(details, run.end) && attempts == run.attempts && waits == run.waits
  {
    var run := CallWithRetry(ContextFor(prompts, apiKeyPresent, provider));
    attempts, waits := run.attempts, run.waits;
    match run.end {
      case Rethrown(m) =>
        response := ErrorResponse(m);
      case Returned(url) =>
        if url.None? || url.value == "" {
          response := ErrorResponse(NoImageMessage);
        } else {
          response := Created(SuccessMessage, url.value, details, UsedModel);
        }
    }
  }

  // ---------------------------------------------------------------------------
  // Properties of the theme selection

  /** A festival gets a named theme exactly when its lower-cased name
      contains that theme's keyword and none of the keywords tested before it. */
  lemma ThemeFirstMatch(festivalName: string, t: Theme)
    requires t != OtherFestival
    ensures ThemeOf(festivalName) == t <==>
      Includes(Lower(festivalName), Keyword(t))
      && forall u :: u != OtherFestival && ThemeRank(u) < ThemeRank(t) ==> !Includes(Lower(festivalName), Keyword(u))
  {
    var name := Lower(festivalName);
    forall u | u != OtherFestival && ThemeRank(u) < ThemeRank(t) && ThemeOf(festivalName) == t
      ensures !Includes(name, Keyword(u))
    {
      match u
      case Diwali =>
      case Holi =>
      case RepublicDay =>
      case IndependenceDay =>
    }
    var earlier := [Keyword(Diwali), Keyword(Holi), Keyword(RepublicDay)];
    assert ThemeRank(Diwali) == 0 && ThemeRank(Holi) == 1 && ThemeRank(RepublicDay) == 2;
  }

  /** Every other festival gets the generic theme and `Happy <name>`. */
  lemma OtherFestivalStyle(w: FestivalWording, festivalName: string)
    ensures ThemeOf(festivalName) == OtherFestival <==>
      forall u :: u != OtherFestival ==> !Includes(Lower(festivalName), Keyword(u))
    ensures ThemeOf(festivalName) == OtherFestival ==>
      StyleOf(w, festivalName).greeting == "Happy " + festivalName
      && Includes(StyleOf(w, festivalName).theme, festivalName)
  {
    var name := Lower(festivalName);
    forall u | u != OtherFestival && ThemeOf(festivalName) == OtherFestival
      ensures !Includes(name, Keyword(u))
    {
      match u
      case Diwali =>
      case Holi =>
      case RepublicDay =>
      case IndependenceDay =>
    }
    var all := [Keyword(Diwali), Keyword(Holi), Keyword(RepublicDay), Keyword(IndependenceDay)];
    if ThemeOf(festivalName) == OtherFestival {
      IncludesPart("", festivalName, w.otherTheme);
      assert "" + festivalName + w.otherTheme == festivalName + w.otherTheme;
    }
  }

  /** The festival name is compared without regard to case. */
  lemma ThemeIgnoresCase(festivalName: string)
    ensures ThemeOf(festivalName) == ThemeOf(Lower(festivalName))
  {
    LowerIdempotent(festivalName);
  }

  // ---------------------------------------------------------------------------
  // Properties of the prompts

  /** The date and quote lines are present exactly when their fields are
      non-empty; the same holds for each contact line. */
  lemma FestivalOptionalLines(w: FestivalWording, d: CompanyDetails, s: Style)
    ensures var parts := FestivalParts(w, d, s);
      && (Has(parts, FestivalDate) <==> d.festivalDate != "")
      && (Has(parts, Quote) <==> d.quote != "")
      && (Has(parts, ContactNumber) <==> d.contactNumber != "")
      && (Has(parts, Email) <==> d.email != "")
      && (Has(parts, Website) <==> d.website != "")
      && (Has(parts, Address) <==> d.address != "")
  {
    forall k | k in {FestivalDate, Quote, ContactNumber, Email, Website, Address}
      ensures Has(FestivalParts(w, d, s), k) <==> HasField(d, k)
    {
      PartsHave(w, d, s, k);
    }
  }

  /** Whether the field behind an optional instruction is non-empty. */
  predicate HasField(d: CompanyDetails, k: FestivalPart) {
    match k
    case FestivalDate => d.festivalDate != ""
    case Quote => d.quote != ""
    case ContactNumber => d.contactNumber != ""
    case Email => d.email != ""
    case Website => d.website != ""
    case Address => d.address != ""
    case _ => true
  }

  /** Which instructions the prompt holds: the fixed ones always, the
      optional ones when their field is non-empty. */
  lemma PartsHave(w: FestivalWording, d: CompanyDetails, s: Style, k: FestivalPart)
    ensures Has(FestivalParts(w, d, s), k) <==> HasField(d, k)
  {
    var base := [Segment(Base, BaseText(w, d, s))];
    var date := Optional(FestivalDate, d.festivalDate, DateText(d.festivalDate));
    var quote := Optional(Quote, d.quote, QuoteText(d.quote));
    var header := [Segment(ContactHeader, w.contactHeader)];
    var number := Optional(ContactNumber, d.contactNumber, ContactNumberText(d.contactNumber));
    var email := Optional(Email, d.email, EmailText(d.email));
    var website := Optional(Website, d.website, WebsiteText(d.website));
    var address := Optional(Address, d.address, AddressText(d.address));
    var technical := [Segment(Technical, w.technical)];
    HasConcat(base, date, k);
    HasConcat(base + date, quote, k);
    HasConcat(header, number, k);
    HasConcat(header + number, email, k);
    HasConcat(header + number + email, website, k);
    HasConcat(header + number + email + website, address, k);
    HasConcat(HeadParts(w, d, s), ContactParts(w, d), k);
    HasConcat(HeadParts(w, d, s) + ContactParts(w, d), technical, k);
    HasOptional(FestivalDate, d.festivalDate, DateText(d.festivalDate), k);
    HasOptional(Quote, d.quote, QuoteText(d.quote), k);
    HasOptional(ContactNumber, d.contactNumber, ContactNumberText(d.contactNumber), k);
    HasOptional(Email, d.email, EmailText(d.email), k);
    HasOptional(Website, d.website, WebsiteText(d.website), k);
    HasOptional(Address, d.address, AddressText(d.address), k);
    assert base[0].kind == Base && header[0].kind == ContactHeader && technical[0].kind == Technical;
  }

  /** The prompt opens with the base template, always carries the contact
      header, ends with the technical section, and keeps the template's order. */
  lemma FestivalLayout(w: FestivalWording, d: CompanyDetails, s: Style)
    ensures var parts := FestivalParts(w, d, s);
      && InOrder(parts)
      && parts[0].kind == Base
      && parts[|parts| - 1].kind == Technical
      && Has(parts, ContactHeader)
  {
    var head, contact := HeadParts(w, d, s), ContactParts(w, d);
    var technical := [Segment(Technical, w.technical)];
    HeadInOrder(w, d, s);
    ContactInOrder(w, d);
    InOrderConcat(head, contact, 3);
    InOrderConcat(head + contact, technical, 8);
    assert (head + contact)[0] == head[0];
    assert (head + contact + technical)[0] == head[0];
    PartsHave(w, d, s, ContactHeader);
  }

  lemma HeadInOrder(w: FestivalWording, d: CompanyDetails, s: Style)
    ensures var head := HeadParts(w, d, s);
      && InOrder(head) && head[0].kind == Base
      && forall i :: 0 <= i < |head| ==> Rank(head[i].kind) <= 2
  {
    var p0 := [Segment(Base, BaseText(w, d, s))];
    AppendInOrder(p0, FestivalDate, d.festivalDate, DateText(d.festivalDate), 0);
    var p1 := p0 + Optional(FestivalDate, d.festivalDate, DateText(d.festivalDate));
    AppendInOrder(p1, Quote, d.quote, QuoteText(d.quote), 0);
  }

  lemma ContactInOrder(w: FestivalWording, d: CompanyDetails)
    ensures var contact := ContactParts(w, d);
      && InOrder(contact)
      && forall i :: 0 <= i < |contact| ==> 3 <= Rank(contact[i].kind) <= 7
  {
    var p0 := [Segment(ContactHeader, w.contactHeader)];
    AppendInOrder(p0, ContactNumber, d.contactNumber, ContactNumberText(d.contactNumber), 3);
    var p1 := p0 + Optional(ContactNumber, d.contactNumber, ContactNumberText(d.contactNumber));
    AppendInOrder(p1, Email, d.email, EmailText(d.email), 3);
    var p2 := p1 + Optional(Email, d.email, EmailText(d.email));
    AppendInOrder(p2, Website, d.website, WebsiteText(d.website), 3);
    var p3 := p2 + Optional(Website, d.website, WebsiteText(d.website));
    AppendInOrder(p3, Address, d.address, AddressText(d.address), 3);
  }

  /** Appending an optional instruction that ranks after every present one
      keeps the order. */
  lemma AppendInOrder(p: seq<Segment<FestivalPart>>, k: FestivalPart, field: string, text: string, lo: nat)
    requires InOrder(p) && lo <= Rank(k)
    requires forall i :: 0 <= i < |p| ==> lo <= Rank(p[i].kind) < Rank(k)
    ensures var q := p + Optional(k, field, text);
      && InOrder(q)
      && (forall i :: 0 <= i < |q| ==> lo <= Rank(q[i].kind) <= Rank(k))
      && (forall i :: 0 <= i < |p| ==> q[i] == p[i])
  {
    var q := p + Optional(k, field, text);
    if field == "" {
      assert q == p;
    } else {
      assert q == p + [Segment(k, text)];
      assert q[|p|].kind == k;
    }
  }

  lemma InOrderConcat(a: seq<Segment<FestivalPart>>, b: seq<Segment<FestivalPart>>, bound: nat)
    requires InOrder(a) && InOrder(b)
    requires forall i :: 0 <= i < |a| ==> Rank(a[i].kind) < bound
    requires forall j :: 0 <= j < |b| ==> bound <= Rank(b[j].kind)
    ensures InOrder(a + b)
  {
    forall i, j | 0 <= i < j < |a + b|
      ensures Rank((a + b)[i].kind) < Rank((a + b)[j].kind)
    {
      if j < |a| {
      } else if i >= |a| {
        assert (a + b)[i] == b[i - |a|] && (a + b)[j] == b[j - |a|];
      } else {
        assert (a + b)[j] == b[j - |a|];
      }
    }
  }

  /** The base template names the festival, the company, the theme and the
      greeting, whatever its fixed wording. */
  lemma BaseNamesFields(w: FestivalWording, d: CompanyDetails, s: Style)
    ensures var text := BaseText(w, d, s);
      && Includes(text, d.festivalName) && Includes(text, d.companyName)
      && Includes(text, s.theme) && Includes(text, s.greeting)
  {
    var p1 := w.title + d.festivalName;
    IncludesEnd(w.title, d.festivalName);
    var p2 := p1 + w.designFor + d.festivalName + w.symbols;
    IncludesLeft3(p1, w.designFor, d.festivalName, w.symbols, d.festivalName);
    var p3 := p2 + s.theme;
    IncludesLeft(p2, s.theme, d.festivalName);
    IncludesEnd(p2, s.theme);
    var p4 := p3 + w.positioning + d.companyName;
    IncludesLeft2(p3, w.positioning, d.companyName, d.festivalName);
    IncludesLeft2(p3, w.positioning, d.companyName, s.theme);
    IncludesEnd(p3 + w.positioning, d.companyName);
    var p5 := p4 + w.greetingLead + s.greeting;
    forall x | x in {d.festivalName, s.theme, d.companyName}
      ensures Includes(p5, x)
    {
      IncludesLeft2(p4, w.greetingLead, s.greeting, x);
    }
    IncludesEnd(p4 + w.greetingLead, s.greeting);
    forall x | x in {d.festivalName, s.theme, d.companyName, s.greeting}
      ensures Includes(p5 + w.focalPoint, x)
    {
      IncludesLeft(p5, w.focalPoint, x);
    }
  }

  /** A line of the form `prefix + field + suffix` names the field, and so
      does any rendering it is a segment of. */
  lemma LineNamesField(prefix: string, field: string, suffix: string, parts: seq<Segment<FestivalPart>>, i: nat)
    requires i < |parts| && parts[i].text == prefix + field + suffix
    ensures Includes(Render(parts), field)
  {
    SegmentOccurs(parts, i);
    IncludesPart(prefix, field, suffix);
    IncludesTransitive(Render(parts), parts[i].text, field);
  }

  lemma HeadNamesFields(w: FestivalWording, d: CompanyDetails, s: Style)
    ensures var text := Render(HeadParts(w, d, s));
      && Includes(text, d.festivalName) && Includes(text, d.companyName)
      && Includes(text, s.theme) && Includes(text, s.greeting)
      && (d.festivalDate != "" ==> Includes(text, d.festivalDate))
      && (d.quote != "" ==> Includes(text, d.quote))
  {
    var head := HeadParts(w, d, s);
    var date := Optional(FestivalDate, d.festivalDate, DateText(d.festivalDate));
    assert head[0] == Segment(Base, BaseText(w, d, s));
    SegmentOccurs(head, 0);
    BaseNamesFields(w, d, s);
    IncludesTransitive(Render(head), BaseText(w, d, s), d.festivalName);
    IncludesTransitive(Render(head), BaseText(w, d, s), d.companyName);
    IncludesTransitive(Render(head), BaseText(w, d, s), s.theme);
    IncludesTransitive(Render(head), BaseText(w, d, s), s.greeting);
    if d.festivalDate != "" {
      assert head[1] == Segment(FestivalDate, DateText(d.festivalDate));
      LineNamesField("\n   - Festival date \"", d.festivalDate, "\" should be displayed prominently", head, 1);
    }
    if d.quote != "" {
      assert head[1 + |date|] == Segment(Quote, QuoteText(d.quote));
      LineNamesField("\n   - Motivational quote \"", d.quote, "\" should be placed in an elegant style", head, 1 + |date|);
    }
  }

  lemma ContactNamesFields(w: FestivalWording, d: CompanyDetails)
    ensures var text := Render(ContactParts(w, d));
      && (d.contactNumber != "" ==> Includes(text, d.contactNumber))
      && (d.email != "" ==> Includes(text, d.email))
      && (d.website != "" ==> Includes(text, d.website))
      && (d.address != "" ==> Includes(text, d.address))
  {
    var contact := ContactParts(w, d);
    var number := Optional(ContactNumber, d.contactNumber, ContactNumberText(d.contactNumber));
    var email := Optional(Email, d.email, EmailText(d.email));
    var website := Optional(Website, d.website, WebsiteText(d.website));
    if d.contactNumber != "" {
      assert contact[1] == Segment(ContactNumber, ContactNumberText(d.contactNumber));
      LineNamesField("\n   - Contact number \"", d.contactNumber, "\" must be displayed clearly", contact, 1);
    }
    if d.email != "" {
      assert contact[1 + |number|] == Segment(Email, EmailText(d.email));
      LineNamesField("\n   - Email \"", d.email, "\" must be displayed clearly", contact, 1 + |number|);
    }
    if d.website != "" {
      assert contact[1 + |number| + |email|] == Segment(Website, WebsiteText(d.website));
      LineNamesField("\n   - Website \"", d.website, "\" must be displayed clearly", contact, 1 + |number| + |email|);
    }
    if d.address != "" {
      var i := 1 + |number| + |email| + |website|;
      assert contact[i] == Segment(Address, AddressText(d.address));
      LineNamesField("\n   - Address \"", d.address, "\" must be at the VERY BOTTOM in a single horizontal line", contact, i);
    }
  }

  /** The greeting prompt names the festival, the company, the theme and the
      greeting, and every optional field that is given. */
  lemma FestivalNamesFields(w: FestivalWording, d: CompanyDetails, s: Style)
    ensures var prompt := Render(FestivalParts(w, d, s));
      && Includes(prompt, d.festivalName) && Includes(prompt, d.companyName)
      && Includes(prompt, s.theme) && Includes(prompt, s.greeting)
      && (d.festivalDate != "" ==> Includes(prompt, d.festivalDate))
      && (d.quote != "" ==> Includes(prompt, d.quote))
      && (d.contactNumber != "" ==> Includes(prompt, d.contactNumber))
      && (d.email != "" ==> Includes(prompt, d.email))
      && (d.website != "" ==> Includes(prompt, d.website))
      && (d.address != "" ==> Includes(prompt, d.address))
  {
    var head, contact := HeadParts(w, d, s), ContactParts(w, d);
    var h, c, t := Render(head), Render(contact), w.technical;
    RenderConcat(head, contact);
    RenderAppend(head + contact, Segment(Technical, t));
    assert Render(FestivalParts(w, d, s)) == h + c + t;
    HeadNamesFields(w, d, s);
    ContactNamesFields(w, d);
    forall x | Includes(h, x)
      ensures Includes(h + c + t, x)
    {
      IncludesLeft(h, c, x);
      IncludesLeft(h + c, t, x);
    }
    forall x | Includes(c, x)
      ensures Includes(h + c + t, x)
    {
      IncludesRight(h, c, x);
      IncludesLeft(h + c, t, x);
    }
  }

  /** The fallback prompt adds each optional line exactly when its field is
      non-empty, opens with the element list and ends with the closing lines. */
  lemma FallbackOptionalLines(w: FestivalWording, d: CompanyDetails)
    ensures var parts := FallbackParts(w, d);
      && (Has(parts, FallbackQuote) <==> d.quote != "")
      && (Has(parts, FallbackContactNumber) <==> d.contactNumber != "")
      && (Has(parts, FallbackEmail) <==> d.email != "")
      && (Has(parts, FallbackWebsite) <==> d.website != "")
      && (Has(parts, FallbackAddress) <==> d.address != "")
      && parts[0].kind == Elements
      && parts[|parts| - 1].kind == Closing
  {
    var parts := FallbackParts(w, d);
    var elements := [Segment(Elements, ElementsText(w, d))];
    var quote := Optional(FallbackQuote, d.quote, FallbackQuoteText(d.quote));
    var number := Optional(FallbackContactNumber, d.contactNumber, FallbackContactNumberText(d.contactNumber));
    var email := Optional(FallbackEmail, d.email, FallbackEmailText(d.email));
    var website := Optional(FallbackWebsite, d.website, FallbackWebsiteText(d.website));
    var address := Optional(FallbackAddress, d.address, FallbackAddressText(d.address));
    var br := [Segment(LineBreak, "\n")];
    var closing := [Segment(Closing, w.fallbackClosing)];
    forall k | k in {FallbackQuote, FallbackContactNumber, FallbackEmail, FallbackWebsite, FallbackAddress}
      ensures Has(parts, k) <==> FallbackField(d, k)
    {
      HasConcat(elements, quote, k);
      HasConcat(elements + quote, br, k);
      HasConcat(elements + quote + br, number, k);
      HasConcat(elements + quote + br + number, br, k);
      HasConcat(elements + quote + br + number + br, email, k);
      HasConcat(elements + quote + br + number + br + email, br, k);
      HasConcat(elements + quote + br + number + br + email + br, website, k);
      HasConcat(elements + quote + br + number + br + email + br + website, br, k);
      HasConcat(elements + quote + br + number + br + email + br + website + br, address, k);
      HasConcat(elements + quote + br + number + br + email + br + website + br + address, closing, k);
      HasOptional(FallbackQuote, d.quote, FallbackQuoteText(d.quote), k);
      HasOptional(FallbackContactNumber, d.contactNumber, FallbackContactNumberText(d.contactNumber), k);
      HasOptional(FallbackEmail, d.email, FallbackEmailText(d.email), k);
      HasOptional(FallbackWebsite, d.website, FallbackWebsiteText(d.website), k);
      HasOptional(FallbackAddress, d.address, FallbackAddressText(d.address), k);
      assert elements[0].kind == Elements && br[0].kind == LineBreak && closing[0].kind == Closing;
    }
  }

  /** Whether the field behind an optional fallback line is non-empty. */
  predicate FallbackField(d: CompanyDetails, k: FallbackPart) {
    match k
    case FallbackQuote => d.quote != ""
    case FallbackContactNumber => d.contactNumber != ""
    case FallbackEmail => d.email != ""
    case FallbackWebsite => d.website != ""
    case FallbackAddress => d.address != ""
    case _ => true
  }

  /** The fallback prompt still names the festival and the company. */
  lemma FallbackNamesFields(w: FestivalWording, d: CompanyDetails)
    ensures Includes(FallbackPrompt(w, d), d.festivalName)
    ensures Includes(FallbackPrompt(w, d), d.companyName)
  {
    var parts := FallbackParts(w, d);
    var text := ElementsText(w, d);
    assert parts[0] == Segment(Elements, text);
    SegmentOccurs(parts, 0);
    var p1 := w.fallbackIntro + d.festivalName;
    IncludesEnd(w.fallbackIntro, d.festivalName);
    var p2 := p1 + w.fallbackCompany + d.companyName;
    IncludesLeft2(p1, w.fallbackCompany, d.companyName, d.festivalName);
    IncludesEnd(p1 + w.fallbackCompany, d.companyName);
    IncludesLeft3(p2, w.fallbackGreeting, d.festivalName, w.fallbackFont, d.festivalName);
    IncludesLeft3(p2, w.fallbackGreeting, d.festivalName, w.fallbackFont, d.companyName);
    IncludesTransitive(FallbackPrompt(w, d), text, d.festivalName);
    IncludesTransitive(FallbackPrompt(w, d), text, d.companyName);
  }

  // ---------------------------------------------------------------------------
  // Properties of the route

  /** The empty-envelope error is neither a moderation nor a configuration error. */
  lemma NoImageIsGenericFailure()
    ensures !IsModeration(NoImageMessage)
    ensures Classify(NoImageMessage) == GenericFailure
  {
    NotIncludedWithoutPair(NoImageMessage, "safety", 's', 'a');
    NotIncludedWithoutPair(NoImageMessage, "moderation", 'm', 'o');
    NotIncludedWithoutPair(NoImageMessage, "API key", 'A', 'P');
  }

  /** Reading the bytes of a text entry fails with neither a moderation nor
      a configuration error. */
  lemma NoBufferIsGenericFailure()
    ensures !IsModeration(NoBufferMessage)
    ensures Classify(NoBufferMessage) == GenericFailure
  {
    NotIncludedWithoutPair(NoBufferMessage, "safety", 's', 'a');
    NotIncludedWithoutPair(NoBufferMessage, "moderation", 'm', 'o');
    NotIncludedWithoutPair(NoBufferMessage, "API key", 'A', 'P');
  }

  /** A complete request whose `logo` entry is text gets the generic
      failure, without any call to the provider (see `Post`). */
  lemma TextLogoResponse(r: Request, prompts: Prompts, apiKeyPresent: bool, provider: (nat, string) -> Reply)
    requires HasRequiredFields(r) && !LogoIsFile(r)
    ensures Handle(r, prompts, apiKeyPresent, provider) == Refused(500, GenericErrorMessage)
  {
    NoBufferIsGenericFailure();
  }

  /** The validation error is answered exactly when the company name, the
      festival name or the logo is missing; the provider is then never
      called (see `Post`). */
  lemma ValidationResponse(r: Request, prompts: Prompts, apiKeyPresent: bool, provider: (nat, string) -> Reply)
    ensures Handle(r, prompts, apiKeyPresent, provider) == Refused(400, RequiredFieldsError)
      <==> !HasRequiredFields(r)
  {
    assert ModerationErrorMessage[0] != RequiredFieldsError[0];
  }

  /** Without an API key a complete request with a logo file ends, after
      three attempts, in the configuration error; with text under `logo` it
      fails before the first attempt. */
  lemma MissingKeyResponse(r: Request, prompts: Prompts, provider: (nat, string) -> Reply)
    requires HasRequiredFields(r)
    ensures Handle(r, prompts, false, provider) ==
      if LogoIsFile(r) then Refused(500, ConfigurationErrorMessage) else Refused(500, GenericErrorMessage)
  {
    MissingKeyRetried(ContextFor(prompts, false, provider));
    MissingKeyIsConfigurationError();
    NoBufferIsGenericFailure();
  }

  /** A complete request gets an image exactly when its `logo` entry is a
      file and some attempt received an envelope with a non-empty URL. */
  lemma CreatedResponse(r: Request, prompts: Prompts, apiKeyPresent: bool, provider: (nat, string) -> Reply)
    requires HasRequiredFields(r)
    ensures var run := Generate(ContextFor(prompts, apiKeyPresent, provider));
      Handle(r, prompts, apiKeyPresent, provider).Created? <==>
        && LogoIsFile(r)
        && exists k :: 0 <= k < |run.attempts| && run.attempts[k].Called?
             && run.attempts[k].reply.Generated? && run.attempts[k].reply.url.Some?
             && run.attempts[k].reply.url.value != ""
  {
    UrlFromLastAttempt(ContextFor(prompts, apiKeyPresent, provider));
  }

  /** The image answered is the one from the last attempt, every earlier
      attempt failed, and the company details are echoed back. */
  lemma CreatedDetails(r: Request, prompts: Prompts, apiKeyPresent: bool, provider: (nat, string) -> Reply)
    requires Handle(r, prompts, apiKeyPresent, provider).Created?
    ensures var run := Generate(ContextFor(prompts, apiKeyPresent, provider));
      var response := Handle(r, prompts, apiKeyPresent, provider);
      && run.attempts[|run.attempts| - 1].reply == Generated(Some(response.imageUrl))
      && (forall k :: 0 <= k < |run.attempts| - 1 ==> ErrorOf(run.attempts[k]).Some?)
      && response.companyDetails == DetailsOf(r)
      && response.usedModel == UsedModel
  {
    UrlFromLastAttempt(ContextFor(prompts, apiKeyPresent, provider));
  }

  /** Once the loop has returned, the answer is either the image or, for an
      envelope without a URL, the generic failure. */
  lemma UrlLessResponse(r: Request, prompts: Prompts, apiKeyPresent: bool, provider: (nat, string) -> Reply)
    requires HasRequiredFields(r)
    requires var end := Generate(ContextFor(prompts, apiKeyPresent, provider)).end;
      end.Returned? && (end.url.None? || end.url.value == "")
    ensures Handle(r, prompts, apiKeyPresent, provider) == Refused(500, GenericErrorMessage)
  {
    NoImageIsGenericFailure();
    NoBufferIsGenericFailure();
  }

  /** The status is 400 exactly for a missing field or, once the loop has
      run, a rethrown moderation error; every other refusal is a 500. */
  lemma RefusalStatus(r: Request, prompts: Prompts, apiKeyPresent: bool, provider: (nat, string) -> Reply)
    ensures var response := Handle(r, prompts, apiKeyPresent, provider);
      var end := Generate(ContextFor(prompts, apiKeyPresent, provider)).end;
      response.Refused? ==>
        (response.status == 400 <==>
          !HasRequiredFields(r) || (LogoIsFile(r) && end.Rethrown? && IsModeration(end.message)))
  {
    NoImageIsGenericFailure();
    NoBufferIsGenericFailure();
  }

  /** A provider that rejects every prompt on moderation grounds: for a logo
      file, three attempts (the greeting prompt, then the fallback twice) and
      the moderation error; for text under `logo`, the generic failure. */
  lemma ModerationRejectedResponse(r: Request, prompts: Prompts, provider: (nat, string) -> Reply, m: string)
    requires HasRequiredFields(r)
    requires IsModeration(m)
    requires forall k: nat, p: string :: provider(k, p) == Failed(m)
    ensures Handle(r, prompts, true, provider) ==
      if LogoIsFile(r) then Refused(400, ModerationErrorMessage) else Refused(500, GenericErrorMessage)
  {
    ModerationEveryAttempt(ContextFor(prompts, true, provider), m);
    NoBufferIsGenericFailure();
  }
}
