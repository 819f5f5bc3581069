/**
 * `POST /api/image-post`: a marketing image made from a product photo.
 * Required fields are checked first; the full marketing prompt is built from
 * the product details and the product type; the retry controller calls the
 * provider; the final error is classified.
 */
module ImagePost {
  import opened Wrappers
  import opened Text
  import opened FormData
  import opened Retry
  import opened ImagePostText

  /** The fields the route reads from the form. `image` is whatever the
      `image` entry holds; only its presence matters here. */
  datatype Request = Request(
    companyName: string, productName: string, price: string,
    tagline: string, address: string, image: Option<Value>, productType: string)

  datatype ProductDetails = ProductDetails(
    companyName: string, productName: string, price: string, tagline: string, address: string)

  datatype Response =
    | Created(message: string, imageUrl: string, productDetails: ProductDetails, usedModel: string)
    | Refused(status: nat, error: string)

  /** The form fields as the route reads them; a missing product type is "general". */
  function ReadForm(form: seq<Entry>): Request {
    var productType := TextField(form, "product_type");
    Request(
      TextField(form, "company_name"), TextField(form, "product_name"), TextField(form, "price"),
      TextField(form, "tagline"), TextField(form, "address"), Get(form, "image"),
      if productType != "" then productType else "general")
  }

  predicate HasRequiredFields(r: Request) {
    r.companyName != "" && r.productName != "" && r.price != "" && Truthy(r.image)
  }

  /** The `image` entry is a file, whose bytes `arrayBuffer` can read. */
  predicate ImageIsFile(r: Request) {
    r.image.Some? && r.image.value.Blob?
  }

  function DetailsOf(r: Request): ProductDetails {
    ProductDetails(r.companyName, r.productName, r.price, r.tagline, r.address)
  }

  // ---------------------------------------------------------------------------
  // The full marketing prompt

  /** The instructions of the full prompt, in the order the template has them. */
  datatype MarketingPart = Opening | Tagline | Address | BeverageBlock | FoodBlock | GeneralBlock | Technical

  function Rank(k: MarketingPart): nat {
    match k
    case Opening => 0
    case Tagline => 1
    case Address => 2
    case BeverageBlock => 3
    case FoodBlock => 4
    case GeneralBlock => 5
    case Technical => 6
  }

  predicate IsSectionThree(k: MarketingPart) {
    k == BeverageBlock || k == FoodBlock || k == GeneralBlock
  }

  /** No instruction appears twice and they follow the template's order. */
  predicate InOrder(parts: seq<Segment<MarketingPart>>) {
    forall i, j :: 0 <= i < j < |parts| ==> Rank(parts[i].kind) < Rank(parts[j].kind)
  }

  function CompanyLine(companyName: string): string {
    "\n   - Company name \"" + companyName + "\" must be at the TOP of the poster"
  }

  function ProductLine(productName: string): string {
    "\n   - Product name \"" + productName + "\" must be centered ABOVE the product"
  }

  function PriceLine(price: string): string {
    "\n   - Price \"" + price + "\" must be positioned in the BOTTOM-RIGHT corner"
  }

  function OpeningText(w: MarketingWording, d: ProductDetails): string {
    w.head + CompanyLine(d.companyName) + ProductLine(d.productName) + PriceLine(d.price)
  }

  function TaglineText(tagline: string): string {
    "\n   - Tagline \"" + tagline + "\" must be placed BELOW the product"
  }

  function AddressText(address: string): string {
    "\n   - Address \"" + address + "\" must be at the VERY BOTTOM in a single horizontal line"
  }

  /** The section-3 block for a product type, compared lower-cased. */
  function SectionThree(productType: string): MarketingPart {
    if Lower(productType) == "beverage" then BeverageBlock
    else if Lower(productType) == "food" then FoodBlock
    else GeneralBlock
  }

  function SectionThreeSegment(w: MarketingWording, k: MarketingPart): Segment<MarketingPart> {
    Segment(k, if k == BeverageBlock then w.beverage else if k == FoodBlock then w.food else w.general)
  }

  /** The full prompt, segment by segment. */
  function MarketingParts(w: MarketingWording, d: ProductDetails, productType: string): seq<Segment<MarketingPart>> {
    [Segment(Opening, OpeningText(w, d))]
    + Optional(Tagline, d.tagline, TaglineText(d.tagline))
    + Optional(Address, d.address, AddressText(d.address))
    + [SectionThreeSegment(w, SectionThree(productType))]
    + [Segment(Technical, w.technical)]
  }

  /** The product-type branch of `generateMarketingPrompt`. */
  method SectionThreeBlock(w: MarketingWording, productType: string) returns (text: string)
    ensures text == SectionThreeSegment(w, SectionThree(productType)).text
  {
    if Lower(productType) == "beverage" {
      text := w.beverage;
    } else if Lower(productType) == "food" {
      text := w.food;
    } else {
      text := w.general;
    }
  }

  /** `generateMarketingPrompt` with the wording `w`: the prompt grows by `+=`
      as in the source. */
  method GenerateMarketingPrompt(w: MarketingWording, d: ProductDetails, productType: string) returns (prompt: string)
    ensures prompt == Render(MarketingParts(w, d, productType))
  {
    ghost var parts := [Segment(Opening, OpeningText(w, d))];
    prompt := OpeningText(w, d);
    assert prompt == Render(parts) by { RenderAppend([], parts[0]); }
    if d.tagline != "" {
      prompt := prompt + TaglineText(d.tagline);
    }
    RenderAppendOptional(parts, Tagline, d.tagline, TaglineText(d.tagline));
    parts := parts + Optional(Tagline, d.tagline, TaglineText(d.tagline));
    assert prompt == Render(parts);
    if d.address != "" {
      prompt := prompt + AddressText(d.address);
    }
    RenderAppendOptional(parts, Address, d.address, AddressText(d.address));
    parts := parts + Optional(Address, d.address, AddressText(d.address));
    assert prompt == Render(parts);
    var section := SectionThreeBlock(w, productType);
    RenderAppend(parts, SectionThreeSegment(w, SectionThree(productType)));
    prompt := prompt + section;
    parts := parts + [SectionThreeSegment(w, SectionThree(productType))];
    RenderAppend(parts, Segment(Technical, w.technical));
    prompt := prompt + w.technical;
    parts := parts + [Segment(Technical, w.technical)];
  }

  // ---------------------------------------------------------------------------
  // The fallback prompt

  datatype FallbackPart = Elements | FallbackTagline | LineBreak | FallbackAddress | Closing

  function CompanyItem(companyName: string): string {
    "- Include text for company name \"" + companyName + "\" in a premium font\n"
  }

  function ProductItem(productName: string): string {
    "- Add text for product name \"" + productName + "\" in an attractive font\n"
  }

  function PriceItem(price: string): string {
    "- Include price \"" + price + "\" in a small badge design\n"
  }

  function ElementsText(d: ProductDetails): string {
    ElementsIntro + CompanyItem(d.companyName) + ProductItem(d.productName) + PriceItem(d.price)
  }

  function FallbackTaglineText(tagline: string): string {
    "- Add tagline \"" + tagline + "\" in a complementary style"
  }

  function FallbackAddressText(address: string): string {
    "- Include address \"" + address + "\" in small text at the bottom"
  }

  /** The template of `generateFallbackPrompt`, segment by segment: an empty
      optional field leaves an empty line, not an instruction. */
  function FallbackParts(d: ProductDetails): seq<Segment<FallbackPart>> {
    [Segment(Elements, ElementsText(d))]
    + Optional(FallbackTagline, d.tagline, FallbackTaglineText(d.tagline))
    + [Segment(LineBreak, "\n")]
    + Optional(FallbackAddress, d.address, FallbackAddressText(d.address))
    + [Segment(Closing, ClosingText)]
  }

  function FallbackPrompt(d: ProductDetails): string {
    Render(FallbackParts(d))
  }

  // ---------------------------------------------------------------------------
  // The route

  /** The two prompts the route builds for a request: the full marketing
      prompt and the fallback. */
  function PromptsFor(w: MarketingWording, r: Request): Prompts {
    Prompts(Render(MarketingParts(w, DetailsOf(r), r.productType)), FallbackPrompt(DetailsOf(r)))
  }

  /** The `catch` block of the route. */
  function ErrorResponse(message: string): Response {
    match Classify(message)
    case ModerationRejected => Refused(400, ModerationErrorMessage)
    case ConfigurationError => Refused(500, ConfigurationErrorMessage)
    case GenericFailure => Refused(500, GenericErrorMessage)
  }

  /** What the route answers once the loop has ended: the URL of the first
      image, or the classified error when there is none or the loop rethrew. */
  function Outcome(d: ProductDetails, end: LoopEnd): Response {
    match end
    case Rethrown(m) => ErrorResponse(m)
    case Returned(url) =>
      if url.Some? && url.value != "" then Created(SuccessMessage, url.value, d, UsedModel)
      else ErrorResponse(NoImageMessage)
  }

  /** The route's answer to the request read from the form, given the
      prompts built for it. A non-empty text under `image` passes validation,
      but reading its bytes throws before the loop starts. */
  function Handle(r: Request, prompts: Prompts, apiKeyPresent: bool, provider: (nat, string) -> Reply): Response {
    if !HasRequiredFields(r) then Refused(400, RequiredFieldsError)
    else if !ImageIsFile(r) then ErrorResponse(NoBufferMessage)
    else Outcome(DetailsOf(r), Generate(ContextFor(prompts, apiKeyPresent, provider)).end)
  }

  /** `POST`: validation, the prompts, the retry loop, the check for a URL and
      the classification of the error. The route itself runs with the wording
      `Marketing`; `attempts` and `waits` are the attempts made and the delays
      waited. */
  method Post(w: MarketingWording, form: seq<Entry>, apiKeyPresent: bool, provider: (nat, string) -> Reply)
    returns (response: Response, attempts: seq<Attempt>, waits: seq<nat>)
    ensures response == Handle(ReadForm(form), PromptsFor(w, ReadForm(form)), apiKeyPresent, provider)
    ensures !HasRequiredFields(ReadForm(form)) || !ImageIsFile(ReadForm(form)) ==> attempts == [] && waits == []
    ensures HasRequiredFields(ReadForm(form)) && ImageIsFile(ReadForm(form)) ==>
      var run := Generate(ContextFor(PromptsFor(w, ReadForm(form)), apiKeyPresent, provider));
      attempts == run.attempts && waits == run.waits
  {
    var r := ReadForm(form);
    if r.companyName == "" || r.productName == "" || r.price == "" || !Truthy(r.image) {
      return Refused(400, RequiredFieldsError), [], [];
    }
    var details := DetailsOf(r);
    var marketingPrompt := GenerateMarketingPrompt(w, details, r.productType);
    if !r.image.value.Blob? {
      return ErrorResponse(NoBufferMessage), [], [];
    }
    response, attempts, waits := GenerateImage(details, Prompts(marketingPrompt, FallbackPrompt(details)), apiKeyPresent, provider);
  }

  /** The `try` block of `POST` once the prompts are built: the retry loop,
      the check for a URL and the classification of the error. */
  method GenerateImage(details: ProductDetails, prompts: Prompts, apiKeyPresent: bool, provider: (nat, string) -> Reply)
    returns (response: Response, attempts: seq<Attempt>, waits: seq<nat>)
    ensures var run := Generate(ContextFor(prompts, apiKeyPresent, provider));
      response == Outcome(details, run.end) && attempts == run.attempts && waits == run.waits
  {
    var run := CallWithRetry(ContextFor(prompts, apiKeyPresent, provider));
    attempts, waits := run.attempts, run.waits;
    match run.end {
      case Rethrown(m) =>
        response := ErrorResponse(m);
      case Returned(url) =>
        if url.None? || url.value == "" {
          response := ErrorResponse(NoImageMessage);
        } else {
          response := Created(SuccessMessage, url.value, details, UsedModel);
        }
    }
  }

  // ---------------------------------------------------------------------------
  // Properties of the prompts

  /** The full prompt opens with the subject and positioning instructions,
      closes with the technical section, keeps the template's order, and holds
      exactly one product-type block: the one the product type selects. */
  lemma MarketingLayout(w: MarketingWording, d: ProductDetails, productType: string)
    ensures var parts := MarketingParts(w, d, productType);
      && InOrder(parts)
      && parts[0].kind == Opening
      && parts[|parts| - 1].kind == Technical
      && Has(parts, SectionThree(productType))
      && (forall i :: 0 <= i < |parts| && IsSectionThree(parts[i].kind) ==> parts[i].kind == SectionThree(productType))
  {
    var parts := MarketingParts(w, d, productType);
    var block := SectionThreeSegment(w, SectionThree(productType));
    assert parts[|parts| - 2] == block;
  }

  /** The tagline and address instructions are present exactly when the
      fields are non-empty. */
  lemma MarketingOptionalLines(w: MarketingWording, d: ProductDetails, productType: string)
    ensures Has(MarketingParts(w, d, productType), Tagline) <==> d.tagline != ""
    ensures Has(MarketingParts(w, d, productType), Address) <==> d.address != ""
  {
    var parts := MarketingParts(w, d, productType);
    if d.tagline != "" {
      assert parts[1].kind == Tagline;
    }
    if d.address != "" {
      assert parts[if d.tagline != "" then 2 else 1].kind == Address;
    }
  }

  /** The product type is compared without regard to case. */
  lemma SectionThreeIgnoresCase(productType: string)
    ensures SectionThree(productType) == SectionThree(Lower(productType))
  {
    LowerIdempotent(productType);
  }

  /** Text of the form `prefix + field + suffix` names the field. */
  lemma Quoted(prefix: string, field: string, suffix: string)
    ensures Includes(prefix + field + suffix, field)
  {
    IncludesPart(prefix, field, suffix);
  }

  /** The opening instructions name the company, the product and the price,
      whatever fixed text precedes them. */
  lemma PositioningNamesFields(head: string, d: ProductDetails)
    ensures var text := head + CompanyLine(d.companyName) + ProductLine(d.productName) + PriceLine(d.price);
      Includes(text, d.companyName) && Includes(text, d.productName) && Includes(text, d.price)
  {
    var c, p, q := CompanyLine(d.companyName), ProductLine(d.productName), PriceLine(d.price);
    Quoted("\n   - Company name \"", d.companyName, "\" must be at the TOP of the poster");
    IncludesRight(head, c, d.companyName);
    IncludesLeft(head + c, p, d.companyName);
    IncludesLeft(head + c + p, q, d.companyName);
    Quoted("\n   - Product name \"", d.productName, "\" must be centered ABOVE the product");
    IncludesRight(head + c, p, d.productName);
    IncludesLeft(head + c + p, q, d.productName);
    Quoted("\n   - Price \"", d.price, "\" must be positioned in the BOTTOM-RIGHT corner");
    IncludesRight(head + c + p, q, d.price);
  }

  /** The full prompt names the company, the product and the price, and the
      tagline and address when they are given. */
  lemma MarketingNamesFields(w: MarketingWording, d: ProductDetails, productType: string)
    ensures var prompt := Render(MarketingParts(w, d, productType));
      && Includes(prompt, d.companyName)
      && Includes(prompt, d.productName)
      && Includes(prompt, d.price)
      && (d.tagline != "" ==> Includes(prompt, d.tagline))
      && (d.address != "" ==> Includes(prompt, d.address))
  {
    var parts := MarketingParts(w, d, productType);
    var prompt := Render(parts);
    SegmentOccurs(parts, 0);
    PositioningNamesFields(w.head, d);
    IncludesTransitive(prompt, OpeningText(w, d), d.companyName);
    IncludesTransitive(prompt, OpeningText(w, d), d.productName);
    IncludesTransitive(prompt, OpeningText(w, d), d.price);
    var opening := [Segment(Opening, OpeningText(w, d))];
    var tagline := Optional(Tagline, d.tagline, TaglineText(d.tagline));
    var address := Optional(Address, d.address, AddressText(d.address));
    var block := [SectionThreeSegment(w, SectionThree(productType))];
    var technical := [Segment(Technical, w.technical)];
    if d.tagline != "" {
      OptionalOccurs(opening, Tagline, d.tagline, TaglineText(d.tagline), address, block, technical);
      Quoted("\n   - Tagline \"", d.tagline, "\" must be placed BELOW the product");
      IncludesTransitive(prompt, TaglineText(d.tagline), d.tagline);
    }
    if d.address != "" {
      OptionalOccurs(opening + tagline, Address, d.address, AddressText(d.address), block, technical, []);
      Quoted("\n   - Address \"", d.address, "\" must be at the VERY BOTTOM in a single horizontal line");
      IncludesTransitive(prompt, AddressText(d.address), d.address);
    }
  }

  /** The fallback prompt adds the tagline and address instructions exactly
      when the fields are non-empty, and always ends with the closing lines. */
  lemma FallbackOptionalLines(d: ProductDetails)
    ensures Has(FallbackParts(d), FallbackTagline) <==> d.tagline != ""
    ensures Has(FallbackParts(d), FallbackAddress) <==> d.address != ""
    ensures FallbackParts(d)[0].kind == Elements
    ensures FallbackParts(d)[|FallbackParts(d)| - 1].kind == Closing
  {
    var parts := FallbackParts(d);
    if d.tagline != "" {
      assert parts[1].kind == FallbackTagline;
    }
    if d.address != "" {
      assert parts[if d.tagline != "" then 3 else 2].kind == FallbackAddress;
    }
  }

  /** The element list names the company, the product and the price,
      whatever fixed text precedes them. */
  lemma ElementsNameFields(intro: string, d: ProductDetails)
    ensures var text := intro + CompanyItem(d.companyName) + ProductItem(d.productName) + PriceItem(d.price);
      Includes(text, d.companyName) && Includes(text, d.productName) && Includes(text, d.price)
  {
    var c, p, q := CompanyItem(d.companyName), ProductItem(d.productName), PriceItem(d.price);
    Quoted("- Include text for company name \"", d.companyName, "\" in a premium font\n");
    IncludesRight(intro, c, d.companyName);
    IncludesLeft(intro + c, p, d.companyName);
    IncludesLeft(intro + c + p, q, d.companyName);
    Quoted("- Add text for product name \"", d.productName, "\" in an attractive font\n");
    IncludesRight(intro + c, p, d.productName);
    IncludesLeft(intro + c + p, q, d.productName);
    Quoted("- Include price \"", d.price, "\" in a small badge design\n");
    IncludesRight(intro + c + p, q, d.price);
  }

  /** The fallback prompt still names the company, the product and the price. */
  lemma FallbackNamesFields(d: ProductDetails)
    ensures Includes(FallbackPrompt(d), d.companyName)
    ensures Includes(FallbackPrompt(d), d.productName)
    ensures Includes(FallbackPrompt(d), d.price)
  {
    var parts := FallbackParts(d);
    SegmentOccurs(parts, 0);
    ElementsNameFields(ElementsIntro, d);
    IncludesTransitive(FallbackPrompt(d), ElementsText(d), d.companyName);
    IncludesTransitive(FallbackPrompt(d), ElementsText(d), d.productName);
    IncludesTransitive(FallbackPrompt(d), ElementsText(d), d.price);
  }

  // ---------------------------------------------------------------------------
  // Properties of the route

  /** The empty-envelope error is neither a moderation nor a configuration error. */
  lemma NoImageIsGenericFailure()
    ensures !IsModeration(NoImageMessage)
    ensures Classify(NoImageMessage) == GenericFailure
  {
    NotIncludedWithoutPair(NoImageMessage, "safety", 's', 'a');
    NotIncludedWithoutPair(NoImageMessage, "moderation", 'm', 'o');
    NotIncludedWithoutPair(NoImageMessage, "API key", 'A', 'P');
  }

  /** Reading the bytes of a text entry fails with neither a moderation nor
      a configuration error. */
  lemma NoBufferIsGenericFailure()
    ensures !IsModeration(NoBufferMessage)
    ensures Classify(NoBufferMessage) == GenericFailure
  {
    NotIncludedWithoutPair(NoBufferMessage, "safety", 's', 'a');
    NotIncludedWithoutPair(NoBufferMessage, "moderation", 'm', 'o');
    NotIncludedWithoutPair(NoBufferMessage, "API key", 'A', 'P');
  }

  /** A complete request whose `image` entry is text gets the generic
      failure, without any call to the provider (see `Post`). */
  lemma TextImageResponse(r: Request, prompts: Prompts, apiKeyPresent: bool, provider: (nat, string) -> Reply)
    requires HasRequiredFields(r) && !ImageIsFile(r)
    ensures Handle(r, prompts, apiKeyPresent, provider) == Refused(500, GenericErrorMessage)
  {
    NoBufferIsGenericFailure();
  }

  /** The validation error is answered exactly when a required field is
      missing or empty; the provider is then never called (see `Post`). */
  lemma ValidationResponse(r: Request, prompts: Prompts, apiKeyPresent: bool, provider: (nat, string) -> Reply)
    ensures Handle(r, prompts, apiKeyPresent, provider) == Refused(400, RequiredFieldsError)
      <==> !HasRequiredFields(r)
  {
    assert ModerationErrorMessage[0] != RequiredFieldsError[0];
  }

  /** Without an API key a complete request with a file ends, after three
      attempts, in the configuration error; with text under `image` it fails
      before the first attempt. */
  lemma MissingKeyResponse(r: Request, prompts: Prompts, provider: (nat, string) -> Reply)
    requires HasRequiredFields(r)
    ensures Handle(r, prompts, false, provider) ==
      if ImageIsFile(r) then Refused(500, ConfigurationErrorMessage) else Refused(500, GenericErrorMessage)
  {
    MissingKeyRetried(ContextFor(prompts, false, provider));
    MissingKeyIsConfigurationError();
    NoBufferIsGenericFailure();
  }

  /** A complete request gets an image exactly when its `image` entry is a
      file and some attempt received an envelope with a non-empty URL. */
  lemma CreatedResponse(r: Request, prompts: Prompts, apiKeyPresent: bool, provider: (nat, string) -> Reply)
    requires HasRequiredFields(r)
    ensures var run := Generate(ContextFor(prompts, apiKeyPresent, provider));
      Handle(r, prompts, apiKeyPresent, provider).Created? <==>
        && ImageIsFile(r)
        && exists k :: 0 <= k < |run.attempts| && run.attempts[k].Called?
             && run.attempts[k].reply.Generated? && run.attempts[k].reply.url.Some?
             && run.attempts[k].reply.url.value != ""
  {
    UrlFromLastAttempt(ContextFor(prompts, apiKeyPresent, provider));
  }

  /** The image answered is the one from the last attempt, every earlier
      attempt failed, and the product details are echoed back. */
  lemma CreatedDetails(r: Request, prompts: Prompts, apiKeyPresent: bool, provider: (nat, string) -> Reply)
    requires Handle(r, prompts, apiKeyPresent, provider).Created?
    ensures var run := Generate(ContextFor(prompts, apiKeyPresent, provider));
      var response := Handle(r, prompts, apiKeyPresent, provider);
      && run.attempts[|run.attempts| - 1].reply == Generated(Some(response.imageUrl))
      && (forall k :: 0 <= k < |run.attempts| - 1 ==> ErrorOf(run.attempts[k]).Some?)
      && response.productDetails == DetailsOf(r)
      && response.usedModel == UsedModel
  {
    UrlFromLastAttempt(ContextFor(prompts, apiKeyPresent, provider));
  }

  /** Once the loop has returned, the answer is either the image or, for an
      envelope without a URL, the generic failure. */
  lemma UrlLessResponse(r: Request, prompts: Prompts, apiKeyPresent: bool, provider: (nat, string) -> Reply)
    requires HasRequiredFields(r)
    requires var end := Generate(ContextFor(prompts, apiKeyPresent, provider)).end;
      end.Returned? && (end.url.None? || end.url.value == "")
    ensures Handle(r, prompts, apiKeyPresent, provider) == Refused(500, GenericErrorMessage)
  {
    NoImageIsGenericFailure();
    NoBufferIsGenericFailure();
  }

  /** The status is 400 exactly for a missing field or, once the loop has
      run, a rethrown moderation error; every other refusal is a 500. */
  lemma RefusalStatus(r: Request, prompts: Prompts, apiKeyPresent: bool, provider: (nat, string) -> Reply)
    ensures var response := Handle(r, prompts, apiKeyPresent, provider);
      var end := Generate(ContextFor(prompts, apiKeyPresent, provider)).end;
      response.Refused? ==>
        (response.status == 400 <==>
          !HasRequiredFields(r) || (ImageIsFile(r) && end.Rethrown? && IsModeration(end.message)))
  {
    NoImageIsGenericFailure();
    NoBufferIsGenericFailure();
  }

  /** A provider that rejects every prompt on moderation grounds: for a file,
      three attempts (the full prompt, then the fallback twice) and the
      moderation error; for text under `image`, the generic failure. */
  lemma ModerationRejectedResponse(r: Request, prompts: Prompts, provider: (nat, string) -> Reply, m: string)
    requires HasRequiredFields(r)
    requires IsModeration(m)
    requires forall k: nat, p: string :: provider(k, p) == Failed(m)
    ensures Handle(r, prompts, true, provider) ==
      if ImageIsFile(r) then Refused(400, ModerationErrorMessage) else Refused(500, GenericErrorMessage)
  {
    ModerationEveryAttempt(ContextFor(prompts, true, provider), m);
    NoBufferIsGenericFailure();
  }
}
