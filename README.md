# AutoPost core in Dafny

This project models the request-handling core of AutoPost, a Next.js tool. The tool produces marketing and festival-greeting images with an image-generation provider. The model covers:

- **`POST /api/image-post`** (module `ImagePost`) and **`POST /api/festival-post`** (module `FestivalPost`):
  - validation of the multipart form;
  - the full and the fallback prompt builders;
  - the bounded retry loop around the provider;
  - the classification of the final error into a 400 or 500 answer.
- **The shared retry controller** (module `Retry`):
  - at most three attempts;
  - a sticky moderation flag that switches later attempts to the fallback prompt;
  - exponential backoff (2000 ms, then 4000 ms);
  - the last error is rethrown.

  It is written once as a state machine (`Retry.Drive`). The loop as the routes write it (`Retry.CallWithRetry`) is proved equal to it.
- **The client form `ImageGenerationForm`** (module `ImageForm`), a class whose fields are the component's state:
  - `validate`;
  - the submit loop with linear backoff (1000 ms, then 2000 ms);
  - `handleReset`;
  - the download file name;
  - the guard of `sendToWhatsApp`.
- **`GET /api/festivals`** (module `Festivals`): the static festival list, the four optional filters, and the in-place sort by date (an insertion sort on an array).
- **The stubs `POST /api/festivals/schedule`** (module `Schedule`) **and `POST /api/festivals/generate`** (module `Generate`):
  - validation;
  - the id and URL strings;
  - the defaults;
  - the whole-day count until delivery.

The rest of the environment becomes parameters:

- The provider is a function from (attempt number, prompt) to a reply: a success envelope with an optional URL, or a failure with a message.
- The presence of the API key is a boolean.
- The server the form talks to is a function from (attempt number, form data) to a reply.
- Clock readings and the time-zone offset are numbers.
- Sleeps are not performed; each loop reports the delays it would wait.

Shared support:

- module `Text`: ASCII lower-casing, `includes`, prompts assembled from labelled segments, decimal printing and `parseInt`;
- module `FormData`: `formData.get`;
- module `Wrappers`: `Option`.

The fixed wording of each route lives in its own module: `RetryText`, `ImagePostText`, `FestivalPostText`, `ScheduleText`, `GenerateText` and `ImageFormText`.

The prompt builders and the `Post` methods of the two generation routes take the fixed template wording as a parameter:

- `ImagePostText.MarketingWording`; the route's own text is `ImagePostText.Marketing`.
- `FestivalPostText.FestivalWording`; the route's own text is `FestivalPostText.RouteWording`.

Every property about the prompts therefore holds for the route's wording and for any other wording.

## Model

| member | source | states |
|---|---|---|
| FormData.Get | src/app/api/image-post/route.ts:28-34 | `formData.get(name)` is absent exactly when no entry has that name; otherwise it is the value of the first entry with that name |
| FormData.TextField | src/app/api/image-post/route.ts:28-33 | `formData.get(name) as string \|\| ''` as the route reads a text field: the string entry, or the empty string when there is none |
| FormData.Truthy | src/app/api/image-post/route.ts:39 | the truthiness the validation tests: a file always, a string when non-empty, nothing never |
| Text.LowerIdempotent | src/app/api/festival-post/route.ts:195-204 | lower-casing twice is lower-casing once, so comparisons on lower-cased names ignore case |
| Text.ParseIntOfNatToString | src/app/api/festivals/schedule/route.ts:35 | a printed timestamp reads back as the same number |
| Text.NatToStringInjective | src/app/api/festivals/generate/route.ts:25-26 | different timestamps print as different numerals |
| Text.Lower | src/app/api/festivals/route.ts:81 | `toLowerCase` on ASCII: same length, no capital letter left, and only capitals change |
| Text.Includes | src/app/api/festivals/route.ts:81 | `includes`: the substring occurs at some position |
| Text.ParseInt | src/app/api/festivals/route.ts:64-72 | `Number.parseInt` without a radix: leading white space (ECMAScript's white space and line terminators, Unicode spaces included) is skipped, then an optional sign, then hexadecimal digits after `0x`/`0X` or decimal digits otherwise; no digit gives `None` (NaN); the empty string gives `None`; a negative result needs a minus sign |
| Text.ParseIntOfDigits | src/app/api/festivals/route.ts:64-72 | a string of decimal digits reads as its decimal value |
| Text.ParseIntOfHex | src/app/api/festivals/route.ts:64-72 | `0x`/`0X` followed by hexadecimal digits reads as their hexadecimal value, not as the 0 before the `x` |
| Text.HexTen | src/app/api/festivals/route.ts:64 | `parseInt("0xA")` is 10 |
| Text.HexYear | src/app/api/festivals/route.ts:72 | `parseInt("0x7E9")` is 2025 |
| Text.ParseIntSkipsWhitespace | src/app/api/festivals/route.ts:64 | a leading white-space character, ASCII or Unicode, does not change what `parseInt` reads |
| Text.SpacedTen | src/app/api/festivals/route.ts:64 | `parseInt` of a no-break space followed by "10" is 10 |
| Retry.Drive | src/app/api/image-post/route.ts:64-113 | the retry loop as a state machine over (retryCount, hadModerationError): between 1 and `MAX_RETRIES - retryCount` attempts, one wait fewer than attempts |
| Retry.Generate | src/app/api/image-post/route.ts:64-68 | the run from the initial state has 1 to 3 attempts and one wait between consecutive attempts |
| Retry.CallWithRetry | src/app/api/image-post/route.ts:64-113 | the loop with `retryCount` and `hadModerationError` updated in place, `break` on success and rethrow of the third error, produces exactly the run `Generate` specifies |
| Retry.TryOnce | src/app/api/image-post/route.ts:69-93 | one `try` block: without a key it throws the initialisation error before any provider call; otherwise it calls the provider with the fallback prompt if the flag is set, else the full prompt |
| Retry.LoopStep | src/app/api/image-post/route.ts:94-112 | one pass of the loop body: a success ends the run with its URL; the third failure is rethrown; any other failure moves to the next state after waiting `Backoff(retryCount)` |
| Retry.DriveStep | src/app/api/image-post/route.ts:68-112 | the first attempt of a run and the three ways the run continues from it |
| Retry.DriveWaits | src/app/api/image-post/route.ts:110-111 | the wait after the k-th attempt from state n is `1000 * 2^(n+k+1)` |
| Retry.DriveAttempt | src/app/api/image-post/route.ts:66-103 | attempt k is what the loop body does with the flag set by the start state or by any earlier attempt's moderation error (the flag is sticky) |
| Retry.ShiftAttempt | src/app/api/image-post/route.ts:100-103 | the sticky flag seen from the second attempt on equals the flag seen from the first attempt of the whole run |
| Retry.ModerationSeenCons | src/app/api/image-post/route.ts:100-103 | a moderation error is seen before attempt k of `[a] + rest` exactly when `a` raised one or `rest` saw one before attempt k-1 |
| Retry.DriveAttemptsCons | src/app/api/image-post/route.ts:68-112 | a run with more than one attempt starts with a failure that was not the last allowed, followed by the run from the next state |
| Retry.DriveRetriesFailures | src/app/api/image-post/route.ts:93-108 | every attempt but the last one failed |
| Retry.DriveLast | src/app/api/image-post/route.ts:93-108 | the loop returns exactly when the last attempt succeeded, with that envelope's URL; it rethrows only after `MAX_RETRIES - n` failures, and then rethrows the last error |
| Retry.DriveEnds | src/app/api/image-post/route.ts:93-108 | both of the above together: only the last attempt can succeed, success returns its URL, and a rethrow comes after all attempts failed |
| Retry.DriveWithoutKey | src/app/api/image-post/route.ts:73-75 | without an API key every remaining attempt throws the initialisation error, the provider is never called, and that error is rethrown |
| Retry.Pow2Grows | src/app/api/image-post/route.ts:111 | `2^i < 2^j` for `i < j` |
| Retry.BackoffSchedule | src/app/api/image-post/route.ts:106-111 | the waits are a prefix of [2000, 4000], strictly increasing, and there is none after the last attempt |
| Retry.StickyFallback | src/app/api/image-post/route.ts:66-103 | attempts before the first moderation error use the full prompt and all later attempts the fallback; attempt k asks the provider for attempt k with that prompt |
| Retry.SuccessEndsLoop | src/app/api/image-post/route.ts:93-117 | a success envelope is never retried, even without a URL: it is the last attempt and the loop returns its URL |
| Retry.RethrowAfterThreeFailures | src/app/api/image-post/route.ts:68-108 | the loop rethrows only after three failed attempts, and it rethrows the third error |
| Retry.MissingKeyRetried | src/app/api/image-post/route.ts:73-111 | without a key: three initialisation errors, waits of 2000 and 4000 ms, and the error is rethrown |
| Retry.UrlFromLastAttempt | src/app/api/image-post/route.ts:93-124 | the loop ends with a non-empty URL exactly when some attempt received one; that attempt is the last, and all earlier ones failed |
| Retry.ModerationEveryAttempt | src/app/api/image-post/route.ts:78-111 | a provider that always answers with a moderation error gets the full prompt once and then the fallback twice, with waits of 2000 and 4000 ms, and the rejection is rethrown |
| Retry.FixedMessagesAreNotModeration | src/app/api/image-post/route.ts:74-100 | neither the initialisation error nor "Unknown error" mentions safety or moderation |
| Retry.OnlyProviderErrorsFlag | src/app/api/image-post/route.ts:94-103 | with the routes' key message, the flag is set exactly by a provider failure whose message mentions safety or moderation |
| Retry.Classify | src/app/api/image-post/route.ts:138-153 | moderation is recognised first and wins over "API key"; the configuration error needs "API key" and no moderation word; anything else is generic |
| Retry.MissingKeyIsConfigurationError | src/app/api/image-post/route.ts:73-148 | the initialisation error does not set the moderation flag and is classified as the configuration error |
| ImagePost.SectionThreeBlock | src/app/api/image-post/route.ts:206-231 | the product-type branch gives the block `SectionThree` selects |
| ImagePost.GenerateMarketingPrompt | src/app/api/image-post/route.ts:181-244 | the prompt built by `+=` is the rendering of the segments `MarketingParts` lists |
| ImagePost.MarketingLayout | src/app/api/image-post/route.ts:185-241 | the full prompt starts with the positioning section and ends with the technical section, keeps the template's order, and holds exactly one section-3 block: the one the product type selects |
| ImagePost.MarketingOptionalLines | src/app/api/image-post/route.ts:197-203 | the tagline and address lines are present exactly when those fields are non-empty |
| ImagePost.SectionThreeIgnoresCase | src/app/api/image-post/route.ts:206-214 | the product type is compared after lower-casing |
| ImagePost.PositioningNamesFields | src/app/api/image-post/route.ts:192-195 | the positioning lines name the company, the product and the price |
| ImagePost.MarketingNamesFields | src/app/api/image-post/route.ts:185-203 | the full prompt names the company, the product and the price, and the tagline and address when given |
| ImagePost.FallbackOptionalLines | src/app/api/image-post/route.ts:163-175 | the fallback prompt has the tagline and address lines exactly when those fields are non-empty; it starts with the element list and ends with the closing lines |
| ImagePost.ElementsNameFields | src/app/api/image-post/route.ts:164-169 | the element list names the company, the product and the price |
| ImagePost.FallbackNamesFields | src/app/api/image-post/route.ts:160-176 | the fallback prompt names the company, the product and the price |
| ImagePost.NoImageIsGenericFailure | src/app/api/image-post/route.ts:115-153 | "No image was generated" is classified as the generic failure |
| ImagePost.ReadForm | src/app/api/image-post/route.ts:28-34 | the fields read from the form; the product type defaults to "general" when empty |
| ImagePost.HasRequiredFields | src/app/api/image-post/route.ts:39 | company name, product name and price are non-empty strings and the image entry is truthy |
| ImagePost.ImageIsFile | src/app/api/image-post/route.ts:61 | the image entry is a file, the only value whose `arrayBuffer` can be read |
| ImagePost.ErrorResponse | src/app/api/image-post/route.ts:134-153 | the `catch` block: moderation first (400), then "API key" (500 configuration), else the generic 500 |
| ImagePost.Outcome | src/app/api/image-post/route.ts:115-133 | after the loop: a non-empty URL gives the success answer; otherwise the no-image error goes to the `catch` |
| ImagePost.Handle | src/app/api/image-post/route.ts:39-153 | the route's answer: the 400 for a missing field, the `catch` of the `arrayBuffer` failure for text under `image`, otherwise the outcome of the retry run |
| ImagePost.NoBufferIsGenericFailure | src/app/api/image-post/route.ts:61 | the `TypeError` of `arrayBuffer` on a string is classified as the generic failure |
| ImagePost.TextImageResponse | src/app/api/image-post/route.ts:61 | a complete request with text under `image` gets the generic 500 before any attempt |
| ImagePost.Post | src/app/api/image-post/route.ts:20-155 | the route answers `Handle` of the form read; an incomplete form, or text under `image`, makes no attempt; otherwise the attempts and waits are those of the retry run on the route's two prompts |
| ImagePost.GenerateImage | src/app/api/image-post/route.ts:63-153 | after the loop: a non-empty URL gives the success answer with the details and model; otherwise the rethrown or no-image error is classified |
| ImagePost.ValidationResponse | src/app/api/image-post/route.ts:39-45 | the required-fields 400 is answered exactly when the company, product, price or image is missing or empty |
| ImagePost.MissingKeyResponse | src/app/api/image-post/route.ts:61-153 | without an API key a complete request with an image file ends in the 500 configuration error; with text under `image` it ends in the generic 500 |
| ImagePost.CreatedResponse | src/app/api/image-post/route.ts:61-133 | a complete request gets an image exactly when its `image` entry is a file and some attempt received a non-empty URL |
| ImagePost.CreatedDetails | src/app/api/image-post/route.ts:119-133 | the image returned comes from the last attempt, every earlier attempt failed, and the product details and model are echoed |
| ImagePost.UrlLessResponse | src/app/api/image-post/route.ts:115-153 | an envelope without a URL ends in the generic 500 |
| ImagePost.RefusalStatus | src/app/api/image-post/route.ts:39-154 | a refusal is a 400 exactly for a missing field or, with an image file, a rethrown moderation error; every other refusal is a 500 |
| ImagePost.ModerationRejectedResponse | src/app/api/image-post/route.ts:61-153 | a provider that always answers with a moderation error leads to the 400 moderation answer for an image file, and to the generic 500 for text under `image` |
| FestivalPost.SelectStyle | src/app/api/festival-post/route.ts:190-211 | the if/else chain that reassigns theme and greeting gives the style `StyleOf` specifies |
| FestivalPost.ThemeFirstMatch | src/app/api/festival-post/route.ts:195-206 | a named theme is chosen exactly when the lower-cased name contains its keyword and none of the keywords tested before it (diwali, holi, republic day, independence day) |
| FestivalPost.OtherFestivalStyle | src/app/api/festival-post/route.ts:207-211 | the generic theme is chosen exactly when no keyword matches; its greeting is `Happy <name>` and its theme names the festival |
| FestivalPost.ThemeIgnoresCase | src/app/api/festival-post/route.ts:195-204 | the festival name is compared after lower-casing |
| FestivalPost.GenerateFestivalPrompt | src/app/api/festival-post/route.ts:187-264 | the prompt built by `+=` is the rendering of the segments `FestivalParts` lists for the selected style |
| FestivalPost.BaseWithQuote | src/app/api/festival-post/route.ts:214-233 | the base template, the date element and the quote line render the head segments |
| FestivalPost.ContactSection | src/app/api/festival-post/route.ts:235-250 | the contact block appended line by line renders the contact segments |
| FestivalPost.HeadRendering | src/app/api/festival-post/route.ts:214-233 | the head segments render to the head text |
| FestivalPost.ContactRendering | src/app/api/festival-post/route.ts:235-250 | the contact segments render to the contact text |
| FestivalPost.FestivalOptionalLines | src/app/api/festival-post/route.ts:214-250 | the date, quote, contact number, email, website and address lines are each present exactly when their field is non-empty |
| FestivalPost.PartsHave | src/app/api/festival-post/route.ts:217-261 | the fixed instructions are always present and each optional one exactly when its field is non-empty |
| FestivalPost.FestivalLayout | src/app/api/festival-post/route.ts:217-261 | the prompt starts with the base template, always carries the contact header, ends with the technical section, and keeps the template's order |
| FestivalPost.HeadInOrder | src/app/api/festival-post/route.ts:214-233 | the head starts with the base template and keeps its order |
| FestivalPost.ContactInOrder | src/app/api/festival-post/route.ts:236-250 | the contact lines follow the header in the order number, email, website, address |
| FestivalPost.AppendInOrder | src/app/api/festival-post/route.ts:239-250 | appending an optional line that ranks after every present one keeps the order |
| FestivalPost.InOrderConcat | src/app/api/festival-post/route.ts:235-253 | two ordered sections, the second ranking after the first, are ordered together |
| FestivalPost.BaseNamesFields | src/app/api/festival-post/route.ts:217-228 | the base template names the festival, the company, the theme and the greeting |
| FestivalPost.LineNamesField | src/app/api/festival-post/route.ts:232-249 | a quoted-field line names its field in the rendered prompt |
| FestivalPost.HeadNamesFields | src/app/api/festival-post/route.ts:214-233 | the head also names the date and the quote when they are given |
| FestivalPost.ContactNamesFields | src/app/api/festival-post/route.ts:239-250 | the contact section names each contact field that is given |
| FestivalPost.FestivalNamesFields | src/app/api/festival-post/route.ts:214-261 | the greeting prompt names the festival, the company, the theme, the greeting, and every optional field that is given |
| FestivalPost.FallbackOptionalLines | src/app/api/festival-post/route.ts:168-181 | the fallback's quote, contact number, email, website and address lines are present exactly when their field is non-empty; it starts with the element list and ends with the closing lines |
| FestivalPost.FallbackNamesFields | src/app/api/festival-post/route.ts:165-182 | the fallback prompt names the festival and the company |
| FestivalPost.NoImageIsGenericFailure | src/app/api/festival-post/route.ts:123-158 | "No festival image was generated" is classified as the generic failure |
| FestivalPost.ReadForm | src/app/api/festival-post/route.ts:28-36 | the fields read from the form |
| FestivalPost.HasRequiredFields | src/app/api/festival-post/route.ts:41 | company name and festival name are non-empty strings and the logo entry is truthy |
| FestivalPost.LogoIsFile | src/app/api/festival-post/route.ts:66 | the logo entry is a file, the only value whose `arrayBuffer` can be read |
| FestivalPost.ThemeOf | src/app/api/festival-post/route.ts:195-211 | the first keyword, in the order diwali, holi, republic day, independence day, contained in the lower-cased name; otherwise the generic theme |
| FestivalPost.StyleOf | src/app/api/festival-post/route.ts:190-211 | the theme and greeting the if/else chain assigns for a festival name |
| FestivalPost.ErrorResponse | src/app/api/festival-post/route.ts:139-158 | the `catch` block: moderation first (400), then "API key" (500 configuration), else the generic 500 |
| FestivalPost.Outcome | src/app/api/festival-post/route.ts:122-138 | after the loop: a non-empty URL gives the success answer; otherwise the no-image error goes to the `catch` |
| FestivalPost.Handle | src/app/api/festival-post/route.ts:41-158 | the route's answer: the 400 for a missing field, the `catch` of the `arrayBuffer` failure for text under `logo`, otherwise the outcome of the retry run |
| FestivalPost.NoBufferIsGenericFailure | src/app/api/festival-post/route.ts:66 | the `TypeError` of `arrayBuffer` on a string is classified as the generic failure |
| FestivalPost.TextLogoResponse | src/app/api/festival-post/route.ts:66 | a complete request with text under `logo` gets the generic 500 before any attempt |
| FestivalPost.Post | src/app/api/festival-post/route.ts:20-160 | the route answers `Handle` of the form read; an incomplete form, or text under `logo`, makes no attempt; otherwise the attempts and waits are those of the retry run on the route's two prompts |
| FestivalPost.GenerateImage | src/app/api/festival-post/route.ts:68-158 | after the loop: a non-empty URL gives the success answer with the company details and model; otherwise the rethrown or no-image error is classified |
| FestivalPost.ValidationResponse | src/app/api/festival-post/route.ts:41-47 | the required-fields 400 is answered exactly when the company name, festival name or logo is missing |
| FestivalPost.MissingKeyResponse | src/app/api/festival-post/route.ts:66-158 | without an API key a complete request with a logo file ends in the 500 configuration error; with text under `logo` it ends in the generic 500 |
| FestivalPost.CreatedResponse | src/app/api/festival-post/route.ts:66-138 | a complete request gets an image exactly when its `logo` entry is a file and some attempt received a non-empty URL |
| FestivalPost.CreatedDetails | src/app/api/festival-post/route.ts:128-138 | the image returned comes from the last attempt, every earlier attempt failed, and the company details and model are echoed |
| FestivalPost.UrlLessResponse | src/app/api/festival-post/route.ts:100-158 | an envelope without a URL ends in the generic 500 with no further attempt |
| FestivalPost.RefusalStatus | src/app/api/festival-post/route.ts:41-159 | a refusal is a 400 exactly for a missing field or, with a logo file, a rethrown moderation error; every other refusal is a 500 |
| FestivalPost.ModerationRejectedResponse | src/app/api/festival-post/route.ts:66-158 | a provider that always answers with a moderation error leads to the 400 moderation answer for a logo file, and to the generic 500 for text under `logo` |
| ImageForm.ImageGenerationForm.constructor | src/components/tools/ImageGenerationForm.tsx:25-43 | the initial state: the initial form, no preview, result or error, no retries, nothing sent |
| ImageForm.ImageGenerationForm.Validate | src/components/tools/ImageGenerationForm.tsx:71-78 | returns true exactly when company, product, price and image are given; sets the required-fields error otherwise and clears it on success |
| ImageForm.ImageGenerationForm.HandleSubmit | src/components/tools/ImageGenerationForm.tsx:81-140 | a failed validation sends nothing and sets the error; otherwise the replies, waits, result, error and retry counter are those of `Submit` on the form data; the form itself is unchanged |
| ImageForm.RunSubmit | src/components/tools/ImageGenerationForm.tsx:90-137 | the `while` loop over `currentRetry`, with `break` on success, produces exactly the run `Submit` specifies |
| ImageForm.Submit | src/components/tools/ImageGenerationForm.tsx:90-137 | the whole loop from attempt 0: between one and three POSTs, with one wait between two of them |
| ImageForm.SubmitFrom | src/components/tools/ImageGenerationForm.tsx:93-137 | from attempt `currentRetry`: at most `3 - currentRetry` POSTs, one wait fewer, and the counter ends at the last attempt's index |
| ImageForm.SubmitFromCons | src/components/tools/ImageGenerationForm.tsx:125-135 | a failure that is not the third is followed by a wait of `1000 * currentRetry` and the run from the next attempt |
| ImageForm.SubmitFromAttempts | src/components/tools/ImageGenerationForm.tsx:93-135 | attempt k posts the same data, every attempt before the last failed, and the k-th wait is 1000 ms times the number of failures so far |
| ImageForm.SubmitFromOutcome | src/components/tools/ImageGenerationForm.tsx:115-131 | the run ends either with the first success, whose URL is shown with no error, or after the third failure with "Failed after 3 attempts: …" and no image |
| ImageForm.SubmitStopsAtFirstSuccess | src/components/tools/ImageGenerationForm.tsx:121-124 | the loop stops at the first success, shows its URL, clears the error, and leaves the counter at its index |
| ImageForm.SubmitGivesUpAfterThreeFailures | src/components/tools/ImageGenerationForm.tsx:87-135 | three failures give three POSTs, waits of 1000 and 2000 ms, no image, and the final error built from the third failure |
| ImageForm.SubmitErrorIffAllFailed | src/components/tools/ImageGenerationForm.tsx:86-131 | an error is left exactly when all three attempts failed |
| ImageForm.TextFieldSent | src/components/tools/ImageGenerationForm.tsx:99-105 | each of the six text fields appended is what the route reads under that name |
| ImageForm.RouteReadsRequired | src/components/tools/ImageGenerationForm.tsx:100-102 | the route reads back the company, product and price the form sent |
| ImageForm.RouteReadsDescription | src/components/tools/ImageGenerationForm.tsx:103-104 | the route reads back the tagline and address the form sent |
| ImageForm.RouteReadsProductType | src/components/tools/ImageGenerationForm.tsx:105 | the route reads back the product type sent, or "general" when it is empty |
| ImageForm.RequestOptionalFields | src/components/tools/ImageGenerationForm.tsx:106-107 | `phone_number` is sent only when non-empty, and the image exactly when one was chosen |
| ImageForm.ClientAndRouteAgree | src/components/tools/ImageGenerationForm.tsx:71-78 | the route's validation accepts the posted data exactly when `validate` accepts the form |
| ImageForm.ImageGenerationForm.HandleReset | src/components/tools/ImageGenerationForm.tsx:143-159 | restores the initial form (empty strings, product type "general", no image) and clears preview, result, error and the WhatsApp confirmation |
| ImageForm.ImageGenerationForm.HandleDownload | src/components/tools/ImageGenerationForm.tsx:162-180 | nothing happens without a result (no URL or an empty one); a successful fetch saves under `DownloadName(productName)`; a failed one sets the download error |
| ImageForm.DashWhitespace | src/components/tools/ImageGenerationForm.tsx:171 | the replacement leaves no whitespace |
| ImageForm.DownloadName | src/components/tools/ImageGenerationForm.tsx:171 | the product name with each whitespace run replaced by a dash, lower-cased, followed by "-marketing-image.jpg" |
| ImageForm.DashWhitespaceRun | src/components/tools/ImageGenerationForm.tsx:171 | a maximal run of whitespace becomes exactly one dash, whatever surrounds it |
| ImageForm.CollapseAppend | src/components/tools/ImageGenerationForm.tsx:171 | the replacement of a concatenation is the replacement of its parts, the second continuing the first's state |
| ImageForm.CollapseRun | src/components/tools/ImageGenerationForm.tsx:171 | a run of whitespace yields one dash, or nothing when a run is already open |
| ImageForm.DownloadNameShape | src/components/tools/ImageGenerationForm.tsx:171 | the file name has no whitespace or capital letter and ends in "-marketing-image.jpg"; a name already lower-case and without spaces is kept |
| ImageForm.ImageGenerationForm.SendToWhatsApp | src/components/tools/ImageGenerationForm.tsx:183-211 | nothing is sent without a result (a non-empty URL) and a phone number; otherwise exactly one request, after which the confirmation is set or the error shown |
| Festivals.Keep | src/app/api/festivals/route.ts:65-86 | `filter` keeps exactly the members that pass and only removes entries |
| Festivals.InMonth | src/app/api/festivals/route.ts:63-68 | the month parameter read by `parseInt` equals the festival's month |
| Festivals.InYear | src/app/api/festivals/route.ts:71-76 | the year parameter read by `parseInt` equals the festival's year |
| Festivals.InRegion | src/app/api/festivals/route.ts:79-83 | the lower-cased region contains the lower-cased parameter |
| Festivals.OfType | src/app/api/festivals/route.ts:85-89 | the lower-cased type equals the lower-cased parameter |
| Festivals.Matches | src/app/api/festivals/route.ts:63-89 | a festival passes every filter whose parameter is present and non-empty |
| Festivals.ByMonth | src/app/api/festivals/route.ts:63-69 | the month filter keeps exactly the entries of that month and only removes entries |
| Festivals.ByYear | src/app/api/festivals/route.ts:71-77 | the year filter keeps exactly the entries of that year and only removes entries |
| Festivals.ByRegion | src/app/api/festivals/route.ts:79-83 | the region filter keeps exactly the entries whose region contains the parameter, ignoring case |
| Festivals.ByType | src/app/api/festivals/route.ts:85-89 | the type filter keeps exactly the entries of that type, ignoring case |
| Festivals.HexParameters | src/app/api/festivals/route.ts:63-76 | `month=0xA` selects October and `year=0x7E9` the year 2025, as `parseInt` reads hexadecimal |
| Festivals.SpacedParameter | src/app/api/festivals/route.ts:63-68 | `month=%C2%A010` (a no-break space before 10) selects October |
| Festivals.Filtered | src/app/api/festivals/route.ts:61-89 | a festival is kept exactly when it is in the catalog and matches every given parameter; the result is a sub-multiset of the catalog; with no parameter nothing is filtered |
| Festivals.ApplyFilters | src/app/api/festivals/route.ts:61-89 | the four conditional reassignments compute `Filtered` |
| Festivals.Query | src/app/api/festivals/route.ts:52-96 | the answer is a permutation of the filtered list, sorted by date, and holds exactly the catalog festivals that match |
| Festivals.SortByDate | src/app/api/festivals/route.ts:92-94 | the in-place sort leaves the array sorted by date and a permutation of what it held |
| Festivals.Insert | src/app/api/festivals/route.ts:92-94 | one insertion step extends the sorted prefix and permutes the array |
| Festivals.SwapStep | src/app/api/festivals/route.ts:92-94 | swapping an out-of-order pair moves the misplaced entry one place down and keeps the rest sorted |
| Festivals.SwapKeepsMultiset | src/app/api/festivals/route.ts:92-94 | a swap keeps the same entries |
| Festivals.SameMembers | src/app/api/festivals/route.ts:92-96 | sorting keeps the same members |
| Festivals.KeyIsChronological | src/app/api/festivals/route.ts:92-94 | on calendar dates the sort key orders as the calendar does, and equal keys mean equal dates |
| Schedule.SomeKnownChannel | src/app/api/festivals/schedule/route.ts:20-21 | true exactly when some channel is "whatsapp" or "email" |
| Schedule.HasRequiredFields | src/app/api/festivals/schedule/route.ts:12 | festival id and image URL are given and the channel list is present and non-empty |
| Schedule.ScheduledId | src/app/api/festivals/schedule/route.ts:35 | "schedule_" + festival id + "_" + the printed timestamp |
| Schedule.DeliveryTime | src/app/api/festivals/schedule/route.ts:38-42 | the given scheduled time, or the local midnight that began the current day |
| Schedule.StartOfDay | src/app/api/festivals/schedule/route.ts:41 | the result is a local midnight at or before `t`, less than a day before it |
| Schedule.DaysUntil | src/app/api/festivals/schedule/route.ts:46 | the fewest whole days covering the interval |
| Schedule.Post | src/app/api/festivals/schedule/route.ts:6-63 | a missing id, URL or channel list gives the first 400; a list with no known channel gives the second 400; otherwise the schedule answer echoes id, URL and channels and carries the delivery time, recipient count, days left and status "scheduled" |
| Schedule.ChannelCheck | src/app/api/festivals/schedule/route.ts:20-27 | unknown channels are tolerated beside a known one; a list of only unknown channels is refused |
| Schedule.ScheduledIdReadsBack | src/app/api/festivals/schedule/route.ts:35 | the id is "schedule_" + festival id + "_" followed by the timestamp, which reads back from it |
| Schedule.ScheduledIdsDiffer | src/app/api/festivals/schedule/route.ts:35 | two schedules of one festival at different times get different ids |
| Schedule.DefaultDeliveryIsPast | src/app/api/festivals/schedule/route.ts:38-46 | without a scheduled time, delivery is the local midnight that began the day, already past when "now" is read, so zero days remain |
| Schedule.DaysLeft | src/app/api/festivals/schedule/route.ts:45-46 | a past delivery counts as zero days; a future one counts the days it is away, rounded up |
| Generate.Post | src/app/api/festivals/generate/route.ts:6-47 | refused with the 400 exactly when the festival id, company info or company name is missing; otherwise the image and preview URLs are built from the base URL, the folder, the image id and the extension |
| Generate.UrlsShareAllButFolder | src/app/api/festivals/generate/route.ts:29-31 | image and preview URLs share the base URL, image id and extension and differ only in the folder; the extension is "jpg" unless an output format is given |
| Generate.ImageIdReadsBack | src/app/api/festivals/generate/route.ts:25-26 | the image id is "festival_" + festival id + "_" followed by the timestamp, which reads back from it |
| Generate.DetailsDefaults | src/app/api/festivals/generate/route.ts:40-46 | the details name the festival and the company and fall back to "Happy Festival!" and "default" |
| Generate.HasRequiredFields | src/app/api/festivals/generate/route.ts:12 | the festival id is given and the company info is present with a given name |
| Generate.ImageId | src/app/api/festivals/generate/route.ts:25-26 | "festival_" + festival id + "_" + the printed timestamp |
| Generate.AssetUrl | src/app/api/festivals/generate/route.ts:29-31 | base URL, folder, image id and the output format or "jpg" |

## Left out

- **The provider SDK.** The `openai.images.edit` and `openai.images.generate` calls, the image buffer and the logo buffer are left out. The provider is a function parameter. The festival route never sends the logo.
- **The API key and client initialisation.** Whether the key is present is a boolean parameter. The error thrown without a key (the routes' `MissingKeyMessage`) travels in the retry context, so that the controller's proofs do not depend on its text.
- **Sleeps.** The `setTimeout` waits of both loops and the schedule and generate stubs are not performed. The retry loops return the delays they would wait.
- **Fixed prompt wording as a parameter.** `ImagePost.GenerateMarketingPrompt`, `ImagePost.Post`, `FestivalPost.GenerateFestivalPrompt` and `FestivalPost.Post` take the fixed template wording as a parameter. The route's own text is the constant in its text module. The short quoted-field lines are written out in full.
- **ASCII lower-casing.** `toLowerCase` is modelled for ASCII letters only. White space, for `\s` and for the characters `parseInt` skips, is ECMAScript's full set of white space and line terminators, including the Unicode space separators.
- **A file under a text field.** A text field that holds a file is read as the empty string. In JavaScript, `as string` keeps the File object, which is truthy.
- **HTTP and React plumbing.** JSON and multipart parsing, `NextResponse`, `fetch`, the DOM download code, `FileReader` and logging are left out. The `loading` and `whatsappLoading` flags are set and cleared around their handlers, but only their value between handlers (false, kept by `Valid`) is stated; what the page shows while a request is in flight is not modelled. React's batching of state updates is not modelled: the class fields are assigned directly.
- **The `catch` blocks that answer 500** for a body that fails to parse. These are the `catch` of the festivals GET, the schedule stub and the generate stub. Every input the model accepts is well formed.
- **Festival dates.** Dates are (year, month, day) triples. JavaScript parses a `YYYY-MM-DD` string as UTC midnight and reads `getMonth` and `getFullYear` in local time. For a negative offset this can move a first-of-month date into the previous month. No date in the list falls on the first of a month.
- **Sort stability.** The sort's comparator and order are modelled. Whether festivals with equal dates keep their relative order is not stated: the list has no two festivals on the same day.
- **Schedule times.**
  - A given `scheduledTime` is the instant it denotes; `new Date(string)` parsing and invalid dates are left out.
  - `toISOString` is left out: `scheduledTime` in the answer is the instant in milliseconds.
  - The local time zone is a fixed offset, without daylight-saving changes.
- **Generate times.** `generatedAt` is the clock reading in milliseconds, not its ISO text.
- **Untyped JSON bodies.** The JSON bodies of the schedule and generate stubs are typed records. A non-string value where the source expects a string is not modelled.
- **The routes' `usedModel` and `quality`/`size` options** are constants passed to the SDK. Only `usedModel`, which is echoed in the answer, is modelled.
