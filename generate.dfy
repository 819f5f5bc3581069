/**
 * The festival-post generation stub (`POST /api/festivals/generate`):
 * validation, the image id, the image and preview URLs, and the defaults of
 * the reply.
 *
 * The clock readings and the `NEXT_PUBLIC_API_URL` setting are parameters;
 * the one-second sleep is not modelled.
 */
module Generate {
  import opened Wrappers
  import opened Text
  import opened GenerateText

  datatype CompanyInfo = CompanyInfo(name: Option<string>)

  /** The JSON body. */
  datatype GenerateRequest = GenerateRequest(
    festivalId: Option<string>, companyInfo: Option<CompanyInfo>, customText: Option<string>,
    templateId: Option<string>, outputFormat: Option<string>)

  datatype GenerateDetails = GenerateDetails(
    festival: string, company: string, generatedAt: nat, customText: string, template: string)

  datatype GenerateResponse =
    | Generated(imageUrl: string, previewUrl: string, message: string, details: GenerateDetails)
    | Refused(status: nat, error: string)

  /** `festivalId && companyInfo && companyInfo.name`. */
  predicate HasRequiredFields(r: GenerateRequest) {
    Given(r.festivalId) && r.companyInfo.Some? && Given(r.companyInfo.value.name)
  }

  function ImageId(festivalId: string, timestamp: nat): string {
    IdPrefix + festivalId + "_" + NatToString(timestamp)
  }

  /** `${baseUrl}/<folder>/${imageId}.${outputFormat || 'jpg'}`. */
  function AssetUrl(baseUrl: string, folder: string, imageId: string, outputFormat: Option<string>): string {
    baseUrl + "/" + folder + "/" + imageId + "." + OrElse(outputFormat, DefaultExtension)
  }

  /** What follows the folder in an asset URL. */
  function AssetTail(imageId: string, outputFormat: Option<string>): string {
    "/" + imageId + "." + OrElse(outputFormat, DefaultExtension)
  }

  /** `POST`, with `apiUrl` the setting, `timestamp` the reading of
      `Date.now()` and `generatedAt` the later reading of `new Date()`. */
  function Post(r: GenerateRequest, apiUrl: Option<string>, timestamp: nat, generatedAt: nat): (response: GenerateResponse)
    ensures response.Refused? <==> !HasRequiredFields(r)
    ensures response.Refused? ==> response == Refused(400, MissingFieldsError)
    ensures response.Generated? ==>
      var imageId := ImageId(r.festivalId.value, timestamp);
      var baseUrl := OrElse(apiUrl, DefaultBaseUrl);
      && response.imageUrl == AssetUrl(baseUrl, "images", imageId, r.outputFormat)
      && response.previewUrl == AssetUrl(baseUrl, "previews", imageId, r.outputFormat)
  {
    if !HasRequiredFields(r) then Refused(400, MissingFieldsError)
    else
      var imageId := ImageId(r.festivalId.value, timestamp);
      var baseUrl := OrElse(apiUrl, DefaultBaseUrl);
      Generated(
        AssetUrl(baseUrl, "images", imageId, r.outputFormat),
        AssetUrl(baseUrl, "previews", imageId, r.outputFormat),
        GeneratedMessage,
        GenerateDetails(
          r.festivalId.value, r.companyInfo.value.name.value, generatedAt,
          OrElse(r.customText, DefaultCustomText), OrElse(r.templateId, DefaultTemplate)))
  }

  // ---------------------------------------------------------------------------
  // Properties

  lemma Assoc5(x: string, a: string, b: string, c: string, d: string)
    ensures x + a + b + c + d == x + (a + b + c + d)
  {
  }

  /** The image and the preview URL share the base URL, the image id and the
      extension, and differ only in the folder; the extension is "jpg" unless
      an output format is given. */
  lemma UrlsShareAllButFolder(baseUrl: string, imageId: string, outputFormat: Option<string>)
    ensures var tail := AssetTail(imageId, outputFormat);
      && AssetUrl(baseUrl, "images", imageId, outputFormat) == baseUrl + "/" + "images" + tail
      && AssetUrl(baseUrl, "previews", imageId, outputFormat) == baseUrl + "/" + "previews" + tail
      && AssetUrl(baseUrl, "images", imageId, outputFormat) != AssetUrl(baseUrl, "previews", imageId, outputFormat)
      && tail[|tail| - |OrElse(outputFormat, DefaultExtension)|..] == (if Given(outputFormat) then outputFormat.value else "jpg")
  {
    var ext := OrElse(outputFormat, DefaultExtension);
    var tail := AssetTail(imageId, outputFormat);
    Assoc5(baseUrl + "/" + "images", "/", imageId, ".", ext);
    Assoc5(baseUrl + "/" + "previews", "/", imageId, ".", ext);
    var i := baseUrl + "/" + "images" + tail;
    var p := baseUrl + "/" + "previews" + tail;
    assert i[|baseUrl| + 1] == 'i';
    assert p[|baseUrl| + 1] == 'p';
  }

  /** The image id is the prefix, the festival id and `_`, followed by the
      timestamp, which reads back from it. */
  lemma ImageIdReadsBack(festivalId: string, timestamp: nat)
    ensures var id := ImageId(festivalId, timestamp);
      && id[..|IdPrefix + festivalId + "_"|] == IdPrefix + festivalId + "_"
      && ParseInt(id[|IdPrefix + festivalId + "_"|..]) == Some(timestamp as int)
  {
    var head := IdPrefix + festivalId + "_";
    var id := ImageId(festivalId, timestamp);
    assert id == head + NatToString(timestamp);
    assert id[|head|..] == NatToString(timestamp);
    ParseIntOfNatToString(timestamp);
  }

  /** The details name the festival and the company of the request, and fall
      back to "Happy Festival!" and "default" for a missing text and template. */
  lemma DetailsDefaults(r: GenerateRequest, apiUrl: Option<string>, timestamp: nat, generatedAt: nat)
    requires HasRequiredFields(r)
    ensures var d := Post(r, apiUrl, timestamp, generatedAt).details;
      && d.festival == r.festivalId.value && d.company == r.companyInfo.value.name.value
      && d.generatedAt == generatedAt
      && d.customText == (if Given(r.customText) then r.customText.value else DefaultCustomText)
      && d.template == (if Given(r.templateId) then r.templateId.value else DefaultTemplate)
  {
  }
}
