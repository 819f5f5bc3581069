/**
 * The client form of the marketing-image tool (`ImageGenerationForm`): the
 * form record and the UI state, validation, the submit loop that retries
 * the POST to `/api/image-post`, the reset, the download file name and the
 * guard in front of the WhatsApp request.
 *
 * The network is a parameter: `server(k, data)` is the reply to the k-th POST
 * of the form data `data`. Sleeps are not performed; the loop reports the
 * delays it would wait.
 */
module ImageForm {
  import opened Wrappers
  import opened Text
  import opened ImageFormText
  import opened FormData
  import ImagePost

  const MaxRetries: nat := 3
  const RetryDelayMs: nat := 1000

  datatype File = File(name: string, bytes: seq<bv8>)

  /** The form record. */
  datatype FormState = FormState(
    companyName: string, productName: string, price: string, tagline: string,
    address: string, productType: string, phoneNumber: string, image: Option<File>)

  const InitialForm: FormState := FormState("", "", "", "", "", "general", "", None)

  /** What `validate` demands: the company, the product, the price and an image. */
  predicate Complete(f: FormState) {
    f.companyName != "" && f.productName != "" && f.price != "" && f.image.Some?
  }

  /** The form data each attempt posts; the phone number and the image are
      appended only when present. */
  function RequestData(f: FormState): seq<Entry> {
    TextEntries(f) + OptionalEntries(f)
  }

  function TextEntries(f: FormState): seq<Entry> {
    [Entry("company_name", Str(f.companyName)), Entry("product_name", Str(f.productName)),
     Entry("price", Str(f.price)), Entry("tagline", Str(f.tagline)), Entry("address", Str(f.address)),
     Entry("product_type", Str(f.productType))]
  }

  function OptionalEntries(f: FormState): seq<Entry> {
    (if f.phoneNumber != "" then [Entry("phone_number", Str(f.phoneNumber))] else [])
    + (if f.image.Some? then [Entry("image", Blob(f.image.value.name, f.image.value.bytes))] else [])
  }

  /** The answer to one request: a 2xx response (with the `imageUrl` of its
      body, if any), another status (with the `error` of its body, or "" when
      there is none), or an exception with its message. */
  datatype HttpReply = Ok(imageUrl: Option<string>) | NotOk(error: string) | Thrown(message: string)

  /** The message of the error a failed request ends in; `fallback` stands in
      for a missing `error` in the body. */
  function ErrorMessage(reply: HttpReply, fallback: string): string
    requires !reply.Ok?
  {
    match reply
    case NotOk(e) => if e != "" then e else fallback
    case Thrown(m) => m
  }

  /** The error shown once every attempt has failed. */
  function FailedAfter(message: string): string {
    "Failed after " + NatToString(MaxRetries) + " attempts: "
    + (if message != "" then message else UnknownErrorMessage) + ". Please try again."
  }

  // ---------------------------------------------------------------------------
  // The submit loop as a state machine

  /** The replies received, the delays waited, and the state the loop leaves. */
  datatype Submission = Submission(
    replies: seq<HttpReply>, waits: seq<nat>, resultImage: Option<string>, error: string, apiRetries: nat)

  /** The loop from attempt `currentRetry` on. */
  function SubmitFrom(data: seq<Entry>, server: (nat, seq<Entry>) -> HttpReply, currentRetry: nat): (s: Submission)
    requires currentRetry < MaxRetries
    ensures 1 <= |s.replies| <= MaxRetries - currentRetry
    ensures |s.waits| == |s.replies| - 1
    ensures s.apiRetries == currentRetry + |s.replies| - 1
    decreases MaxRetries - currentRetry
  {
    var reply := server(currentRetry, data);
    if reply.Ok? then Submission([reply], [], reply.imageUrl, "", currentRetry)
    else if currentRetry + 1 == MaxRetries then
      Submission([reply], [], None, FailedAfter(ErrorMessage(reply, RequestFailedMessage)), currentRetry)
    else
      var rest := SubmitFrom(data, server, currentRetry + 1);
      Submission([reply] + rest.replies, [RetryDelayMs * (currentRetry + 1)] + rest.waits,
                 rest.resultImage, rest.error, rest.apiRetries)
  }

  /** The whole loop: between one and three POSTs, one wait between two of them. */
  function Submit(data: seq<Entry>, server: (nat, seq<Entry>) -> HttpReply): (s: Submission)
    ensures 1 <= |s.replies| <= MaxRetries
    ensures |s.waits| == |s.replies| - 1
  {
    SubmitFrom(data, server, 0)
  }

  /** `replies` and `waits` followed by the run `rest`. */
  function Then(replies: seq<HttpReply>, waits: seq<nat>, rest: Submission): Submission {
    Submission(replies + rest.replies, waits + rest.waits, rest.resultImage, rest.error, rest.apiRetries)
  }

  /** The file name `handleDownload` gives the image. */
  function DownloadName(productName: string): string {
    Lower(DashWhitespace(productName)) + DownloadSuffix
  }

  /** `replace(/\s+/g, '-')`: every maximal run of whitespace becomes one dash. */
  function DashWhitespace(s: string): (r: string)
    ensures forall i :: 0 <= i < |r| ==> !IsWhitespace(r[i])
  {
    Collapse(s, false)
  }

  /** The replacement from a point where `inRun` says whether the character
      just before was whitespace: a run yields its dash at its first character. */
  function Collapse(s: string, inRun: bool): (r: string)
    ensures forall i :: 0 <= i < |r| ==> !IsWhitespace(r[i])
  {
    if s == [] then []
    else if IsWhitespace(s[0]) then (if inRun then "" else "-") + Collapse(s[1..], true)
    else [s[0]] + Collapse(s[1..], false)
  }

  /** Whether a run is open after reading `s` from state `inRun`. */
  function RunAfter(s: string, inRun: bool): bool {
    if s == [] then inRun else IsWhitespace(s[|s| - 1])
  }

  /** The form data of the WhatsApp request. */
  function WhatsAppData(imageUrl: string, f: FormState): seq<Entry> {
    [Entry("imageUrl", Str(imageUrl)), Entry("phoneNumber", Str(f.phoneNumber)),
     Entry("message", Str("Here's your marketing image for " + f.productName + "!"))]
  }

  // ---------------------------------------------------------------------------
  // The component

  class ImageGenerationForm {
    var form: FormState
    var imagePreview: Option<string>
    var loading: bool
    var error: string
    var resultImage: Option<string>
    var apiRetries: nat
    var whatsappSent: bool
    var whatsappLoading: bool

    /** Between two handlers nothing is loading, and `apiRetries` is the
        index of an attempt. */
    predicate Valid()
      reads this
    {
      !loading && !whatsappLoading && apiRetries < MaxRetries
    }

    /** The state on first render. */
    constructor()
      ensures Valid()
      ensures form == InitialForm && imagePreview == None && error == "" && resultImage == None
      ensures apiRetries == 0 && !whatsappSent
    {
      form := InitialForm;
      imagePreview := None;
      loading := false;
      error := "";
      resultImage := None;
      apiRetries := 0;
      whatsappSent := false;
      whatsappLoading := false;
    }

    /** `validate`: sets or clears the required-fields error. */
    method Validate() returns (ok: bool)
      modifies this`error
      ensures ok <==> Complete(form)
      ensures error == if ok then "" else RequiredFieldsMessage
    {
      if form.companyName == "" || form.productName == "" || form.price == "" || form.image.None? {
        error := RequiredFieldsMessage;
        return false;
      }
      error := "";
      return true;
    }

    /** `handleSubmit`: validation, then up to three POSTs with a linearly
        growing wait in between; `replies` and `waits` are the replies
        received and the delays waited. */
    method HandleSubmit(server: (nat, seq<Entry>) -> HttpReply) returns (replies: seq<HttpReply>, waits: seq<nat>)
      requires Valid()
      modifies this
      ensures Valid()
      ensures form == old(form) && imagePreview == old(imagePreview) && whatsappSent == old(whatsappSent)
      ensures !Complete(form) ==>
        replies == [] && waits == [] && error == RequiredFieldsMessage
        && resultImage == old(resultImage) && apiRetries == old(apiRetries)
      ensures Complete(form) ==>
        var s := Submit(RequestData(form), server);
        replies == s.replies && waits == s.waits
        && resultImage == s.resultImage && error == s.error && apiRetries == s.apiRetries
    {
      replies, waits := [], [];
      var ok := Validate();
      if !ok {
        return;
      }
      loading := true;
      var run := RunSubmit(RequestData(form), server);
      replies, waits := run.replies, run.waits;
      resultImage, error, apiRetries := run.resultImage, run.error, run.apiRetries;
      loading := false;
    }

    /** `handleReset`: the initial form, and no preview, result, error or
        WhatsApp confirmation. */
    method HandleReset()
      requires Valid()
      modifies this
      ensures Valid()
      ensures form == InitialForm && imagePreview == None && resultImage == None && error == ""
      ensures !whatsappSent
      ensures apiRetries == old(apiRetries)
    {
      form := InitialForm;
      imagePreview := None;
      resultImage := None;
      error := "";
      whatsappSent := false;
    }

    /** `handleDownload`: nothing without a result (no URL, or an empty one); otherwise the file name
        the image is saved under, or the download error when fetching the
        image fails (`fetched` says whether it succeeded). */
    method HandleDownload(fetched: bool) returns (fileName: Option<string>)
      modifies this`error
      ensures !Given(resultImage) ==> fileName == None && error == old(error)
      ensures Given(resultImage) && fetched ==> fileName == Some(DownloadName(form.productName)) && error == old(error)
      ensures Given(resultImage) && !fetched ==> fileName == None && error == DownloadFailedMessage
    {
      if !Given(resultImage) {
        return None;
      }
      if !fetched {
        error := DownloadFailedMessage;
        return None;
      }
      fileName := Some(Lower(DashWhitespace(form.productName)) + DownloadSuffix);
    }

    /** `sendToWhatsApp`: nothing is sent without a result (a non-empty URL)
        and a phone number; otherwise one request, after which the
        confirmation is set or the error shown. `request` is what was sent. */
    method SendToWhatsApp(send: seq<Entry> -> HttpReply) returns (request: Option<seq<Entry>>)
      requires Valid()
      modifies this`whatsappLoading, this`whatsappSent, this`error
      ensures Valid()
      ensures !Given(resultImage) || form.phoneNumber == "" ==>
        request == None && whatsappSent == old(whatsappSent) && error == old(error)
      ensures Given(resultImage) && form.phoneNumber != "" ==>
        var data := WhatsAppData(resultImage.value, form);
        var reply := send(data);
        && request == Some(data)
        && whatsappSent == (old(whatsappSent) || reply.Ok?)
        && error == (if reply.Ok? then old(error) else WhatsAppErrorPrefix + ErrorMessage(reply, WhatsAppFailedMessage))
    {
      if !Given(resultImage) || form.phoneNumber == "" {
        return None;
      }
      whatsappLoading := true;
      var data := WhatsAppData(resultImage.value, form);
      var reply := send(data);
      request := Some(data);
      if reply.Ok? {
        whatsappSent := true;
      } else {
        error := WhatsAppErrorPrefix + ErrorMessage(reply, WhatsAppFailedMessage);
      }
      whatsappLoading := false;
    }
  }

  /** The retry loop of `handleSubmit`, on the posted form data. */
  method RunSubmit(data: seq<Entry>, server: (nat, seq<Entry>) -> HttpReply) returns (s: Submission)
    ensures s == Submit(data, server)
  {
    var replies: seq<HttpReply> := [];
    var waits: seq<nat> := [];
    var resultImage: Option<string> := None;
    var error := "";
    var apiRetries: nat := 0;
    var currentRetry: nat := 0;
    while currentRetry < MaxRetries
      invariant currentRetry < MaxRetries
      invariant Submit(data, server) == Then(replies, waits, SubmitFrom(data, server, currentRetry))
      decreases MaxRetries - currentRetry
    {
      apiRetries := currentRetry;
      var reply := server(currentRetry, data);
      ghost var here := SubmitFrom(data, server, currentRetry);
      replies := replies + [reply];
      if reply.Ok? {
        resultImage := reply.imageUrl;
        assert here == Submission([reply], [], reply.imageUrl, "", currentRetry);
        break;
      }
      var message := ErrorMessage(reply, RequestFailedMessage);
      currentRetry := currentRetry + 1;
      if currentRetry == MaxRetries {
        error := FailedAfter(message);
        assert here == Submission([reply], [], None, error, currentRetry - 1);
        break;
      }
      ghost var rest := SubmitFrom(data, server, currentRetry);
      assert here == Then([reply], [RetryDelayMs * currentRetry], rest);
      ThenTwice(replies[..|replies| - 1], waits, [reply], [RetryDelayMs * currentRetry], rest);
      assert replies[..|replies| - 1] + [reply] == replies;
      waits := waits + [RetryDelayMs * currentRetry];
    }
    s := Submission(replies, waits, resultImage, error, apiRetries);
  }

  lemma ThenTwice(r1: seq<HttpReply>, w1: seq<nat>, r2: seq<HttpReply>, w2: seq<nat>, rest: Submission)
    ensures Then(r1, w1, Then(r2, w2, rest)) == Then(r1 + r2, w1 + w2, rest)
  {
    assert r1 + (r2 + rest.replies) == (r1 + r2) + rest.replies;
    assert w1 + (w2 + rest.waits) == (w1 + w2) + rest.waits;
  }

  // ---------------------------------------------------------------------------
  // What the submit loop does

  /** A failed attempt that is not the last one is followed by the run from
      the next attempt, after a wait of 1000 ms times the failures so far. */
  lemma SubmitFromCons(data: seq<Entry>, server: (nat, seq<Entry>) -> HttpReply, currentRetry: nat)
    requires currentRetry < MaxRetries
    ensures var s := SubmitFrom(data, server, currentRetry);
      var reply := server(currentRetry, data);
      && s.replies[0] == reply
      && (|s.replies| > 1 ==>
            && !reply.Ok? && currentRetry + 1 < MaxRetries
            && s.replies == [reply] + SubmitFrom(data, server, currentRetry + 1).replies
            && s.waits == [RetryDelayMs * (currentRetry + 1)] + SubmitFrom(data, server, currentRetry + 1).waits)
  {
  }

  /** Attempt k of a run from `currentRetry` posts the same data as attempt
      `currentRetry + k`, every attempt before the last failed, and the k-th
      wait is 1000 ms times the number of failures so far. */
  lemma {:induction false} SubmitFromAttempts(data: seq<Entry>, server: (nat, seq<Entry>) -> HttpReply, currentRetry: nat)
    requires currentRetry < MaxRetries
    ensures var s := SubmitFrom(data, server, currentRetry);
      && (forall k :: 0 <= k < |s.replies| ==> s.replies[k] == server(currentRetry + k, data))
      && (forall k :: 0 <= k < |s.replies| - 1 ==> !s.replies[k].Ok?)
      && (forall k :: 0 <= k < |s.waits| ==> s.waits[k] == RetryDelayMs * (currentRetry + k + 1))
    decreases MaxRetries - currentRetry
  {
    SubmitFromCons(data, server, currentRetry);
    var s := SubmitFrom(data, server, currentRetry);
    if |s.replies| > 1 {
      SubmitFromAttempts(data, server, currentRetry + 1);
      var rest := SubmitFrom(data, server, currentRetry + 1);
      assert forall k :: 1 <= k < |s.replies| ==> s.replies[k] == rest.replies[k - 1];
      assert forall k :: 1 <= k < |s.waits| ==> s.waits[k] == rest.waits[k - 1];
    }
  }

  /** The run ends with the first success, whose URL it shows, or after the
      third failure, with the final error and no image. */
  lemma {:induction false} SubmitFromOutcome(data: seq<Entry>, server: (nat, seq<Entry>) -> HttpReply, currentRetry: nat)
    requires currentRetry < MaxRetries
    ensures var s := SubmitFrom(data, server, currentRetry);
      var last := s.replies[|s.replies| - 1];
      && (last.Ok? ==> s.resultImage == last.imageUrl && s.error == "")
      && (!last.Ok? ==> |s.replies| == MaxRetries - currentRetry && s.resultImage == None
                        && s.error == FailedAfter(ErrorMessage(last, RequestFailedMessage)))
    decreases MaxRetries - currentRetry
  {
    var reply := server(currentRetry, data);
    if !reply.Ok? && currentRetry + 1 < MaxRetries {
      SubmitFromOutcome(data, server, currentRetry + 1);
      var rest := SubmitFrom(data, server, currentRetry + 1);
      var s := SubmitFrom(data, server, currentRetry);
      assert s.replies[|s.replies| - 1] == rest.replies[|rest.replies| - 1];
    }
  }

  /** The loop stops at the first success: the replies before it all failed,
      and its URL is the image shown, with no error. */
  lemma SubmitStopsAtFirstSuccess(data: seq<Entry>, server: (nat, seq<Entry>) -> HttpReply, k: nat)
    requires k < MaxRetries && server(k, data).Ok?
    requires forall j :: 0 <= j < k ==> !server(j, data).Ok?
    ensures var s := Submit(data, server);
      |s.replies| == k + 1 && s.resultImage == server(k, data).imageUrl && s.error == "" && s.apiRetries == k
  {
    SubmitFromAttempts(data, server, 0);
    SubmitFromOutcome(data, server, 0);
    var s := Submit(data, server);
    var last := |s.replies| - 1;
    assert s.replies[last] == server(last, data);
    assert k < |s.replies| ==> s.replies[k] == server(k, data);
  }

  /** Three failures in a row: three POSTs, waits of 1 s and 2 s, no image,
      and the error built from the third failure. */
  lemma SubmitGivesUpAfterThreeFailures(data: seq<Entry>, server: (nat, seq<Entry>) -> HttpReply)
    requires forall j :: 0 <= j < MaxRetries ==> !server(j, data).Ok?
    ensures var s := Submit(data, server);
      && |s.replies| == MaxRetries && s.waits == [1000, 2000] && s.resultImage == None
      && s.error == FailedAfter(ErrorMessage(server(2, data), RequestFailedMessage))
      && s.apiRetries == 2
  {
    SubmitFromAttempts(data, server, 0);
    SubmitFromOutcome(data, server, 0);
    var s := Submit(data, server);
    assert s.replies[|s.replies| - 1] == server(|s.replies| - 1, data);
  }

  /** An error is left exactly when no attempt succeeded. */
  lemma SubmitErrorIffAllFailed(data: seq<Entry>, server: (nat, seq<Entry>) -> HttpReply)
    ensures var s := Submit(data, server);
      s.error != "" <==> forall j :: 0 <= j < MaxRetries ==> !server(j, data).Ok?
  {
    SubmitFromAttempts(data, server, 0);
    SubmitFromOutcome(data, server, 0);
    var s := Submit(data, server);
    var last := s.replies[|s.replies| - 1];
    assert last == server(|s.replies| - 1, data);
    if last.Ok? {
      assert !(forall j :: 0 <= j < MaxRetries ==> !server(j, data).Ok?);
    } else {
      assert |FailedAfter(ErrorMessage(last, RequestFailedMessage))| > 0;
      forall j | 0 <= j < MaxRetries
        ensures !server(j, data).Ok?
      {
        assert s.replies[j] == server(j, data);
      }
    }
  }

  // ---------------------------------------------------------------------------
  // The posted form as the route reads it

  lemma GetAfter(a: seq<Entry>, b: seq<Entry>, name: string)
    requires forall i :: 0 <= i < |a| ==> a[i].name != name
    ensures Get(a + b, name) == Get(b, name)
  {
    if a != [] {
      assert (a + b)[1..] == a[1..] + b;
      GetAfter(a[1..], b, name);
    } else {
      assert a + b == b;
    }
  }

  lemma {:induction false} GetAt(entries: seq<Entry>, i: nat, name: string)
    requires i < |entries| && entries[i].name == name
    requires forall j :: 0 <= j < i ==> entries[j].name != name
    ensures Get(entries, name) == Some(entries[i].value)
  {
    if i > 0 {
      GetAt(entries[1..], i - 1, name);
    }
  }

  /** A field among the six text entries is read from them. */
  lemma TextFieldSent(f: FormState, i: nat, name: string)
    requires i < 6 && TextEntries(f)[i].name == name
    requires forall j :: 0 <= j < i ==> TextEntries(f)[j].name != name
    ensures TextField(RequestData(f), name) == TextEntries(f)[i].value.text
  {
    GetAt(TextEntries(f) + OptionalEntries(f), i, name);
  }

  /** The route reads back the company, product and price the form sent. */
  lemma RouteReadsRequired(f: FormState)
    ensures var r := ImagePost.ReadForm(RequestData(f));
      r.companyName == f.companyName && r.productName == f.productName && r.price == f.price
  {
    TextFieldSent(f, 0, "company_name");
    TextFieldSent(f, 1, "product_name");
    TextFieldSent(f, 2, "price");
  }

  /** The route reads back the tagline and the address the form sent. */
  lemma RouteReadsDescription(f: FormState)
    ensures var r := ImagePost.ReadForm(RequestData(f));
      r.tagline == f.tagline && r.address == f.address
  {
    TextFieldSent(f, 3, "tagline");
    TextFieldSent(f, 4, "address");
  }

  /** The route reads back the product type the form sent, "general" when it
      is empty. */
  lemma RouteReadsProductType(f: FormState)
    ensures ImagePost.ReadForm(RequestData(f)).productType == if f.productType != "" then f.productType else "general"
  {
    TextFieldSent(f, 5, "product_type");
  }

  /** The phone number is sent only when one was given, and the image exactly
      when one was chosen. */
  lemma RequestOptionalFields(f: FormState)
    ensures Get(RequestData(f), "phone_number") == if f.phoneNumber != "" then Some(Str(f.phoneNumber)) else None
    ensures Get(RequestData(f), "image") == if f.image.Some? then Some(Blob(f.image.value.name, f.image.value.bytes)) else None
  {
    var head, tail := TextEntries(f), OptionalEntries(f);
    assert forall j :: 0 <= j < |head| ==> head[j].name != "phone_number" && head[j].name != "image";
    GetAfter(head, tail, "phone_number");
    GetAfter(head, tail, "image");
    var phone := if f.phoneNumber != "" then [Entry("phone_number", Str(f.phoneNumber))] else [];
    var image := if f.image.Some? then [Entry("image", Blob(f.image.value.name, f.image.value.bytes))] else [];
    assert tail == phone + image;
    GetAfter(phone, image, "image");
    if f.phoneNumber != "" {
      GetAt(tail, 0, "phone_number");
    } else {
      assert tail == image;
    }
  }

  /** The route's validation accepts the posted data exactly when `validate`
      accepts the form. */
  lemma ClientAndRouteAgree(f: FormState)
    ensures Complete(f) <==> ImagePost.HasRequiredFields(ImagePost.ReadForm(RequestData(f)))
  {
    RouteReadsRequired(f);
    RequestOptionalFields(f);
  }

  // ---------------------------------------------------------------------------
  // The download name

  lemma ConcatAssoc(p: string, q: string, r: string)
    ensures p + (q + r) == (p + q) + r
  {
  }

  /** Collapsing a concatenation collapses its parts, the second from the
      state the first leaves. */
  lemma {:induction false} CollapseAppend(a: string, t: string, inRun: bool)
    ensures Collapse(a + t, inRun) == Collapse(a, inRun) + Collapse(t, RunAfter(a, inRun))
    decreases |a|
  {
    if a == [] {
      assert a + t == t;
    } else {
      var head := if IsWhitespace(a[0]) then (if inRun then "" else "-") else [a[0]];
      var next := IsWhitespace(a[0]);
      assert (a + t)[0] == a[0];
      assert (a + t)[1..] == a[1..] + t;
      CollapseAppend(a[1..], t, next);
      assert RunAfter(a[1..], next) == RunAfter(a, inRun) by {
        if a[1..] != [] {
          assert a[1..][|a[1..]| - 1] == a[|a| - 1];
        }
      }
      ConcatAssoc(head, Collapse(a[1..], next), Collapse(t, RunAfter(a, inRun)));
    }
  }

  /** A run of whitespace yields one dash, or nothing when a run is already
      open, and leaves a run open. */
  lemma {:induction false} CollapseRun(w: string, inRun: bool)
    requires forall i :: 0 <= i < |w| ==> IsWhitespace(w[i])
    requires |w| > 0
    ensures Collapse(w, inRun) == if inRun then "" else "-"
    ensures RunAfter(w, inRun)
    decreases |w|
  {
    if |w| > 1 {
      CollapseRun(w[1..], true);
    } else {
      assert w[1..] == [];
    }
  }

  /** The open run matters only when the text starts with whitespace. */
  lemma CollapseFresh(b: string)
    requires b == [] || !IsWhitespace(b[0])
    ensures Collapse(b, true) == Collapse(b, false)
  {
  }

  /** A run of whitespace between two other characters becomes a single dash,
      whatever surrounds it. */
  lemma DashWhitespaceRun(a: string, w: string, b: string)
    requires |w| > 0 && forall i :: 0 <= i < |w| ==> IsWhitespace(w[i])
    requires a == [] || !IsWhitespace(a[|a| - 1])
    requires b == [] || !IsWhitespace(b[0])
    ensures DashWhitespace(a + w + b) == DashWhitespace(a) + "-" + DashWhitespace(b)
  {
    ConcatAssoc(a, w, b);
    CollapseAppend(a, w + b, false);
    CollapseAppend(w, b, false);
    CollapseRun(w, false);
    CollapseFresh(b);
    ConcatAssoc(Collapse(a, false), "-", Collapse(b, false));
  }

  lemma {:induction false} DashWhitespaceKeeps(s: string)
    requires forall i :: 0 <= i < |s| ==> !IsWhitespace(s[i])
    ensures Collapse(s, false) == s
    decreases |s|
  {
    if s != [] {
      DashWhitespaceKeeps(s[1..]);
      assert [s[0]] + s[1..] == s;
    }
  }

  /** The download name has no whitespace and no capital letter and ends in
      "-marketing-image.jpg"; a lower-case name without spaces is kept as is. */
  lemma DownloadNameShape(productName: string)
    ensures var n := DownloadName(productName);
      && (forall i :: 0 <= i < |n| ==> !IsWhitespace(n[i]) && !IsUpper(n[i]))
      && n[|n| - |DownloadSuffix|..] == DownloadSuffix
    ensures (forall i :: 0 <= i < |productName| ==> !IsWhitespace(productName[i]) && !IsUpper(productName[i]))
      ==> DownloadName(productName) == productName + DownloadSuffix
  {
    var d := DashWhitespace(productName);
    var l := Lower(d);
    var n := l + DownloadSuffix;
    assert forall i :: 0 <= i < |DownloadSuffix| ==> !IsWhitespace(DownloadSuffix[i]) && !IsUpper(DownloadSuffix[i]);
    forall i | 0 <= i < |n|
      ensures !IsWhitespace(n[i]) && !IsUpper(n[i])
    {
      if i < |l| {
        assert n[i] == LowerChar(d[i]);
      } else {
        assert n[i] == DownloadSuffix[i - |l|];
      }
    }
    assert n[|n| - |DownloadSuffix|..] == DownloadSuffix;
    if forall i :: 0 <= i < |productName| ==> !IsWhitespace(productName[i]) && !IsUpper(productName[i]) {
      DashWhitespaceKeeps(productName);
      assert l == productName;
    }
  }
}
