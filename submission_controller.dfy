/** The request handlers of controllers/submissionController.js.

    The provider is replaced by its scripted answers (`ProviderScript`) and the
    document store by the outcome of each query; a handler yields the page it
    renders and, for `submitForm`, the effects it causes, in order. */
module SubmissionController {
  import opened Common
  import opened LightxService

  /** A file as the upload middleware hands it over. */
  datatype UploadedFile = UploadedFile(buffer: Bytes, mimetype: string)

  /** `name`, `email` and `phone` of the request body. */
  datatype FormFields = FormFields(name: string, email: string, phone: string)

  /** The document `submitForm` inserts; `createdAt` is the clock reading. */
  datatype SubmissionRecord = SubmissionRecord(
    name: string, email: string, phone: string,
    originalImageUrl: string, styleImageUrl: string, swappedImageUrl: string,
    termsAccepted: bool, createdAt: int)

  /** A stored document: the inserted fields plus the identifier the store generated. */
  datatype StoredSubmission = StoredSubmission(id: string, record: SubmissionRecord)

  /** The provider's answers to the requests of one submission, request by request. */
  datatype ProviderScript = ProviderScript(
    inputNegotiation: UploadUrlExchange, inputTransfer: Exchange<PutReply>,
    styleNegotiation: UploadUrlExchange, styleTransfer: Exchange<PutReply>,
    swap: SwapExchange, statusReplies: nat -> StatusExchange)

  /** What `submitForm` causes outside itself, in order. */
  datatype Effect = Provider(call: Call) | InsertSubmission(record: SubmissionRecord)

  /** What a handler renders. */
  datatype Page =
    | FormPage(status: nat, errors: seq<string>, formData: FormFields)
    | SuccessPage(submission: StoredSubmission, message: string)
    | ListPage(submissions: seq<StoredSubmission>, currentPage: int, totalPages: nat)
    | DetailPage(submission: StoredSubmission)
    | ErrorPage(status: nat, message: string)

  const ImagesRequired := "Both input and style images are required"
  const SubmissionFailed := "Submission failed. Please try again."
  const SwapCompleted := "\U{2705} Face swap completed successfully!"

  /** Provider calls as controller effects. */
  function AsEffects(calls: seq<Call>): (effects: seq<Effect>)
    ensures |effects| == |calls|
    ensures forall i :: 0 <= i < |calls| ==> effects[i] == Provider(calls[i])
  {
    seq(|calls|, i requires 0 <= i < |calls| => Provider(calls[i]))
  }

  // ---------------------------------------------------------------------------
  // submitForm

  /** `submitForm`: both images must be present; upload the input image, then
      the style image, request the swap of the two returned URLs, and only then
      insert the submission. Anything thrown on the way renders the form again
      with status 500. `store` is the insert's outcome (an identifier, or the
      error it throws); `now` is the clock reading for `createdAt`. */
  method SubmitForm(fields: FormFields, image: Option<UploadedFile>, styleImage: Option<UploadedFile>,
                    provider: ProviderScript, store: Result<string, string>, now: int)
    returns (page: Page, effects: seq<Effect>)
    ensures SubmitFormPost(fields, image, styleImage, provider, store, now, page, effects)
    // any error thrown on the way gives the generic 500 page and no success page
    ensures image.Some? && styleImage.Some? && !page.SuccessPage? ==>
      page == FormPage(500, [SubmissionFailed], fields)
    ensures page.SuccessPage? ==> store.Success? && |effects| > 0 && effects[|effects| - 1].InsertSubmission?
  {
    effects := [];
    if image.None? || styleImage.None? {
      return FormPage(400, [ImagesRequired], fields), effects;
    }
    var input, style := image.value, styleImage.value;

    var originalImageUrl, inputCalls := UploadImage(input.buffer, input.mimetype, provider.inputNegotiation, provider.inputTransfer);
    effects := effects + AsEffects(inputCalls);
    if originalImageUrl.Failure? {
      return FormPage(500, [SubmissionFailed], fields), effects;
    }

    var styleImageUrl, styleCalls := UploadImage(style.buffer, style.mimetype, provider.styleNegotiation, provider.styleTransfer);
    effects := effects + AsEffects(styleCalls);
    if styleImageUrl.Failure? {
      return FormPage(500, [SubmissionFailed], fields), effects;
    }

    var swappedImageUrl, swapCalls := PerformFaceSwap(originalImageUrl.value, styleImageUrl.value, provider.swap, provider.statusReplies);
    effects := effects + AsEffects(swapCalls);
    if swappedImageUrl.Failure? {
      return FormPage(500, [SubmissionFailed], fields), effects;
    }

    var record := SubmissionRecord(fields.name, fields.email, fields.phone,
      originalImageUrl.value, styleImageUrl.value, swappedImageUrl.value, true, now);
    effects := effects + [InsertSubmission(record)];
    if store.Failure? {
      return FormPage(500, [SubmissionFailed], fields), effects;
    }
    page := SuccessPage(StoredSubmission(store.value, record), SwapCompleted);
  }

  /** Nothing is inserted unless the swap produced an output: the inserted
      record's swapped URL is the output the poll returned, after the provider
      accepted the swap request. */
  lemma InsertOnlyAfterSwap(fields: FormFields, image: Option<UploadedFile>, styleImage: Option<UploadedFile>,
                            provider: ProviderScript, store: Result<string, string>, now: int,
                            page: Page, effects: seq<Effect>, i: nat)
    requires SubmitFormPost(fields, image, styleImage, provider, store, now, page, effects)
    requires i < |effects| && effects[i].InsertSubmission?
    ensures i == |effects| - 1
    ensures image.Some? && styleImage.Some? && Accepted(provider.swap)
    ensures effects[i].record.termsAccepted && |effects[i].record.swappedImageUrl| > 0
  {
    var input := UploadRun(image.value.buffer, image.value.mimetype, provider.inputNegotiation, provider.inputTransfer);
    var style := UploadRun(styleImage.value.buffer, styleImage.value.mimetype, provider.styleNegotiation, provider.styleTransfer);
    if input.outcome.Success? && style.outcome.Success? {
      var swap := SwapRun(input.outcome.value, style.outcome.value, provider.swap, provider.statusReplies);
      if swap.outcome.Success? {
        PollOutputComesFromActive(RetryBudget(provider.swap.reply.json.body.maxRetriesAllowed), provider.statusReplies);
      }
    }
  }

  /** The order of `submitForm`'s effects and what it renders, given the
      provider's and the store's answers. */
  ghost predicate SubmitFormPost(fields: FormFields, image: Option<UploadedFile>, styleImage: Option<UploadedFile>,
                                 provider: ProviderScript, store: Result<string, string>, now: int,
                                 page: Page, effects: seq<Effect>)
  {
    // a missing image is rejected before anything else happens
    && (image.None? || styleImage.None? ==> page == FormPage(400, [ImagesRequired], fields) && effects == [])
    && (image.Some? && styleImage.Some? ==>
      var input := UploadRun(image.value.buffer, image.value.mimetype, provider.inputNegotiation, provider.inputTransfer);
      var style := UploadRun(styleImage.value.buffer, styleImage.value.mimetype, provider.styleNegotiation, provider.styleTransfer);
      // the input image is uploaded first; a failure there stops everything
      && (input.outcome.Failure? ==> effects == AsEffects(input.calls))
      // the style image second; a failure there stops before the swap
      && (input.outcome.Success? && style.outcome.Failure? ==> effects == AsEffects(input.calls) + AsEffects(style.calls))
      // the swap is requested with the two returned URLs, in that order
      && (input.outcome.Success? && style.outcome.Success? ==>
          var swap := SwapRun(input.outcome.value, style.outcome.value, provider.swap, provider.statusReplies);
          var uploadsAndSwap := AsEffects(input.calls) + AsEffects(style.calls) + AsEffects(swap.calls);
          && (swap.outcome.Failure? ==> effects == uploadsAndSwap)
          // the insert comes last, only after the swap succeeded, and stores the three URLs
          && (swap.outcome.Success? ==>
              var record := SubmissionRecord(fields.name, fields.email, fields.phone,
                input.outcome.value, style.outcome.value, swap.outcome.value, true, now);
              && effects == uploadsAndSwap + [InsertSubmission(record)]
              && (store.Success? ==> page == SuccessPage(StoredSubmission(store.value, record), SwapCompleted)))))
  }

  // ---------------------------------------------------------------------------
  // displaySubmissions

  const PageSize: nat := 10

  /** `parseInt(req.query.page) || 1`, with the parse result given as an
      optional integer (None for NaN). */
  function PageNumber(pageParam: Option<int>): (page: int)
    ensures page != 0
    ensures pageParam.Some? && pageParam.value != 0 ==> page == pageParam.value
    ensures pageParam == None || pageParam == Some(0) ==> page == 1
  {
    if pageParam.Some? && pageParam.value != 0 then pageParam.value else 1
  }

  /** `Math.ceil(totalCount / limit)`: the least number of pages of ten that holds every document. */
  function TotalPages(count: nat): (pages: nat)
    ensures pages * PageSize >= count
    ensures count > 0 ==> (pages - 1) * PageSize < count
    ensures count == 0 ==> pages == 0
  {
    (count + PageSize - 1) / PageSize
  }

  /** Documents the listing query skips for a page: the ones on the pages before it. */
  function Skip(page: int): (skip: int)
    ensures skip % PageSize == 0 && skip / PageSize == page - 1
    ensures page >= 1 ==> skip >= 0
    ensures page < 1 ==> skip <= 0
  {
    (page - 1) * PageSize
  }

  /** `displaySubmissions`: `findAll(limit, skip)` is the store's answer to the
      query for `limit` documents after `skip`, and `count` its answer to the
      count; an error from either renders the 500 error page. */
  function DisplaySubmissions(pageParam: Option<int>, findAll: (nat, int) -> Result<seq<StoredSubmission>, string>,
                              count: Result<nat, string>): (page: Page)
    ensures page.ErrorPage? <==> findAll(PageSize, Skip(PageNumber(pageParam))).Failure? || count.Failure?
    ensures page.ErrorPage? ==> page == ErrorPage(500, "Unable to fetch submissions")
    ensures page.ListPage? ==>
      && page.currentPage == PageNumber(pageParam)
      && findAll(PageSize, Skip(page.currentPage)) == Success(page.submissions)
      && page.totalPages == TotalPages(count.value)
      && page.totalPages * PageSize >= count.value
    ensures !page.ErrorPage? ==> page.ListPage?
  {
    var current := PageNumber(pageParam);
    match findAll(PageSize, Skip(current))
    case Failure(_) => ErrorPage(500, "Unable to fetch submissions")
    case Success(submissions) =>
      match count
      case Failure(_) => ErrorPage(500, "Unable to fetch submissions")
      case Success(total) => ListPage(submissions, current, TotalPages(total))
  }

  /** Page p of the listing starts right after the last document of page p - 1,
      and the last page the count announces starts before the count. */
  lemma {:induction false} PagesTile(page: int, count: nat)
    requires page >= 1
    ensures Skip(page + 1) == Skip(page) + PageSize
    ensures count > 0 ==> 0 <= Skip(TotalPages(count)) < count
  {
  }

  // ---------------------------------------------------------------------------
  // displaySubmission

  /** `displaySubmission`: `found` is the store's answer to the lookup by id. */
  function DisplaySubmission(found: Result<Option<StoredSubmission>, string>): (page: Page)
    ensures page == ErrorPage(404, "Submission not found") <==> found == Success(None)
    ensures page.DetailPage? <==> found.Success? && found.value.Some?
    ensures page.DetailPage? ==> page.submission == found.value.value
    ensures found.Failure? ==> page == ErrorPage(500, "Unable to fetch submission")
  {
    match found
    case Failure(_) => ErrorPage(500, "Unable to fetch submission")
    case Success(None) => ErrorPage(404, "Submission not found")
    case Success(Some(submission)) => DetailPage(submission)
  }
}
