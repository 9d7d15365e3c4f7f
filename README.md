# face-swap, modelled in Dafny

The application takes a name, an e-mail address, a phone number and two
photographs from a web form. It sends both images to the LightX face-swap
service and stores the submission with the three image URLs. It can also
list and show the stored submissions. This project models the parts of it
that decide things:

- `lightx_service.dfy` (module `LightxService`) models the provider client.
  - `uploadImage` asks for an upload URL, then PUTs the bytes to it.
  - `performFaceSwap` requests a swap and then polls the order.
  - `pollOrderStatus` polls up to `maxRetries` times, waiting 3 s before each check.
  - The network is replaced by the provider's answer to each request. The
    poll's answers are a function from check number to answer.
  - Each operation is a method that returns its outcome and the trace of
    calls and waits it made. It is proved equal to a specification function
    (`UploadRun`, `SwapRun`, `Poll`), and the lemmas are stated about those
    functions.
- `submission_controller.dfy` (module `SubmissionController`) models the three request handlers.
  - `submitForm` yields the page it renders and its effects in order: provider calls, then the database insert.
  - `displaySubmissions` covers the pagination arithmetic.
  - `displaySubmission` covers the lookup by id.
  - The database is replaced by its answers.
- `validation.dfy` (module `Validation`) models `sanitizeInput` and `validateImage`.
  - `sanitizeInput` is three left-to-right deleting `replace` passes and `trim`. Each pass is written as the regular-expression scan it performs.
- `error_middleware.dfy` (module `ErrorMiddleware`) models `notFound` and the status and message selection of `errorHandler`.
- `client_script.dfy` (module `ClientScript`) models the browser-side logic.
  - It covers `validateFile`, `validateForm`, `toggleInputValidation`, the camera's facing-mode flip, `getIconForType`, and `FormUtils`.
  - An input element is a class with a `value` and a `classList`.
- `common.dfy` (module `Common`) is shared vocabulary: `Option`, `Result`, JavaScript white space and `trim`, decimal rendering, and the subsequence order.

## Model

| member | source | states |
|---|---|---|
| LightxService.Interpret | services/LightxService.js:27-37 | A JSON reply is accepted iff it arrived, its HTTP status is 2xx and its `statusCode` is 2000, and then the result is its body. Otherwise the result is a network error, an HTTP error carrying status and text, or an API error carrying the message, in that order. |
| LightxService.UploadRun | services/LightxService.js:11-56 | The first call is the upload-URL request with type `imageUrl`, the image size and the content type. No PUT happens unless that request was accepted, and then there is exactly one PUT, to `uploadImage`, with the same content type and bytes. The upload succeeds iff the request was accepted and the PUT answered 2xx, and it returns `imageUrl`. Every failure is the failing step's own error, re-wrapped: the negotiation's network, HTTP or API error, or the PUT's network error or status. Its message starts with "Image upload failed: ". |
| LightxService.UploadImage | services/LightxService.js:11-56 | The method's outcome and call trace are exactly `UploadRun`'s. |
| LightxService.StatusVerdict | services/LightxService.js:111-130 | A non-pending status answer gives the output iff it is accepted with status `active` and a non-empty output. An accepted answer without output ends with "Face swap processing failed". A rejected check ends with that check's own network, HTTP or API error. It never gives a time-out. |
| LightxService.Poll | services/LightxService.js:96-136 | The number of checks never exceeds `max(maxRetries, 0)`. A time-out happens only after exactly `max(maxRetries, 0)` checks that were all pending. Otherwise the last check is the first non-pending one, and it decides the outcome. |
| LightxService.PollCalls | services/LightxService.js:99-109 | The trace of n checks has length 2n, with a 3000 ms wait before each status request for the order. |
| LightxService.PollOrderStatus | services/LightxService.js:96-136 | The loop's outcome and trace are `Poll`'s, with one wait and one status request per check. |
| LightxService.RetryBudget | services/LightxService.js:86 | `maxRetriesAllowed \|\| 5`: a missing value or 0 gives 5, and any other value is kept, negative ones included. |
| LightxService.SwapRun | services/LightxService.js:59-93 | The first call is the swap request with the two URLs. Polling happens only after an accepted swap, and it is the poll of the returned order with the retry budget. Success is exactly the poll's success. Every failure is the failing step's own error, re-wrapped: the swap request's error, or the poll's failure or time-out. Its message starts with "Face swap failed: ". |
| LightxService.PerformFaceSwap | services/LightxService.js:59-93 | The method's outcome and call trace are exactly `SwapRun`'s. |
| LightxService.CountsDistribute | services/LightxService.js:99-109 | Counting status checks and waits distributes over concatenated traces. |
| LightxService.WaitsMatchChecks | services/LightxService.js:99-109 | A poll of n checks makes exactly n waits and n status requests. |
| LightxService.PollBounded | services/LightxService.js:99 | A poll makes at most `max(maxRetries, 0)` checks. |
| LightxService.PollStopsAtFirstTerminal | services/LightxService.js:99-132 | When the first k answers are pending and answer k is not, the poll makes k+1 checks and answer k decides the outcome. |
| LightxService.PollTimesOut | services/LightxService.js:99-135 | When every answer within the budget is pending, the poll ends with "Face swap processing timed out" after `max(maxRetries, 0)` checks. |
| LightxService.PollOutputComesFromActive | services/LightxService.js:123-127 | A successful poll returns the output of an accepted `active` answer with a non-empty output. |
| LightxService.RetryBudgetEdges | services/LightxService.js:86-88 | A missing or zero budget means 5 checks. A negative budget means no check at all and an immediate time-out. |
| LightxService.ThreeCheckScenario | services/LightxService.js:59-136 | With a budget of 3, two pending answers and then an active one give that output after three waits and three checks. |
| SubmissionController.SubmitForm | controllers/submissionController.js:11-51 | A missing image gives 400 with "Both input and style images are required" and no effect. Otherwise the input image is uploaded, then the style image, then the swap of the two URLs is requested, and only then the record is inserted, each step stopping the rest when it fails. Any failure renders the form with 500 and "Submission failed. Please try again.". A success page needs a stored insert. |
| SubmissionController.InsertOnlyAfterSwap | controllers/submissionController.js:25-41 | The insert is the last effect. It happens only when both images are present and the swap was accepted. It stores `termsAccepted` as true and a non-empty swapped URL. |
| SubmissionController.PageNumber | controllers/submissionController.js:55 | The page is the parsed value when it is non-zero, and otherwise 1. |
| SubmissionController.TotalPages | controllers/submissionController.js:61 | The page count is the ceiling of count/10: the pages hold every document, and the last page is not empty. |
| SubmissionController.Skip | controllers/submissionController.js:56-57 | For every page p, the skip is 10·(p−1): a multiple of 10, non-negative for p ≥ 1, and not positive for the pages ≤ 0 that `parseInt` lets through. |
| SubmissionController.DisplaySubmissions | controllers/submissionController.js:53-68 | The 500 page with "Unable to fetch submissions" appears iff the listing or the count fails. Otherwise the page lists the documents the query returned for limit 10 and the computed skip, and its page count is exactly `TotalPages` of the count. |
| SubmissionController.PagesTile | controllers/submissionController.js:56-61 | Consecutive pages are adjacent. The last announced page starts inside the collection. |
| SubmissionController.DisplaySubmission | controllers/submissionController.js:70-82 | A missing submission gives 404 "Submission not found" and a failing lookup gives 500 "Unable to fetch submission". Otherwise the page shows the found submission. |
| Validation.StripTagsDeletes | utils/validation.js:9 | About `StripTags`, the `<[^>]*>` scan: tag stripping only deletes characters, and it leaves no `<` with a `>` after it. |
| Validation.RemoveJsProtocolDeletes | utils/validation.js:10 | About `RemoveJsProtocol`, the `/javascript:/gi` scan: removing `javascript:`, in any letter case, only deletes characters. |
| Validation.RemoveHandlersDeletes | utils/validation.js:11 | About `RemoveHandlers`, the `/on\w+="[^"]*"/gi` scan: removing `on…="…"` handlers only deletes characters. |
| Validation.Sanitize | utils/validation.js:8-12 | The sanitised string has no white space at either end. |
| Validation.SanitizeDeletes | utils/validation.js:8-12 | The sanitised string is a subsequence of the input, no longer than it. No `<…>` span survives the later passes. |
| Validation.SanitizeInput | utils/validation.js:4-13 | Values that are not strings come back unchanged. A string comes back as `Sanitize` of it: a subsequence with no `<…>` span and no white space at either end, equal to the input exactly when the input is clean. |
| Validation.StripTagsKeepsClean | utils/validation.js:9 | A string with no `<…>` span is left as it is by tag stripping. |
| Validation.RemoveJsProtocolKeepsClean | utils/validation.js:10 | A string with no `javascript:` is left as it is. |
| Validation.RemoveHandlersKeepsClean | utils/validation.js:11 | A string with no handler attribute is left as it is. |
| Validation.SanitizeKeepsClean | utils/validation.js:8-12 | A string with no tag span, no `javascript:`, no handler and no surrounding white space is returned unchanged. |
| Validation.RemoveJsProtocolChangesDirty | utils/validation.js:10 | A string the `javascript:` pass leaves unchanged contains no `javascript:` in any letter case: a string that contains one is always changed. |
| Validation.RemoveJsProtocolLeavesOne | utils/validation.js:10 | The single pass can leave a `javascript:` behind: `javajavascript:script:` becomes `javascript:`. |
| Validation.RemoveHandlersChangesDirty | utils/validation.js:11 | A string the handler pass leaves unchanged contains no `on…="…"` handler: a string that contains one is always changed. |
| Validation.SanitizeFixedIffClean | utils/validation.js:8-12 | The sanitiser returns a string unchanged if and only if it has no tag span, no `javascript:`, no handler and no surrounding white space. |
| Validation.ValidateImage | utils/validation.js:55-72 | The image is valid iff it is present, its type is jpeg, jpg or png, and its size is at most 2 MiB. The errors come in that precedence: missing, then type, then size. |
| ErrorMiddleware.NotFound | middleware/errorMiddleware.js:3-10 | A URL under `/.well-known` is answered 204 and nothing is forwarded. Any other URL sets 404 and forwards "Not Found - " + url. |
| ErrorMiddleware.MulterMessage | middleware/errorMiddleware.js:24-33 | `LIMIT_FILE_SIZE` gives "File too large…" and `LIMIT_FILE_COUNT` gives "Too many files uploaded". Every other code gives "File upload error". |
| ErrorMiddleware.SelectReply | middleware/errorMiddleware.js:12-34 | A Multer error always gives 400 with the code's message. Otherwise a CastError on an ObjectId gives 404 "Resource not found". Otherwise the message is kept, and the status is kept except that 200 becomes 500. |
| ErrorMiddleware.ErrorHandler | middleware/errorMiddleware.js:12-49 | HTML clients get the error view and others get JSON, both with the selected status and message. The JSON carries the error's stack only when `NODE_ENV` is `development`. |
| ErrorMiddleware.HandlerNeverAnswersOk | middleware/errorMiddleware.js:13 | The handler never answers with status 200. |
| ErrorMiddleware.MulterWinsOverCast | middleware/errorMiddleware.js:17-34 | An error matching both rules answers 400 and does not answer "Resource not found". |
| ErrorMiddleware.UnknownRouteAnswers404 | middleware/errorMiddleware.js:3-49 | An unknown route outside `/.well-known`, passed through the handler, answers 404 with "Not Found - " + url. |
| ClientScript.ValidateFile | public/js/script.js:237-250 | A file is valid iff its type is allowed and its size is at most 2 MiB. The type error takes precedence over the size error. |
| ClientScript.ValidateFileAgreesWithServer | public/js/script.js:237-250 | The browser's verdict on a present file equals the server's `validateImage`, messages included. |
| ClientScript.EmailOkMatchesPattern | public/js/script.js:351 | About `EmailOk`, the recogniser, and `EmailShape`, the pattern's local@domain.last split: the e-mail recogniser accepts exactly the strings that `/^[^\s@]+@[^\s@]+\.[^\s@]+$/` matches. |
| ClientScript.Failed | public/js/script.js:346-369 | A check adds no message when it passes and its own message when it fails. |
| ClientScript.FormErrors | public/js/script.js:335-375 | The error list is empty iff every field check passes. |
| ClientScript.ValidateForm | public/js/script.js:335-375 | The pushed errors are the messages of the failing checks, in the order name, e-mail, phone, terms, image, each on the trimmed value. The form is valid iff nothing was pushed. |
| ClientScript.FormValidIff | public/js/script.js:346-369 | The form passes iff the trimmed name has 4–30 letters or spaces, the e-mail matches the pattern, the phone is exactly 10 digits, the terms are accepted and an image is selected. |
| ClientScript.ValidationClasses | public/js/script.js:305-318 | An empty value carries neither validity class. Otherwise exactly one is present, and it matches `isValid`. Every other class is untouched. |
| ClientScript.InputElement.ToggleInputValidation | public/js/script.js:305-318 | The class list becomes `ValidationClasses` of the old one, and the value is unchanged. |
| ClientScript.ValidationClassesSettle | public/js/script.js:305-318 | Toggling again with the same verdict changes nothing. |
| ClientScript.Flipped | public/js/script.js:148 | The mode becomes `user` exactly when it was not `user`, and otherwise `environment`. |
| ClientScript.FlipTwiceRestores | public/js/script.js:148 | Two flips restore either camera mode. |
| ClientScript.FaceSwapApp.SwitchFacingMode | public/js/script.js:148 | The mode flips, and it always stays `user` or `environment`. |
| ClientScript.IconLookupAsWritten | public/js/script.js:452-460 | The lookup as written returns the four own icons, and an inherited member exactly for the inherited property names. |
| ClientScript.InheritedKeyYieldsNoIcon | public/js/script.js:459 | For `toString`, the lookup as written yields an inherited member, not an icon name. |
| ClientScript.IconForType | public/js/script.js:452-460 | The four known types get their icons, and every other type gets `info-circle`. |
| ClientScript.IconLookupAgreesOutsideInherited | public/js/script.js:452-460 | Outside the inherited names, the lookup as written and the intended mapping agree. |
| ClientScript.Digits | public/js/script.js:477 | Removing `\D` leaves a subsequence that is all digits and keeps every digit of the input, as often as it occurs. |
| ClientScript.FormatPhoneValue | public/js/script.js:475-485 | Only digits remain, at most 10 of them, forming a prefix of the input's digits. There are exactly min(10, number of digits) of them. |
| ClientScript.FormatPhoneIdempotent | public/js/script.js:475-485 | Formatting a formatted phone number changes nothing. |
| ClientScript.InputElement.FormatPhone | public/js/script.js:475-485 | The input's value becomes `FormatPhoneValue` of the old one, and the classes are unchanged. |
| ClientScript.NameChars | public/js/script.js:489 | Only ASCII letters and white space remain, as a subsequence of the input, and every letter and white-space character of the input is kept as often as it occurs. |
| ClientScript.CapitalizeWords | public/js/script.js:492 | Length and character classes are preserved, and each character is either kept or upper-cased. |
| ClientScript.CapitalizeWordsAt | public/js/script.js:492 | Exactly the word-start characters are upper-cased. |
| ClientScript.FormatNameValue | public/js/script.js:487-495 | Only letters and white space remain, as many as the filter keeps. |
| ClientScript.FormatNameCapitalizes | public/js/script.js:487-495 | Each word-start letter becomes upper case, and every other character is kept. |
| ClientScript.FormatNameIdempotent | public/js/script.js:487-495 | Formatting a formatted name changes nothing. |
| ClientScript.InputElement.FormatName | public/js/script.js:487-495 | The input's value becomes `FormatNameValue` of the old one, and the classes are unchanged. |
| ClientScript.ValidateFileSize | public/js/script.js:497-500 | The check holds iff the size is at most `maxSizeMB` MiB, with 2 MiB when the argument is omitted. |
| ClientScript.ValidateFileType | public/js/script.js:502-504 | The check holds iff the type is in the allow-list, which defaults to jpeg, jpg and png. |
| ClientScript.FormUtilsAgreeWithValidateFile | public/js/script.js:237-250 | With their defaults, the two `FormUtils` checks together accept exactly what `validateFile` accepts. |

## Left out

- Network and timing:
  - HTTP headers, the API key and base URL, and JSON parsing are left out, and so is the real 3-second timer. A wait is a `Wait(3000)` entry in the trace.
  - A reply whose body is not JSON is not modelled: every answered reply carries a parsed envelope.
  - An accepted envelope without a `body` is not modelled. In the source, reading `body.uploadImage` or `body.orderId` then throws a TypeError, which is re-wrapped like any other failure. Every accepted envelope here carries a body.
- Numbers:
  - OrderPoll: `maxRetriesAllowed` is a JavaScript number, but the model takes an integer. A fractional budget is not modelled; for example, 2.5 allows 3 status checks in the source.
  - ValidateFileSize: `maxSizeMB` is a JavaScript number, but the model takes an integer. A fractional limit is not modelled; for example, 0.5 gives a 524288-byte limit in the source.
  - Logging (`console.log`, `console.error`) is left out.
- Storage and server wiring:
  - The MongoDB model and connection (models/Submission.js, config/database.js) are not part of this model. A query is replaced by its answer.
  - Express, multer and route wiring (server.js, routes/submissionRoutes.js) are not part of this model.
  - `renderForm` is not modelled; it renders an empty form and decides nothing.
- Not modelled from utils/validation.js and public/js/script.js:
  - `validationRules` and `validate`: their behaviour is express-validator's, which is not visible here, and they are not mounted on any route.
  - Everything that touches the DOM, the camera, the canvas or `FileReader`, including notifications and the loading state. `validateForm` computes its errors, but showing them is left out.
  - `ImageUtils`, which does floating-point canvas scaling, and `PerformanceMonitor`, which times with floating point.
- Simplified inputs:
  - `parseInt` of the page query is not modelled; the page arrives as an optional integer.
  - Concurrent requests are not modelled; each request is independent.
  - The `Date` value is not modelled; it is a parameter.
- Where the code differs from how such a service is usually described:
  - A negative `maxRetriesAllowed` is truthy, so `|| 5` keeps it, and the poll then makes no check and times out at once.
  - `sanitizeInput` is not idempotent. Each `replace` is a single left-to-right pass, so deleting one occurrence can join its neighbours into a new one, which stays. The model keeps that behaviour (see `RemoveJsProtocolLeavesOne`); a handler split around an inner handler, such as `oonclick="x"nclick="y"`, behaves the same way.
  - Errors thrown by the poll reach the caller re-wrapped as "Face swap failed: …", because `pollOrderStatus` runs inside `performFaceSwap`'s `try`.

## Findings

| source | as written | input that shows it | evidently intended | confidence | as-written member | corrected member |
|---|---|---|---|---|---|---|
| public/js/script.js:452-460 | `icons[type] \|\| 'info-circle'` also finds the members every object inherits from `Object.prototype`. Those are truthy, so one of them is returned instead of an icon name. | `getIconForType('toString')` returns the `toString` function, not `'info-circle'`. | Every type other than the four known ones gets `'info-circle'`. | low: the page's own callers pass only `success`, `danger` and `info`; not executed | ClientScript.IconLookupAsWritten, shown by ClientScript.InheritedKeyYieldsNoIcon | ClientScript.IconForType |
