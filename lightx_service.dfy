/** The face-swap job orchestration of services/LightxService.js.

    Every `fetch` is replaced by the value it resolves to (or the rejection it
    raises), handed to the operation as a parameter; every request the code
    issues and every 3-second wait it performs is recorded, in order, in a trace
    of `Call`s. The operations are methods written as the source writes them
    (early exits, a bounded polling loop); each is proved against a function of
    its inputs (`UploadRun`, `SwapRun`, `Poll`) whose contract and lemmas state
    what the protocol promises. */
module LightxService {
  import opened Common

  /** The provider endpoints that answer with a JSON envelope. */
  datatype Endpoint = UploadImageUrl | FaceSwap | OrderStatus

  /** The JSON every provider endpoint answers with; 2000 in `statusCode` is success. */
  datatype Envelope<B> = Envelope(statusCode: int, message: string, body: B)

  /** `body` of the upload-URL answer: where to PUT the bytes, and the public URL. */
  datatype UploadTarget = UploadTarget(uploadImage: string, imageUrl: string)

  /** `body` of the face-swap answer; `maxRetriesAllowed` may be missing. */
  datatype SwapOrder = SwapOrder(orderId: string, maxRetriesAllowed: Option<int>)

  /** `body` of the order-status answer; a missing `output` is the empty string. */
  datatype OrderState = OrderState(status: string, output: string)

  /** A response whose body is read as text when it is not ok and as JSON when it is. */
  datatype JsonReply<B> = JsonReply(status: nat, text: string, json: Envelope<B>) {
    /** `response.ok` */
    predicate Ok() { 200 <= status <= 299 }
  }

  /** The response to the presigned PUT. */
  datatype PutReply = PutReply(status: nat) {
    predicate Ok() { 200 <= status <= 299 }
  }

  /** What one `fetch` yields: a response, or a rejection such as a network failure. */
  datatype Exchange<R> = Answered(reply: R) | Unreachable(reason: string)

  type UploadUrlExchange = Exchange<JsonReply<UploadTarget>>
  type SwapExchange = Exchange<JsonReply<SwapOrder>>
  type StatusExchange = Exchange<JsonReply<OrderState>>

  const SuccessCode := 2000
  const PollIntervalMs: nat := 3000
  const DefaultRetries := 5
  const UploadType := "imageUrl"

  /** The effects of the service, in the order they happen. */
  datatype Call =
    | RequestUploadUrl(uploadType: string, size: nat, contentType: string)
    | PutImage(target: string, contentType: string, image: Bytes)
    | RequestFaceSwap(imageUrl: string, styleImageUrl: string)
    | Wait(ms: nat)
    | CheckOrderStatus(orderId: string)

  /** The errors the service throws. They are plain `Error`s told apart only by
      their message (`Message`); `UploadFailed` and `SwapFailed` are the
      re-wrapping done by the `catch` blocks of `uploadImage` and `performFaceSwap`. */
  datatype Failure =
    | HttpError(endpoint: Endpoint, status: nat, text: string)
    | ApiError(endpoint: Endpoint, message: string)
    | TransferError(status: nat)
    | NetworkError(reason: string)
    | ProcessingFailed
    | ProcessingTimedOut
    | UploadFailed(cause: Failure)
    | SwapFailed(cause: Failure)

  const UploadFailedPrefix := "Image upload failed: "
  const SwapFailedPrefix := "Face swap failed: "

  /** The `message` of the thrown error. */
  function Message(f: Failure): string {
    match f
    case HttpError(endpoint, status, text) =>
      var what := match endpoint
        case UploadImageUrl => "Failed to get upload URL: "
        case FaceSwap => "Face swap request failed: "
        case OrderStatus => "Status check failed: ";
      what + Decimal(status) + " \U{2192} " + text
    case ApiError(endpoint, message) =>
      var what := match endpoint
        case UploadImageUrl => "Upload URL API error: "
        case FaceSwap => "Face swap API error: "
        case OrderStatus => "Status API error: ";
      what + message
    case TransferError(status) => "Failed to upload image: " + Decimal(status)
    case NetworkError(reason) => reason
    case ProcessingFailed => "Face swap processing failed"
    case ProcessingTimedOut => "Face swap processing timed out"
    case UploadFailed(cause) => UploadFailedPrefix + Message(cause)
    case SwapFailed(cause) => SwapFailedPrefix + Message(cause)
  }

  /** The provider accepted the request: the transport answered ok and the
      envelope carries the success sentinel. The same test is applied to all
      three JSON endpoints. */
  predicate Accepted<B>(e: Exchange<JsonReply<B>>) {
    e.Answered? && e.reply.Ok() && e.reply.json.statusCode == SuccessCode
  }

  /** How each JSON endpoint's answer is read: a rejected fetch propagates, a
      non-ok response throws with its status and text, a non-2000 envelope
      throws with its message, otherwise `body` is used. */
  function Interpret<B>(endpoint: Endpoint, e: Exchange<JsonReply<B>>): (r: Result<B, Failure>)
    ensures r.Success? <==> Accepted(e)
    ensures r.Success? ==> r.value == e.reply.json.body
    ensures e.Unreachable? ==> r == Failure(NetworkError(e.reason))
    ensures e.Answered? && !e.reply.Ok() ==> r == Failure(HttpError(endpoint, e.reply.status, e.reply.text))
    ensures e.Answered? && e.reply.Ok() && !Accepted(e) ==> r == Failure(ApiError(endpoint, e.reply.json.message))
  {
    match e
    case Unreachable(reason) => Failure(NetworkError(reason))
    case Answered(reply) =>
      if !reply.Ok() then Failure(HttpError(endpoint, reply.status, reply.text))
      else if reply.json.statusCode != SuccessCode then Failure(ApiError(endpoint, reply.json.message))
      else Success(reply.json.body)
  }

  /** An operation's result together with the calls it made. */
  datatype Run<T> = Run(outcome: Result<T, Failure>, calls: seq<Call>)

  // ---------------------------------------------------------------------------
  // uploadImage

  /** The presigned PUT succeeded. */
  predicate Delivered(transfer: Exchange<PutReply>) {
    transfer.Answered? && transfer.reply.Ok()
  }

  /** What `uploadImage(image, contentType)` does when the negotiation request
      is answered by `negotiation` and the PUT (if issued) by `transfer`. */
  function UploadRun(image: Bytes, contentType: string, negotiation: UploadUrlExchange,
                     transfer: Exchange<PutReply>): (run: Run<string>)
    // the negotiation comes first and declares the buffer's length and the caller's type
    ensures |run.calls| >= 1 && run.calls[0] == RequestUploadUrl(UploadType, |image|, contentType)
    // no PUT after a failed negotiation
    ensures !Accepted(negotiation) ==> run.calls == [run.calls[0]] && run.outcome.Failure?
    // after an accepted one, exactly one PUT of the same bytes to the negotiated target, with the same type
    ensures Accepted(negotiation) ==>
      run.calls == [run.calls[0], PutImage(negotiation.reply.json.body.uploadImage, contentType, image)]
    ensures run.outcome.Success? <==> Accepted(negotiation) && Delivered(transfer)
    // the returned URL is the public URL from the negotiation answer
    ensures run.outcome.Success? ==> run.outcome.value == negotiation.reply.json.body.imageUrl
    // every failure is the step's own error, re-thrown as "Image upload failed: ..."
    ensures !Accepted(negotiation) ==> run.outcome == Failure(UploadFailed(Interpret(UploadImageUrl, negotiation).error))
    ensures Accepted(negotiation) && transfer.Unreachable? ==> run.outcome == Failure(UploadFailed(NetworkError(transfer.reason)))
    ensures Accepted(negotiation) && transfer.Answered? && !transfer.reply.Ok() ==>
      run.outcome == Failure(UploadFailed(TransferError(transfer.reply.status)))
    ensures run.outcome.Failure? ==> run.outcome.error.UploadFailed?
    ensures run.outcome.Failure? ==> UploadFailedPrefix <= Message(run.outcome.error)
  {
    var negotiate := RequestUploadUrl(UploadType, |image|, contentType);
    match Interpret(UploadImageUrl, negotiation)
    case Failure(f) => Run(Failure(UploadFailed(f)), [negotiate])
    case Success(target) =>
      var calls := [negotiate, PutImage(target.uploadImage, contentType, image)];
      match transfer
      case Unreachable(reason) => Run(Failure(UploadFailed(NetworkError(reason))), calls)
      case Answered(put) =>
        if !put.Ok() then Run(Failure(UploadFailed(TransferError(put.status))), calls)
        else Run(Success(target.imageUrl), calls)
  }

  /** `uploadImage`: negotiate an upload target, then PUT the bytes there. */
  method UploadImage(image: Bytes, contentType: string, negotiation: UploadUrlExchange,
                     transfer: Exchange<PutReply>) returns (outcome: Result<string, Failure>, calls: seq<Call>)
    ensures Run(outcome, calls) == UploadRun(image, contentType, negotiation, transfer)
  {
    calls := [RequestUploadUrl(UploadType, |image|, contentType)];
    var answer := Interpret(UploadImageUrl, negotiation);
    if answer.Failure? {
      return Failure(UploadFailed(answer.error)), calls;
    }
    var target := answer.value;
    calls := calls + [PutImage(target.uploadImage, contentType, image)];
    if transfer.Unreachable? {
      return Failure(UploadFailed(NetworkError(transfer.reason))), calls;
    }
    if !transfer.reply.Ok() {
      return Failure(UploadFailed(TransferError(transfer.reply.status))), calls;
    }
    outcome := Success(target.imageUrl);
  }

  // ---------------------------------------------------------------------------
  // pollOrderStatus

  /** The job finished and its output is present (`status === "active" && output`). */
  predicate HasOutput(state: OrderState) {
    state.status == "active" && |state.output| > 0
  }

  /** A status answer that lets the loop go on: accepted, no output yet, not failed.
      An "active" status with an empty output is one of these. */
  predicate Pending(e: StatusExchange) {
    Accepted(e) && !HasOutput(e.reply.json.body) && e.reply.json.body.status != "failed"
  }

  /** How a status answer that is not pending ends the poll. */
  function StatusVerdict(e: StatusExchange): (r: Result<string, Failure>)
    requires !Pending(e)
    ensures r.Success? <==> Accepted(e) && HasOutput(e.reply.json.body)
    ensures r.Success? ==> r.value == e.reply.json.body.output
    // an accepted answer without output that is not pending is a "failed" one: "Face swap processing failed"
    ensures Accepted(e) && !HasOutput(e.reply.json.body) ==> r == Failure(ProcessingFailed)
    // a rejected status check ends it with the transport, HTTP or API error of that check
    ensures !Accepted(e) ==> r == Failure(Interpret(OrderStatus, e).error)
    ensures r != Failure(ProcessingTimedOut)
  {
    match Interpret(OrderStatus, e)
    case Failure(f) => Failure(f)
    case Success(state) => if HasOutput(state) then Success(state.output) else Failure(ProcessingFailed)
  }

  /** A poll's result and the number of status checks it made. */
  datatype PollRun = PollRun(outcome: Result<string, Failure>, checks: nat)

  /** The rest of the poll once `retries` status checks have been answered as
      pending; the k-th status check is answered by `replies(k)`. */
  function Poll(maxRetries: int, replies: nat -> StatusExchange, retries: nat): (run: PollRun)
    decreases maxRetries - retries
    // at most maxRetries checks in all, and at least one more whenever budget remains
    ensures retries <= run.checks
    ensures retries < maxRetries ==> retries < run.checks <= maxRetries
    // a timeout spends the whole budget on pending answers
    ensures run.outcome == Failure(ProcessingTimedOut) ==>
      run.checks == (if maxRetries < retries then retries else maxRetries)
      && forall k :: retries <= k < run.checks ==> Pending(replies(k))
    // otherwise the last check is the first answer that was not pending, and it decides
    ensures run.outcome != Failure(ProcessingTimedOut) ==>
      retries < run.checks && !Pending(replies(run.checks - 1)) && run.outcome == StatusVerdict(replies(run.checks - 1))
      && forall k :: retries <= k < run.checks - 1 ==> Pending(replies(k))
  {
    if maxRetries <= retries then PollRun(Failure(ProcessingTimedOut), retries)
    else if Pending(replies(retries)) then Poll(maxRetries, replies, retries + 1)
    else PollRun(StatusVerdict(replies(retries)), retries + 1)
  }

  /** The calls made by a poll that performed `checks` status checks: each
      check immediately preceded by one 3000 ms wait. */
  function PollCalls(orderId: string, checks: nat): (calls: seq<Call>)
    ensures |calls| == 2 * checks
    ensures forall i :: 0 <= i < |calls| ==>
      calls[i] == if i % 2 == 0 then Wait(PollIntervalMs) else CheckOrderStatus(orderId)
  {
    if checks == 0 then [] else PollCalls(orderId, checks - 1) + [Wait(PollIntervalMs), CheckOrderStatus(orderId)]
  }

  /** `pollOrderStatus(orderId, maxRetries)`: wait, check, and stop at the first
      terminal answer; give up when the budget is spent. */
  method PollOrderStatus(orderId: string, maxRetries: int, replies: nat -> StatusExchange)
    returns (outcome: Result<string, Failure>, calls: seq<Call>)
    ensures var run := Poll(maxRetries, replies, 0);
      outcome == run.outcome && calls == PollCalls(orderId, run.checks)
  {
    var retries: nat := 0;
    calls := [];
    while retries < maxRetries
      invariant Poll(maxRetries, replies, retries) == Poll(maxRetries, replies, 0)
      invariant calls == PollCalls(orderId, retries)
      decreases maxRetries - retries
    {
      calls := calls + [Wait(PollIntervalMs), CheckOrderStatus(orderId)];
      var reply := replies(retries);
      if reply.Unreachable? {
        return Failure(NetworkError(reply.reason)), calls;
      }
      if !reply.reply.Ok() {
        return Failure(HttpError(OrderStatus, reply.reply.status, reply.reply.text)), calls;
      }
      if reply.reply.json.statusCode != SuccessCode {
        return Failure(ApiError(OrderStatus, reply.reply.json.message)), calls;
      }
      var state := reply.reply.json.body;
      if state.status == "active" && |state.output| > 0 {
        return Success(state.output), calls;
      } else if state.status == "failed" {
        return Failure(ProcessingFailed), calls;
      }
      retries := retries + 1;
    }
    outcome := Failure(ProcessingTimedOut);
  }

  // ---------------------------------------------------------------------------
  // performFaceSwap

  /** `maxRetriesAllowed || 5`: the provider's value unless it is missing or 0.
      A negative value is truthy and is kept. */
  function RetryBudget(maxRetriesAllowed: Option<int>): (n: int)
    ensures n != 0
    ensures maxRetriesAllowed.Some? && maxRetriesAllowed.value != 0 ==> n == maxRetriesAllowed.value
    ensures maxRetriesAllowed == None || maxRetriesAllowed == Some(0) ==> n == DefaultRetries
  {
    match maxRetriesAllowed
    case Some(n) => if n != 0 then n else DefaultRetries
    case None => DefaultRetries
  }

  /** The poll that follows an accepted swap request. */
  function OrderPoll(order: SwapOrder, replies: nat -> StatusExchange): PollRun {
    Poll(RetryBudget(order.maxRetriesAllowed), replies, 0)
  }

  /** What `performFaceSwap(originalImageUrl, styleImageUrl)` does when the swap
      request is answered by `swap` and the k-th status check by `replies(k)`. */
  function SwapRun(originalImageUrl: string, styleImageUrl: string, swap: SwapExchange,
                   replies: nat -> StatusExchange): (run: Run<string>)
    ensures |run.calls| >= 1 && run.calls[0] == RequestFaceSwap(originalImageUrl, styleImageUrl)
    // a rejected swap request ends everything: no wait, no status check
    ensures !Accepted(swap) ==> run.calls == [run.calls[0]] && run.outcome.Failure?
    // an accepted one is followed by exactly the calls of the poll of its order
    ensures Accepted(swap) ==>
      var order := swap.reply.json.body;
      run.calls == [run.calls[0]] + PollCalls(order.orderId, OrderPoll(order, replies).checks)
    ensures run.outcome.Success? <==> Accepted(swap) && OrderPoll(swap.reply.json.body, replies).outcome.Success?
    ensures run.outcome.Success? ==> run.outcome == OrderPoll(swap.reply.json.body, replies).outcome
    // every failure, the poll's included, is the step's own error re-thrown as "Face swap failed: ..."
    ensures !Accepted(swap) ==> run.outcome == Failure(SwapFailed(Interpret(FaceSwap, swap).error))
    ensures Accepted(swap) && OrderPoll(swap.reply.json.body, replies).outcome.Failure? ==>
      run.outcome == Failure(SwapFailed(OrderPoll(swap.reply.json.body, replies).outcome.error))
    ensures run.outcome.Failure? ==> run.outcome.error.SwapFailed?
    ensures run.outcome.Failure? ==> SwapFailedPrefix <= Message(run.outcome.error)
  {
    var request := RequestFaceSwap(originalImageUrl, styleImageUrl);
    match Interpret(FaceSwap, swap)
    case Failure(f) => Run(Failure(SwapFailed(f)), [request])
    case Success(order) =>
      var poll := OrderPoll(order, replies);
      var calls := [request] + PollCalls(order.orderId, poll.checks);
      match poll.outcome
      case Success(output) => Run(Success(output), calls)
      case Failure(f) => Run(Failure(SwapFailed(f)), calls)
  }

  /** `performFaceSwap`: request the swap, then poll the order it creates. */
  method PerformFaceSwap(originalImageUrl: string, styleImageUrl: string, swap: SwapExchange,
                         replies: nat -> StatusExchange) returns (outcome: Result<string, Failure>, calls: seq<Call>)
    ensures Run(outcome, calls) == SwapRun(originalImageUrl, styleImageUrl, swap, replies)
  {
    calls := [RequestFaceSwap(originalImageUrl, styleImageUrl)];
    var answer := Interpret(FaceSwap, swap);
    if answer.Failure? {
      return Failure(SwapFailed(answer.error)), calls;
    }
    var order := answer.value;
    var maxRetries := RetryBudget(order.maxRetriesAllowed);
    var polled, pollCalls := PollOrderStatus(order.orderId, maxRetries, replies);
    calls := calls + pollCalls;
    if polled.Failure? {
      return Failure(SwapFailed(polled.error)), calls;
    }
    outcome := polled;
  }

  // ---------------------------------------------------------------------------
  // Properties of the poll

  /** Counts the status checks in a trace. */
  function Checks(calls: seq<Call>): nat {
    if calls == [] then 0 else (if calls[0].CheckOrderStatus? then 1 else 0) + Checks(calls[1..])
  }

  /** Counts the waits in a trace. */
  function Waits(calls: seq<Call>): nat {
    if calls == [] then 0 else (if calls[0].Wait? then 1 else 0) + Waits(calls[1..])
  }

  lemma {:induction false} CountsDistribute(a: seq<Call>, b: seq<Call>)
    ensures Checks(a + b) == Checks(a) + Checks(b)
    ensures Waits(a + b) == Waits(a) + Waits(b)
  {
    if a == [] {
      assert a + b == b;
    } else {
      CountsDistribute(a[1..], b);
      assert (a + b)[1..] == a[1..] + b;
    }
  }

  /** A poll that made n status checks waited exactly n times, and every check
      directly follows a wait of 3000 ms. */
  lemma {:induction false} WaitsMatchChecks(orderId: string, n: nat)
    ensures Checks(PollCalls(orderId, n)) == n
    ensures Waits(PollCalls(orderId, n)) == n
  {
    if n > 0 {
      WaitsMatchChecks(orderId, n - 1);
      var tail := [Wait(PollIntervalMs), CheckOrderStatus(orderId)];
      CountsDistribute(PollCalls(orderId, n - 1), tail);
      assert Checks(tail) == 1 && Waits(tail) == 1 by {
        var last := [CheckOrderStatus(orderId)];
        assert tail[1..] == last && last[1..] == [];
        assert Checks(last) == 1 && Waits(last) == 0;
      }
    }
  }

  /** The poll's number of checks never exceeds the budget (none for a budget of
      0 or less). */
  lemma PollBounded(maxRetries: int, replies: nat -> StatusExchange)
    ensures Poll(maxRetries, replies, 0).checks <= if maxRetries < 0 then 0 else maxRetries
  {
  }

  /** The first answer that is not pending ends the poll, whatever budget remains. */
  lemma PollStopsAtFirstTerminal(maxRetries: int, replies: nat -> StatusExchange, k: nat)
    requires k < maxRetries
    requires forall j :: 0 <= j < k ==> Pending(replies(j))
    requires !Pending(replies(k))
    ensures Poll(maxRetries, replies, 0) == PollRun(StatusVerdict(replies(k)), k + 1)
  {
  }

  /** When every answer within the budget is pending, the poll times out after
      using the whole budget. */
  lemma PollTimesOut(maxRetries: int, replies: nat -> StatusExchange)
    requires forall j :: 0 <= j < maxRetries ==> Pending(replies(j))
    ensures Poll(maxRetries, replies, 0) == PollRun(Failure(ProcessingTimedOut), if maxRetries < 0 then 0 else maxRetries)
  {
  }

  /** A result is returned only from an answer that is "active" with an output. */
  lemma PollOutputComesFromActive(maxRetries: int, replies: nat -> StatusExchange)
    ensures var run := Poll(maxRetries, replies, 0);
      run.outcome.Success? ==>
        var last := replies(run.checks - 1);
        run.checks >= 1 && Accepted(last) && last.reply.json.body.status == "active"
        && run.outcome.value == last.reply.json.body.output && |run.outcome.value| > 0
  {
  }

  /** A missing or zero `maxRetriesAllowed` gives five checks; a negative one
      gives no check at all and an immediate timeout. */
  lemma RetryBudgetEdges(replies: nat -> StatusExchange, n: int)
    requires n < 0
    ensures RetryBudget(None) == 5 && RetryBudget(Some(0)) == 5
    ensures Poll(RetryBudget(Some(n)), replies, 0) == PollRun(Failure(ProcessingTimedOut), 0)
  {
  }

  /** An end-to-end swap: an order "abc" with a budget of 3,
      two "processing" answers and then an "active" answer with an output give
      that output after three checks and three waits. */
  lemma {:induction false} ThreeCheckScenario(replies: nat -> StatusExchange)
    requires forall j :: 0 <= j < 2 ==>
      replies(j) == Answered(JsonReply(200, "", Envelope(2000, "", OrderState("processing", ""))))
    requires replies(2) == Answered(JsonReply(200, "", Envelope(2000, "", OrderState("active", "https://out/img.jpg"))))
    ensures var swap := Answered(JsonReply(200, "", Envelope(2000, "", SwapOrder("abc", Some(3)))));
      SwapRun("u1", "u2", swap, replies) == Run(Success("https://out/img.jpg"),
        [RequestFaceSwap("u1", "u2"),
         Wait(3000), CheckOrderStatus("abc"), Wait(3000), CheckOrderStatus("abc"), Wait(3000), CheckOrderStatus("abc")])
  {
    PollStopsAtFirstTerminal(3, replies, 2);
    var calls := PollCalls("abc", 3);
    assert |calls| == 6;
    assert calls == [Wait(3000), CheckOrderStatus("abc"), Wait(3000), CheckOrderStatus("abc"), Wait(3000), CheckOrderStatus("abc")];
  }
}
