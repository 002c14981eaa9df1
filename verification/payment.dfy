/**
  The browser side of a PIX payment (attached_assets/script.js): the checks
  `initPayment` makes on the answer of /api/payment/pix before it starts
  polling, and the poll of /api/payment/validate. Both endpoints are outside
  this repository, so their answers are inputs.
 */
module Payment {
  import opened Wrappers

  /** `s.includes(sub)`. */
  predicate Includes(s: string, sub: string)
  {
    sub <= s || (s != [] && Includes(s[1..], sub))
  }

  /** The parsed body of /api/payment/pix; `success` is its truthiness. */
  datatype PixData = PixData(success: bool, error: Option<string>, pixCode: string)

  /** What `response.json()` gives: the data, or the message of the parse error it throws. */
  datatype PixBody = Unparseable(message: string) | Parsed(data: PixData)

  /** The headers, status and body of the /api/payment/pix response. */
  datatype PixResponse = PixResponse(contentType: Option<string>, ok: bool, text: string, json: PixBody)

  /** `fetch` either throws (with a message) or yields a response. */
  datatype PixFetch = FetchFailed(message: string) | Answered(response: PixResponse)

  /** `initPayment` either shows an error notification or shows the PIX code and starts polling. */
  datatype PixOutcome = Notify(message: string) | StartPolling(pixCode: string)

  const NotJsonMessage := "Resposta inválida do servidor - esperado JSON"
  const PixErrorPrefix := "Erro ao gerar PIX: "

  predicate IsJsonType(contentType: Option<string>)
  {
    contentType.Some? && Includes(contentType.value, "application/json")
  }

  /**
    The three checks of `initPayment`, in their order: the content type names
    JSON, the status is ok, the body says success. Polling starts exactly when
    all three pass; the first failing one decides the notification.
   */
  function CheckPixResponse(f: PixFetch): (r: PixOutcome)
    ensures r.StartPolling? <==>
      && f.Answered? && IsJsonType(f.response.contentType) && f.response.ok
      && f.response.json.Parsed? && f.response.json.data.success
    ensures r.StartPolling? ==> r.pixCode == f.response.json.data.pixCode
    ensures f.FetchFailed? ==> r == Notify(f.message)
    ensures f.Answered? && !IsJsonType(f.response.contentType) ==> r == Notify(NotJsonMessage)
    ensures f.Answered? && IsJsonType(f.response.contentType) && !f.response.ok ==>
      r == Notify(PixErrorPrefix + f.response.text)
    ensures f.Answered? && IsJsonType(f.response.contentType) && f.response.ok && f.response.json.Unparseable? ==>
      r == Notify(f.response.json.message)
    ensures f.Answered? && IsJsonType(f.response.contentType) && f.response.ok && f.response.json.Parsed?
            && !f.response.json.data.success ==>
      r == Notify(if f.response.json.data.error.Some? then f.response.json.data.error.value else "")
  {
    match f
    case FetchFailed(message) => Notify(message)
    case Answered(response) =>
      if !IsJsonType(response.contentType) then Notify(NotJsonMessage)
      else if !response.ok then Notify(PixErrorPrefix + response.text)
      else match response.json
        case Unparseable(message) => Notify(message)
        case Parsed(data) =>
          if !data.success then Notify(if data.error.Some? then data.error.value else "")
          else StartPolling(data.pixCode)
  }

  /** The answer of one /api/payment/validate request: a throw of fetch or of JSON parsing, or a status field. */
  datatype ValidateReply = Threw | Replied(status: Option<string>)

  /** Reschedules allowed: the poll gives up once `attempts` has reached this. */
  const MaxAttempts := 30

  const ApprovedText := "Pagamento aprovado!"
  const RejectedText := "Pagamento rejeitado"
  const WaitingText := "Aguardando pagamento..."
  const ErrorText := "Erro ao verificar pagamento"

  /** A reply that ends the poll whatever `attempts` is. */
  predicate Terminal(r: ValidateReply)
  {
    r.Threw? || r == Replied(Some("approved")) || r == Replied(Some("rejected"))
  }

  /** What the status element shows after the last reply of a poll. */
  function TextAfter(r: ValidateReply): string
  {
    if r.Threw? then ErrorText
    else if r == Replied(Some("approved")) then ApprovedText
    else if r == Replied(Some("rejected")) then RejectedText
    else WaitingText
  }

  /** The state `checkStatus` closes over: the counter and the status element's text. */
  class Poller {
    var attempts: int
    var statusText: string
    /** The approval notification was shown and the redirect to "/" scheduled. */
    var redirecting: bool

    /** `let attempts = 0`, with the element showing whatever it showed before. */
    constructor (shown: string)
      ensures attempts == 0 && statusText == shown && !redirecting
    {
      attempts, statusText, redirecting := 0, shown, false;
    }

    /**
      One run of `checkStatus` on the reply to its request. Approved, rejected
      and a throw end the poll; any other reply counts an attempt and
      reschedules only while the count read before the increment is below 30.
     */
    method CheckStatus(reply: ValidateReply) returns (again: bool)
      modifies this
      ensures again <==> !Terminal(reply) && old(attempts) < MaxAttempts
      ensures attempts == if Terminal(reply) then old(attempts) else old(attempts) + 1
      ensures statusText == if Terminal(reply) || again then TextAfter(reply) else old(statusText)
      ensures redirecting == (old(redirecting) || reply == Replied(Some("approved")))
    {
      match reply
      case Threw =>
        statusText := ErrorText;
        again := false;
      case Replied(status) =>
        if status == Some("approved") {
          statusText := ApprovedText;
          redirecting := true;
          again := false;
        } else if status == Some("rejected") {
          statusText := RejectedText;
          again := false;
        } else {
          var before := attempts;
          attempts := attempts + 1;
          again := before < MaxAttempts;
          if again {
            statusText := WaitingText;
          }
        }
    }
  }

  /**
    `checkPaymentStatus`: runs `checkStatus` until it stops rescheduling;
    `server(k)` is the reply to the k-th validate request. At most 31 requests
    are made; every reply but the last was neither approved, rejected nor a
    throw, and a poll that stops before the 31st request stopped on such a
    reply.
   */
  method CheckPaymentStatus(server: nat -> ValidateReply, shown: string) returns (requests: nat, text: string, redirect: bool)
    ensures 1 <= requests <= MaxAttempts + 1
    ensures forall k :: 0 <= k < requests - 1 ==> !Terminal(server(k))
    ensures requests <= MaxAttempts ==> Terminal(server(requests - 1))
    ensures text == TextAfter(server(requests - 1))
    ensures redirect <==> server(requests - 1) == Replied(Some("approved"))
  {
    var poller := new Poller(shown);
    requests := 0;
    var again := true;
    while again
      invariant 0 <= requests <= MaxAttempts + 1
      invariant again ==> poller.attempts == requests <= MaxAttempts && !poller.redirecting
      invariant again ==> forall k :: 0 <= k < requests ==> !Terminal(server(k))
      invariant again && requests > 0 ==> poller.statusText == WaitingText
      invariant !again ==> requests >= 1 && forall k :: 0 <= k < requests - 1 ==> !Terminal(server(k))
      invariant !again ==> requests <= MaxAttempts ==> Terminal(server(requests - 1))
      invariant !again ==> poller.statusText == TextAfter(server(requests - 1))
      invariant !again ==> (poller.redirecting <==> server(requests - 1) == Replied(Some("approved")))
      decreases MaxAttempts + 1 - requests
    {
      var reply := server(requests);
      requests := requests + 1;
      again := poller.CheckStatus(reply);
    }
    text, redirect := poller.statusText, poller.redirecting;
  }

  /**
    `initPayment`: polling starts, and validate requests are made, exactly when
    the /api/payment/pix answer passes all three checks.
   */
  method InitPayment(f: PixFetch, server: nat -> ValidateReply, shown: string)
    returns (notice: Option<string>, requests: nat, text: string, redirect: bool)
    ensures notice.Some? <==> CheckPixResponse(f).Notify?
    ensures notice.Some? ==> notice.value == CheckPixResponse(f).message && requests == 0 && text == shown && !redirect
    ensures notice.None? ==> 1 <= requests <= MaxAttempts + 1 && text == TextAfter(server(requests - 1))
    ensures notice.None? ==> forall k :: 0 <= k < requests - 1 ==> !Terminal(server(k))
    ensures notice.None? && requests <= MaxAttempts ==> Terminal(server(requests - 1))
    ensures notice.None? ==> (redirect <==> server(requests - 1) == Replied(Some("approved")))
  {
    match CheckPixResponse(f)
    case Notify(message) =>
      notice, requests, text, redirect := Some(message), 0, shown, false;
    case StartPolling(_) =>
      notice := None;
      requests, text, redirect := CheckPaymentStatus(server, shown);
  }

  /** A server that answers pending five times and then approves is polled six times. */
  method PendingFiveTimesThenApproved() returns (requests: nat, text: string, redirect: bool)
    ensures requests == 6 && text == ApprovedText && redirect
  {
    var server := (k: nat) => if k < 5 then Replied(Some("pending")) else Replied(Some("approved"));
    requests, text, redirect := CheckPaymentStatus(server, "");
    assert !Terminal(server(4)) && Terminal(server(5));
  }

  /** A server that never settles is polled 31 times and the page keeps waiting. */
  method NeverSettled() returns (requests: nat, text: string, redirect: bool)
    ensures requests == MaxAttempts + 1 && text == WaitingText && !redirect
  {
    var server := (k: nat) => Replied(Some("pending"));
    requests, text, redirect := CheckPaymentStatus(server, "");
  }
}
