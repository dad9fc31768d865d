/**
 * The HTTP server's own rules: the per-client fixed-window rate limiter,
 * the API-key check, the log preview of an incoming message and the reply
 * built from the conversation's last message.
 */
module HttpServer {
  import opened Wrappers
  import opened PyStr
  import opened Messages
  import Workflow

  /** A client's window: the minute it counts in and the requests seen in it. */
  datatype Window = Window(minute: int, count: int)

  /** What the rate limiter does with a request. */
  datatype Outcome = Forwarded | Rejected

  /** An HTTP error the server answers with. */
  datatype HttpError = HttpError(statusCode: int, detail: string)

  const TooManyRequests: HttpError := HttpError(429, "Too many requests")
  const InvalidApiKey: HttpError := HttpError(403, "Invalid API key")

  /** The answer the middleware gives in place of the endpoint's: 429 for a rejected request. */
  function Answer(outcome: Outcome): (e: Option<HttpError>)
    ensures e == Some(TooManyRequests) <==> outcome == Rejected
    ensures e.None? <==> outcome == Forwarded
  {
    match outcome
    case Rejected => Some(TooManyRequests)
    case Forwarded => None
  }

  /** The window a client has after one more request in `minute`. */
  function NextWindow(counts: map<string, Window>, clientIp: string, minute: int): (w: Window)
    ensures w.minute == minute
    ensures w.count == if clientIp in counts && counts[clientIp].minute == minute
                       then counts[clientIp].count + 1 else 1
  {
    var start := if clientIp in counts && counts[clientIp].minute == minute then counts[clientIp].count else 0;
    Window(minute, start + 1)
  }

  /** One request: the client's address and the minute it arrived in. */
  datatype Request = Request(clientIp: string, minute: int)

  /** The limiter's table and decision after one request. */
  function Admit(limit: int, counts: map<string, Window>, r: Request): (a: (map<string, Window>, Outcome))
    ensures a.0.Keys == counts.Keys + {r.clientIp}
    ensures forall ip :: ip in counts && ip != r.clientIp ==> a.0[ip] == counts[ip]
    ensures a.0[r.clientIp].minute == r.minute
    ensures a.1 == Rejected <==> a.0[r.clientIp].count > limit
  {
    var w := NextWindow(counts, r.clientIp, r.minute);
    (counts[r.clientIp := w], if w.count > limit then Rejected else Forwarded)
  }

  /** The middleware's rate limiter: a table from client address to its current window. */
  class RateLimitMiddleware {
    var callsPerMinute: int
    var requestCounts: map<string, Window>

    constructor (callsPerMinute: int := 60)
      ensures this.callsPerMinute == callsPerMinute && requestCounts == map[]
    {
      this.callsPerMinute := callsPerMinute;
      requestCounts := map[];
    }

    /** `dispatch`: count the request in the client's window and reject it past the limit. */
    method Dispatch(clientIp: string, currentMinute: int) returns (outcome: Outcome)
      modifies this`requestCounts
      ensures (requestCounts, outcome) == Admit(callsPerMinute, old(requestCounts), Request(clientIp, currentMinute))
      ensures clientIp in requestCounts && requestCounts[clientIp].minute == currentMinute
      ensures clientIp !in old(requestCounts) || old(requestCounts)[clientIp].minute != currentMinute ==>
        requestCounts[clientIp].count == 1
      ensures clientIp in old(requestCounts) && old(requestCounts)[clientIp].minute == currentMinute ==>
        requestCounts[clientIp].count == old(requestCounts)[clientIp].count + 1
      ensures forall ip :: ip != clientIp ==>
        (ip in requestCounts <==> ip in old(requestCounts)) &&
        (ip in requestCounts ==> requestCounts[ip] == old(requestCounts)[ip])
      ensures outcome == Rejected <==> requestCounts[clientIp].count > callsPerMinute
    {
      if clientIp in requestCounts && requestCounts[clientIp].minute != currentMinute {
        requestCounts := requestCounts[clientIp := Window(currentMinute, 0)];
      }
      if clientIp !in requestCounts {
        requestCounts := requestCounts[clientIp := Window(currentMinute, 0)];
      }
      requestCounts := requestCounts[clientIp := Window(currentMinute, requestCounts[clientIp].count + 1)];
      assert requestCounts == old(requestCounts)[clientIp := NextWindow(old(requestCounts), clientIp, currentMinute)];
      if requestCounts[clientIp].count > callsPerMinute {
        return Rejected;
      }
      return Forwarded;
    }
  }

  /** An exception raised while handling a request. */
  datatype PyException = NameError(name: string)

  /**
   * `dispatch` as the file has it: the rejection branch constructs
   * `Response`, a name app.py never imports, so it raises instead of
   * answering; the table update before it happens all the same.
   */
  function AdmitAsWritten(limit: int, counts: map<string, Window>, r: Request): (a: (map<string, Window>, Result<Outcome, PyException>))
    ensures a.0 == Admit(limit, counts, r).0
    ensures a.1.Failure? <==> a.0[r.clientIp].count > limit
    ensures a.1.Success? ==> a.1.value == Forwarded
  {
    var (counts', outcome) := Admit(limit, counts, r);
    (counts', if outcome == Rejected then Failure(NameError("Response")) else Success(Forwarded))
  }

  /**
   * As written, no request is ever answered with 429: the 61st request of a
   * client within one minute, under the default limit of 60, raises.
   */
  lemma AsWrittenRejectionRaises(limit: int, counts: map<string, Window>, r: Request)
    ensures AdmitAsWritten(limit, counts, r).1 != Success(Rejected)
    ensures AdmitAsWritten(limit, counts, r).0 == Admit(limit, counts, r).0
    ensures Admit(limit, counts, r).1 == Rejected <==> AdmitAsWritten(limit, counts, r).1 == Failure(NameError("Response"))
    ensures var ip := "10.0.0.1";
      AdmitAsWritten(60, map[ip := Window(7, 60)], Request(ip, 7)).1 == Failure(NameError("Response"))
  {
  }

  /** The table and the decisions after a sequence of requests, starting from an empty table. */
  function Serve(limit: int, reqs: seq<Request>): (r: (map<string, Window>, seq<Outcome>))
    ensures |r.1| == |reqs|
  {
    if |reqs| == 0 then (map[], [])
    else
      var (counts, outcomes) := Serve(limit, reqs[..|reqs| - 1]);
      var (counts', outcome) := Admit(limit, counts, reqs[|reqs| - 1]);
      (counts', outcomes + [outcome])
  }

  /** The number of requests from `clientIp` in `minute`. */
  function CountIn(reqs: seq<Request>, clientIp: string, minute: int): nat
  {
    if |reqs| == 0 then 0
    else CountIn(reqs[..|reqs| - 1], clientIp, minute) + (if reqs[|reqs| - 1] == Request(clientIp, minute) then 1 else 0)
  }

  /** The number of those requests that were forwarded. */
  function ForwardedIn(reqs: seq<Request>, outcomes: seq<Outcome>, clientIp: string, minute: int): nat
    requires |outcomes| == |reqs|
  {
    if |reqs| == 0 then 0
    else
      var counted := reqs[|reqs| - 1] == Request(clientIp, minute) && outcomes[|reqs| - 1] == Forwarded;
      ForwardedIn(reqs[..|reqs| - 1], outcomes[..|reqs| - 1], clientIp, minute) + (if counted then 1 else 0)
  }

  /** Requests are dispatched one after another and the clock does not run backwards. */
  predicate ClockMonotone(reqs: seq<Request>)
  {
    forall i :: 0 < i < |reqs| ==> reqs[i - 1].minute <= reqs[i].minute
  }

  function Min(a: int, b: int): int
  {
    if a <= b then a else b
  }

  function Max(a: int, b: int): int
  {
    if a <= b then b else a
  }

  lemma {:induction false} ServeInvariant(limit: int, reqs: seq<Request>, ip: string)
    requires ClockMonotone(reqs)
    ensures var (counts, outcomes) := Serve(limit, reqs);
      && (ip !in counts ==> forall m :: CountIn(reqs, ip, m) == 0)
      && (ip in counts ==> counts[ip].count == CountIn(reqs, ip, counts[ip].minute))
      && (ip in counts ==> forall m :: m > counts[ip].minute ==> CountIn(reqs, ip, m) == 0)
      && (ip in counts ==> counts[ip].minute <= reqs[|reqs| - 1].minute)
      && (forall m :: ForwardedIn(reqs, outcomes, ip, m) == Min(CountIn(reqs, ip, m), Max(limit, 0)))
  {
    if |reqs| > 0 {
      var init, r := reqs[..|reqs| - 1], reqs[|reqs| - 1];
      assert ClockMonotone(init);
      ServeInvariant(limit, init, ip);
      var (counts, outcomes) := Serve(limit, init);
      var (counts', outcomes') := Serve(limit, reqs);
      assert outcomes'[..|reqs| - 1] == outcomes;
      if |init| > 0 {
        assert init[|init| - 1].minute <= r.minute;
      }
      if r.clientIp == ip {
        var w := NextWindow(counts, ip, r.minute);
        assert counts'[ip] == w;
        if ip in counts && counts[ip].minute == r.minute {
          assert w.count == counts[ip].count + 1;
        } else {
          assert CountIn(init, ip, r.minute) == 0;
          assert w.count == 1;
        }
      }
    }
  }

  /**
   * With requests dispatched in clock order, in every minute each client has
   * exactly its first `calls_per_minute` requests forwarded (none when the
   * limit is not positive), so never more than that.
   */
  lemma ForwardedPerMinute(limit: int, reqs: seq<Request>, clientIp: string, minute: int)
    requires ClockMonotone(reqs)
    ensures ForwardedIn(reqs, Serve(limit, reqs).1, clientIp, minute) == Min(CountIn(reqs, clientIp, minute), Max(limit, 0))
    ensures ForwardedIn(reqs, Serve(limit, reqs).1, clientIp, minute) <= Max(limit, 0)
  {
    ServeInvariant(limit, reqs, clientIp);
  }

  /** The decisions for a prefix of the requests are the first decisions for all of them. */
  lemma {:induction false} ServePrefix(limit: int, reqs: seq<Request>, k: nat)
    requires k <= |reqs|
    ensures Serve(limit, reqs[..k]).1 == Serve(limit, reqs).1[..k]
    decreases |reqs|
  {
    if k < |reqs| {
      var init := reqs[..|reqs| - 1];
      assert reqs[..k] == init[..k];
      ServePrefix(limit, init, k);
      assert Serve(limit, reqs).1[..|reqs| - 1] == Serve(limit, init).1;
    } else {
      assert reqs[..k] == reqs;
    }
  }

  /** In clock order, the window a request lands in counts the requests of its client in its minute so far. */
  lemma LastWindowCounts(limit: int, pre: seq<Request>)
    requires ClockMonotone(pre) && |pre| > 0
    ensures var r := pre[|pre| - 1];
      NextWindow(Serve(limit, pre[..|pre| - 1]).0, r.clientIp, r.minute).count == CountIn(pre, r.clientIp, r.minute)
  {
    var init, r := pre[..|pre| - 1], pre[|pre| - 1];
    assert ClockMonotone(init);
    ServeInvariant(limit, init, r.clientIp);
    var counts := Serve(limit, init).0;
    if |init| > 0 {
      assert init[|init| - 1].minute <= r.minute;
    }
    if !(r.clientIp in counts && counts[r.clientIp].minute == r.minute) {
      assert CountIn(init, r.clientIp, r.minute) == 0;
    }
  }

  /**
   * With requests dispatched in clock order, a request is forwarded exactly
   * when it is among the first `calls_per_minute` requests of its client in
   * its minute.
   */
  lemma ForwardedIffAmongFirst(limit: int, reqs: seq<Request>, i: nat)
    requires ClockMonotone(reqs)
    requires i < |reqs|
    ensures Serve(limit, reqs).1[i] == Forwarded <==> CountIn(reqs[..i + 1], reqs[i].clientIp, reqs[i].minute) <= limit
  {
    var pre := reqs[..i + 1];
    assert pre[..i] == reqs[..i] && pre[i] == reqs[i];
    assert ClockMonotone(pre);
    ServePrefix(limit, reqs, i + 1);
    LastWindowCounts(limit, pre);
    assert Serve(limit, pre).1[i] == Admit(limit, Serve(limit, pre[..i]).0, reqs[i]).1;
  }

  /** `verify_api_key`: with no key configured every request passes; otherwise only the configured key. */
  function VerifyApiKey(configuredKey: string, suppliedKey: Option<string>): (r: Result<bool, HttpError>)
    ensures configuredKey == "" ==> r == Success(true)
    ensures configuredKey != "" ==> (r.Success? <==> suppliedKey == Some(configuredKey))
    ensures r.Success? ==> r.value
    ensures r.Failure? ==> r.error == InvalidApiKey
  {
    if configuredKey == "" then Success(true)
    else if suppliedKey != Some(configuredKey) then Failure(InvalidApiKey)
    else Success(true)
  }

  /** How much of an incoming message the server logs. */
  const PreviewLength: nat := 50

  /** The logged preview: the first 50 characters, and `...` when the message is longer. */
  function MessagePreview(userMessage: string): (p: string)
    ensures |userMessage| <= PreviewLength ==> p == userMessage
    ensures |userMessage| > PreviewLength ==>
      |p| == PreviewLength + 3 && p[..PreviewLength] == userMessage[..PreviewLength] && p[PreviewLength..] == "..."
  {
    Take(userMessage, PreviewLength) + (if |userMessage| > PreviewLength then "..." else "")
  }

  /** The log line written when a message arrives. */
  function ReceivedLogLine(threadId: string, userMessage: string): (line: string)
    ensures StartsWith(line, "Received message for thread " + threadId + ": ")
    ensures |line| <= |"Received message for thread " + threadId + ": "| + PreviewLength + 3
    ensures |userMessage| <= PreviewLength ==> line == "Received message for thread " + threadId + ": " + userMessage
  {
    "Received message for thread " + threadId + ": " + MessagePreview(userMessage)
  }

  /** The endpoint's reply. */
  datatype ChatbotResponse = ChatbotResponse(response: string, references: seq<string>)

  /**
   * The reply built from the conversation's last message: its text, and the
   * references it carries, or none when it carries no `references` key.
   */
  function ChatbotReply(aiResponse: Message): (r: ChatbotResponse)
    ensures r.response == aiResponse.content
    ensures "references" in aiResponse.additionalKwargs ==> r.references == aiResponse.additionalKwargs["references"]
    ensures "references" !in aiResponse.additionalKwargs ==> r.references == []
  {
    var references := if "references" in aiResponse.additionalKwargs then aiResponse.additionalKwargs["references"] else [];
    ChatbotResponse(aiResponse.content, references)
  }

  /**
   * A turn that ends with the generate step is answered with the generated
   * text and exactly the decision numbers the generator cited.
   */
  lemma GeneratedReplyCarriesReferences(result: Workflow.AgentResponse)
    ensures ChatbotReply(Workflow.GenerateMessage(result)).references == result.courtDocumentSources
    ensures StartsWith(ChatbotReply(Workflow.GenerateMessage(result)).response, result.response)
  {
  }
}
