/** The donation result endpoint (donation-liff/pages/api/result.ts): it polls
    the Kaia Wallet API for a request key until the request is completed or
    canceled, and maps the request and the poll's outcome to an HTTP status
    code and JSON body. */
module DonationResult {
  import opened Wrappers
  import opened KaiaWalletApi

  /** The default `maxAttempts` of the donation poller. */
  const DefaultMaxAttempts := 60

  /** A reply that ends the loop: any body whose status is `completed` or
      `canceled`; its `type` is not looked at. */
  predicate IsTerminal(reply: Reply): (b: bool)
    ensures b ==> reply.Received?
    ensures reply.Received? && reply.data.status == StatusPending ==> !b
    ensures reply.Received? && reply.data.status == StatusCompleted ==> b
    ensures reply.Received? && reply.data.status == StatusCanceled ==> b
  {
    reply.Received? && (reply.data.status == StatusCompleted || reply.data.status == StatusCanceled)
  }

  /** The body of the first terminal reply, or `None` when there is none. */
  function FirstTerminal(replies: seq<Reply>): (first: Option<ResultData>)
    ensures first.Some? ==> IsTerminal(Received(first.value))
  {
    if replies == [] then None
    else if IsTerminal(replies[0]) then Some(replies[0].data)
    else FirstTerminal(replies[1..])
  }

  /** The poll yields nothing exactly when no reply is terminal. */
  lemma {:induction false} FirstTerminalNone(replies: seq<Reply>)
    ensures FirstTerminal(replies).None? <==> forall k :: 0 <= k < |replies| ==> !IsTerminal(replies[k])
  {
    if replies != [] {
      FirstTerminalNone(replies[1..]);
      assert forall k :: 1 <= k < |replies| ==> replies[k] == replies[1..][k - 1];
    }
  }

  /** When it yields a body, that body is the first terminal reply's,
      unchanged. */
  lemma {:induction false} FirstTerminalIsFirst(replies: seq<Reply>, k: nat)
    requires k < |replies| && IsTerminal(replies[k])
    requires forall j :: 0 <= j < k ==> !IsTerminal(replies[j])
    ensures FirstTerminal(replies) == Some(replies[k].data)
  {
    if k > 0 {
      FirstTerminalIsFirst(replies[1..], k - 1);
    }
  }

  /** A reply that does not end the loop is passed over. */
  lemma FirstTerminalSkip(replies: seq<Reply>)
    requires replies != [] && !IsTerminal(replies[0])
    ensures FirstTerminal(replies) == FirstTerminal(replies[1..])
  {
  }

  /** `pollKaiaWalletResult(requestKey, maxAttempts)`: `replies[i]` answers
      the `i`-th status request (the sleep between requests is not modelled);
      `requests` counts the requests made. */
  method PollKaiaWalletResult(replies: seq<Reply>, maxAttempts: nat) returns (result: Option<ResultData>, requests: nat)
    requires maxAttempts <= |replies|
    ensures requests <= maxAttempts
    ensures forall k :: 0 <= k < requests - 1 ==> !IsTerminal(replies[k])
    ensures result.Some? ==> 0 < requests && IsTerminal(replies[requests - 1]) && result.value == replies[requests - 1].data
    ensures result.None? ==> requests == maxAttempts && forall k :: 0 <= k < maxAttempts ==> !IsTerminal(replies[k])
    ensures result == FirstTerminal(replies[..maxAttempts])
  {
    for i := 0 to maxAttempts
      invariant forall k :: 0 <= k < i ==> !IsTerminal(replies[k])
      invariant FirstTerminal(replies[..maxAttempts]) == FirstTerminal(replies[i..maxAttempts])
    {
      assert replies[i..maxAttempts][1..] == replies[i + 1..maxAttempts];
      var reply := replies[i];
      if reply.Received? {
        var data := reply.data;
        if data.status == StatusCompleted || data.status == StatusCanceled {
          return Some(data), i + 1;
        }
      }
      FirstTerminalSkip(replies[i..maxAttempts]);
    }
    return None, maxAttempts;
  }

  /** `req.query.requestKey`: absent, one value, or repeated. */
  datatype QueryParam = Missing | Single(value: string) | Repeated(values: seq<string>)

  datatype Body = ErrorBody(status: string, error: string) | DataBody(data: ResultData)

  /** `handler(req, res)`: the status code and body sent, and how many status
      requests were made for them. No failure can escape the poller, so the
      500 branch of the handler is never taken. */
  method Handler(httpMethod: string, requestKey: QueryParam, replies: seq<Reply>)
    returns (code: int, body: Body, requests: nat)
    requires httpMethod == "GET" && requestKey.Single? ==> DefaultMaxAttempts <= |replies|
    ensures httpMethod != "GET" ==>
              code == 405 && body == ErrorBody("error", "Method Not Allowed") && requests == 0
    ensures httpMethod == "GET" && !requestKey.Single? ==>
              code == 400 && body == ErrorBody("error", "Invalid requestKey") && requests == 0
    ensures httpMethod == "GET" && requestKey.Single? ==>
              var polled := FirstTerminal(replies[..DefaultMaxAttempts]);
              && (polled.None? ==> code == 408 && body == ErrorBody("timeout", "Polling timed out"))
              && (polled.Some? ==> code == 200 && body == DataBody(polled.value))
              && 0 < requests <= DefaultMaxAttempts
    ensures code == 200 ==> body.DataBody? && IsTerminal(Received(body.data))
  {
    if httpMethod != "GET" {
      return 405, ErrorBody("error", "Method Not Allowed"), 0;
    }
    if !requestKey.Single? {
      return 400, ErrorBody("error", "Invalid requestKey"), 0;
    }
    var result;
    result, requests := PollKaiaWalletResult(replies, DefaultMaxAttempts);
    if result.None? {
      code, body := 408, ErrorBody("timeout", "Polling timed out");
    } else {
      code, body := 200, DataBody(result.value);
    }
  }
}
