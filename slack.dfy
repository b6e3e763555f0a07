/** The Slack-style executor: validates its config, renders the message text and
    POSTs it with up to three attempts and linear backoff.
    HTTP responses are an input sequence (what the endpoint answers on each attempt)
    and the sleeps are recorded as a list of delays in milliseconds. */
module Slack {
  import opened Wrappers
  import opened Json
  import opened Text

  const MaxAttempts: nat := 3
  const BackoffStepMs: nat := 200
  const TooManyRequests: int := 429

  /** What one attempt gets back: a transport error from the client, or a status code. */
  datatype HttpOutcome = TransportError(cause: string) | Response(status: int)

  /** Response classes: 2xx success (section 15.3 of RFC 9110); 429 Too Many Requests
      (section 4 of RFC 6585) and 5xx server errors (section 15.6 of RFC 9110), together
      with transport errors, are retryable; every other status is terminal. */
  datatype Class = Delivered | Retryable | Terminal

  /** The branch order of slack.go:57-67: the retryable test comes first. */
  function Classify(o: HttpOutcome): (c: Class)
    ensures c == Delivered <==> o.Response? && 200 <= o.status < 300
    ensures c == Retryable <==> o.TransportError? || o.status == TooManyRequests || o.status >= 500
    ensures c == Terminal <==>
      o.Response? && o.status != TooManyRequests && (o.status < 200 || 300 <= o.status < 500)
  {
    match o
    case TransportError(_) => Retryable
    case Response(s) =>
      if s == TooManyRequests || s >= 500 then Retryable
      else if 200 <= s < 300 then Delivered
      else Terminal
  }

  /** `lastErr` after a retryable attempt. */
  datatype AttemptError = TransportFailed(cause: string) | RetryableStatus(status: int)

  function AttemptErrorOf(o: HttpOutcome): AttemptError {
    match o
    case TransportError(c) => TransportFailed(c)
    case Response(s) => RetryableStatus(s)
  }

  datatype SendError =
    | MissingWebhookUrl
    | BuildRequestFailed(cause: string)
    | NonRetryableStatus(status: int)
    | RetriesExhausted(last: AttemptError)

  function AttemptMessage(e: AttemptError): string {
    match e
    case TransportFailed(c) => c
    case RetryableStatus(s) => "slack returned " + IntToString(s)
  }

  /** The error text the executor hands back to the worker. */
  function SendMessage(e: SendError): string {
    match e
    case MissingWebhookUrl => "missing webhook_url in slack action config"
    case BuildRequestFailed(c) => "build request: " + c
    case NonRetryableStatus(s) => "slack returned non-retryable status " + IntToString(s)
    case RetriesExhausted(last) => "slack send failed after retries: " + AttemptMessage(last)
  }

  /** The message text: the configured template when there is one, else the payload
      in a json code fence. */
  function MessageText(cfg: Object, payload: string): (text: string)
    ensures StringField(cfg, "message_template") != "" ==> text == StringField(cfg, "message_template")
    ensures StringField(cfg, "message_template") == "" ==> text == "Payload:\n```json\n" + payload + "\n```"
  {
    var template := StringField(cfg, "message_template");
    if template != "" then template else "Payload:\n```json\n" + payload + "\n```"
  }

  /** One POST: the webhook URL and the `text` member of its JSON body. */
  datatype Post = Post(url: string, text: string)

  /** The delays slept after the first n attempts: 200, 400, 600, ... ms. */
  function Backoffs(n: nat): (d: seq<nat>)
    ensures |d| == n
    ensures forall i :: 0 <= i < n ==> d[i] == BackoffStepMs * (i + 1)
  {
    seq(n, i => BackoffStepMs * (i + 1))
  }

  /** The result of a send: the error, how many POSTs were made, the sleeps. */
  datatype Sent = Sent(err: Option<SendError>, posts: nat, delays: seq<nat>)

  /** The retry loop from `attempt` on, `lastErr` and `delays` as left by earlier attempts. */
  function RetryFrom(outcomes: seq<HttpOutcome>, attempt: nat, lastErr: Option<AttemptError>, delays: seq<nat>): Sent
    requires attempt <= MaxAttempts <= |outcomes|
    requires attempt > 0 ==> lastErr.Some?
    decreases MaxAttempts - attempt
  {
    if attempt == MaxAttempts then Sent(Some(RetriesExhausted(lastErr.value)), attempt, delays)
    else
      var o := outcomes[attempt];
      match Classify(o)
      case Delivered => Sent(None, attempt + 1, delays)
      case Terminal => Sent(Some(NonRetryableStatus(o.status)), attempt + 1, delays)
      case Retryable =>
        RetryFrom(outcomes, attempt + 1, Some(AttemptErrorOf(o)), delays + [BackoffStepMs * (attempt + 1)])
  }

  /** `Sender.Execute`; `urlError` is the error building a request for the URL, if any. */
  function SendSpec(cfg: Object, urlError: Option<string>, outcomes: seq<HttpOutcome>): Sent
    requires |outcomes| == MaxAttempts
  {
    if StringField(cfg, "webhook_url") == "" then Sent(Some(MissingWebhookUrl), 0, [])
    else if urlError.Some? then Sent(Some(BuildRequestFailed(urlError.value)), 0, [])
    else RetryFrom(outcomes, 0, None, [])
  }

  /** The first of the three outcomes that is not retryable, or 3 when all are. */
  function FirstSettled(outcomes: seq<HttpOutcome>, from: nat): (k: nat)
    requires from <= MaxAttempts <= |outcomes|
    ensures from <= k <= MaxAttempts
    ensures forall i :: from <= i < k ==> Classify(outcomes[i]) == Retryable
    ensures k < MaxAttempts ==> Classify(outcomes[k]) != Retryable
    decreases MaxAttempts - from
  {
    if from == MaxAttempts || Classify(outcomes[from]) != Retryable then from
    else FirstSettled(outcomes, from + 1)
  }

  /** The closed form of the retry loop: it stops at the first outcome that is not
      retryable, succeeding on 2xx and failing without retry otherwise; after three
      retryable outcomes it fails with the last one observed. The delays before the
      stop are 200, 400, 600 ms, one per retryable attempt, including the last. */
  lemma {:induction false} RetryClosedForm(outcomes: seq<HttpOutcome>, attempt: nat, lastErr: Option<AttemptError>)
    requires attempt <= MaxAttempts <= |outcomes|
    requires attempt > 0 ==> lastErr.Some?
    ensures var k := FirstSettled(outcomes, attempt);
            var r := RetryFrom(outcomes, attempt, lastErr, Backoffs(attempt));
      && r.delays == Backoffs(k)
      && (k < MaxAttempts ==> r.posts == k + 1)
      && (k < MaxAttempts && Classify(outcomes[k]) == Delivered ==> r.err == None)
      && (k < MaxAttempts && Classify(outcomes[k]) == Terminal ==> r.err == Some(NonRetryableStatus(outcomes[k].status)))
      && (k == MaxAttempts && attempt < MaxAttempts ==>
            r.posts == MaxAttempts && r.err == Some(RetriesExhausted(AttemptErrorOf(outcomes[MaxAttempts - 1]))))
    decreases MaxAttempts - attempt
  {
    if attempt < MaxAttempts && Classify(outcomes[attempt]) == Retryable {
      var o := outcomes[attempt];
      assert Backoffs(attempt) + [BackoffStepMs * (attempt + 1)] == Backoffs(attempt + 1);
      RetryClosedForm(outcomes, attempt + 1, Some(AttemptErrorOf(o)));
    }
  }

  /** Three retryable outcomes in a row exhaust the retries: three POSTs, three sleeps,
      and the last outcome's error reported. */
  lemma RetriesExhaustedSend(cfg: Object, urlError: Option<string>, outcomes: seq<HttpOutcome>)
    requires |outcomes| == MaxAttempts && StringField(cfg, "webhook_url") != "" && urlError.None?
    requires forall k :: 0 <= k < MaxAttempts ==> Classify(outcomes[k]) == Retryable
    ensures SendSpec(cfg, urlError, outcomes) ==
      Sent(Some(RetriesExhausted(AttemptErrorOf(outcomes[MaxAttempts - 1]))), MaxAttempts, Backoffs(MaxAttempts))
  {
    RetryClosedForm(outcomes, 0, None);
    assert Backoffs(0) == [];
    assert FirstSettled(outcomes, 0) == MaxAttempts;
  }

  /** The send as a whole: a missing or non-string webhook_url fails before any POST;
      otherwise at most three POSTs are made and the sleeps grow strictly. */
  lemma SendBounds(cfg: Object, urlError: Option<string>, outcomes: seq<HttpOutcome>)
    requires |outcomes| == MaxAttempts
    ensures var s := SendSpec(cfg, urlError, outcomes);
      && s.posts <= MaxAttempts
      && |s.delays| <= s.posts
      && (forall i, j :: 0 <= i < j < |s.delays| ==> s.delays[i] < s.delays[j])
      && (StringField(cfg, "webhook_url") == "" ==> s == Sent(Some(MissingWebhookUrl), 0, []))
      && (s.err.None? ==> s.posts > 0 && Classify(outcomes[s.posts - 1]) == Delivered)
  {
    if StringField(cfg, "webhook_url") != "" && urlError.None? {
      RetryClosedForm(outcomes, 0, None);
      assert Backoffs(0) == [];
    }
  }

  /** `Sender.Execute` (slack.go:27-71): returns the error, the POSTs made and the sleeps. */
  method Execute(cfg: Object, payload: string, urlError: Option<string>, outcomes: seq<HttpOutcome>)
    returns (err: Option<SendError>, posts: seq<Post>, delays: seq<nat>)
    requires |outcomes| == MaxAttempts
    ensures var s := SendSpec(cfg, urlError, outcomes);
      && err == s.err && delays == s.delays && |posts| == s.posts
      && forall i :: 0 <= i < |posts| ==>
           posts[i] == Post(StringField(cfg, "webhook_url"), MessageText(cfg, payload))
  {
    var webhookUrl := StringField(cfg, "webhook_url");
    var template := StringField(cfg, "message_template");
    posts, delays := [], [];
    if webhookUrl == "" {
      return Some(MissingWebhookUrl), posts, delays;
    }
    var text: string;
    if template != "" {
      text := template;
    } else {
      text := "Payload:\n```json\n" + payload + "\n```";
    }
    var lastErr: Option<AttemptError> := None;
    var attempt: nat := 0;
    while attempt < MaxAttempts
      invariant attempt <= MaxAttempts
      invariant attempt > 0 ==> lastErr.Some? && urlError.None?
      invariant |posts| == attempt && delays == Backoffs(attempt)
      invariant forall i :: 0 <= i < attempt ==> posts[i] == Post(webhookUrl, text)
      invariant RetryFrom(outcomes, attempt, lastErr, delays) == RetryFrom(outcomes, 0, None, [])
    {
      if urlError.Some? {
        return Some(BuildRequestFailed(urlError.value)), posts, delays;
      }
      posts := posts + [Post(webhookUrl, text)];
      var outcome := outcomes[attempt];
      match outcome {
        case TransportError(cause) =>
          lastErr := Some(TransportFailed(cause));
        case Response(status) =>
          if status == TooManyRequests || status >= 500 {
            lastErr := Some(RetryableStatus(status));
          } else if 200 <= status < 300 {
            return None, posts, delays;
          } else {
            return Some(NonRetryableStatus(status)), posts, delays;
          }
      }
      delays := delays + [BackoffStepMs * (attempt + 1)];
      attempt := attempt + 1;
    }
    err := Some(RetriesExhausted(lastErr.value));
  }
}
