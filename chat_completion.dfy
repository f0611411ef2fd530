/**
 * What the completion call yields, and the bot text that ends a turn.
 * `fetch`, `response.text()` and `response.json()` are not modelled; only
 * what they produce is, as a `FetchOutcome`.
 */
module ChatCompletion {
  import opened Wrappers
  import opened JsText

  const OFFLINE_NOTICE: string := "(No connection available) Running in offline mode."
  const ERROR_PREFIX: string := "Sorry, I encountered an error. "
  const MISSING_CONTENT: string := "Missing message content from OpenAI."
  const FAKE_KEY: string := "fake-key"

  /** What the network call produced:
      - `Thrown`: `fetch`, `response.text()` or `response.json()` threw, or
        reading `choices` of a `null` JSON body raised a TypeError; it carries
        that error's message;
      - `Responded`: an HTTP response with its status, its body as text and
        `choices[0].message.content` of its JSON body (`None` when absent). */
  datatype FetchOutcome =
    | Thrown(message: string)
    | Responded(status: nat, body: string, content: Option<string>)

  /** `!API_KEY || API_KEY === 'fake-key'` is false: a key that allows the call. */
  predicate KeyUsable(apiKey: Option<string>)
    ensures KeyUsable(apiKey) ==> apiKey.Some? && apiKey.value != FAKE_KEY
    ensures apiKey.Some? && apiKey.value != "" && apiKey.value != FAKE_KEY ==> KeyUsable(apiKey)
    ensures apiKey == Some("") ==> !KeyUsable(apiKey)
  {
    apiKey.Some? && apiKey.value != "" && apiKey.value != FAKE_KEY
  }

  /** `response.ok`: the status is in the 2xx class. */
  predicate IsOk(status: nat)
    ensures IsOk(status) <==> status / 100 == 2
  {
    200 <= status <= 299
  }

  /** The message of the error thrown for a non-ok response. */
  function HttpErrorMessage(status: nat, body: string): (msg: string)
    ensures |msg| >= 8 + |body| && msg[..5] == "HTTP " && msg[|msg| - |body|..] == body
    ensures msg[5..|msg| - |body| - 2] == NatToDecimal(status)
    ensures msg[|msg| - |body| - 2..|msg| - |body|] == ": "
  {
    var d := NatToDecimal(status);
    var msg := "HTTP " + d + ": " + body;
    assert msg[5..|msg| - |body| - 2] == d;
    msg
  }

  /** The try block: the reply content, or the message of the error caught. */
  function Resolve(outcome: FetchOutcome): (r: Result<string, string>)
    ensures r.Success? <==>
      outcome.Responded? && IsOk(outcome.status) && outcome.content.Some? && outcome.content.value != ""
    ensures r.Success? ==> r.value == outcome.content.value && r.value != ""
  {
    match outcome
    case Thrown(message) => Failure(message)
    case Responded(status, body, content) =>
      if !IsOk(status) then Failure(HttpErrorMessage(status, body))
      else if content.None? || content.value == "" then Failure(MISSING_CONTENT)
      else Success(content.value)
  }

  /** The text of the one bot entry that ends an accepted turn. */
  function TurnReply(keyUsable: bool, outcome: FetchOutcome): (r: string)
    ensures !keyUsable ==> r == OFFLINE_NOTICE
    ensures keyUsable && Resolve(outcome).Success? ==> r == Resolve(outcome).value
    ensures keyUsable && Resolve(outcome).Failure? ==>
      var e := Resolve(outcome).error;
      |r| == |ERROR_PREFIX| + |e| && r[..|ERROR_PREFIX|] == ERROR_PREFIX && r[|ERROR_PREFIX|..] == e
  {
    if !keyUsable then OFFLINE_NOTICE
    else match Resolve(outcome)
      case Success(reply) => reply
      case Failure(message) => ERROR_PREFIX + message
  }

  /** Without a usable key the outcome is never looked at. */
  lemma OfflineReplyIsFixed(outcome: FetchOutcome)
    ensures TurnReply(false, outcome) == OFFLINE_NOTICE
  {
  }

  /** A 2xx response with non-empty content is shown verbatim. */
  lemma SuccessReplyIsVerbatim(status: nat, body: string, content: string)
    requires IsOk(status) && content != ""
    ensures TurnReply(true, Responded(status, body, Some(content))) == content
  {
  }

  /** A non-ok response is reported with its status and its body: the shown
      text starts with the apology and ends with the body. */
  lemma HttpErrorReplyCarriesDetail(status: nat, body: string, content: Option<string>)
    requires !IsOk(status)
    ensures var t := TurnReply(true, Responded(status, body, content));
      && t == ERROR_PREFIX + HttpErrorMessage(status, body)
      && t[..|ERROR_PREFIX|] == ERROR_PREFIX
      && t[|t| - |body|..] == body
  {
    var m := HttpErrorMessage(status, body);
    assert Resolve(Responded(status, body, content)) == Failure(m);
    var t := ERROR_PREFIX + m;
    assert t[..|ERROR_PREFIX|] == ERROR_PREFIX;
    assert t[|t| - |body|..] == m[|m| - |body|..];
  }

  /** A 2xx response whose content is absent or empty is an error, reported
      with the fixed "missing content" detail. */
  lemma MissingContentReplyIsError(status: nat, body: string, content: Option<string>)
    requires IsOk(status) && (content.None? || content.value == "")
    ensures TurnReply(true, Responded(status, body, content)) == ERROR_PREFIX + MISSING_CONTENT
  {
  }

  /** A thrown error is reported with its own message. */
  lemma ThrownReplyCarriesMessage(message: string)
    ensures TurnReply(true, Thrown(message)) == ERROR_PREFIX + message
  {
  }

  /** Every way a turn can end shows a non-empty bot text. */
  lemma TurnReplyNonEmpty(keyUsable: bool, outcome: FetchOutcome)
    ensures TurnReply(keyUsable, outcome) != ""
  {
    if keyUsable && Resolve(outcome).Failure? {
      assert |ERROR_PREFIX + Resolve(outcome).error| >= |ERROR_PREFIX|;
    }
  }

  /** A server error with status 500 and body "server error" shows that
      status and that body after the apology. */
  lemma ServerErrorExample()
    ensures TurnReply(true, Responded(500, "server error", None))
         == ERROR_PREFIX + "HTTP " + "500" + ": " + "server error"
  {
    assert NatToDecimal(5) == "5";
    assert NatToDecimal(50) == NatToDecimal(5) + ['0'] == "50";
    assert NatToDecimal(500) == NatToDecimal(50) + ['0'] == "500";
  }
}
