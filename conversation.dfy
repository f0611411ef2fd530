/**
 * The tutor component's state as a value, and what each operation makes of
 * it: sending an utterance (blank, denied or accepted, and then ended
 * offline, with a reply or with an error) and resetting the student info.
 */
module Conversation {
  import opened Wrappers
  import opened JsText
  import opened Transcript
  import opened ApiRequest
  import opened ChatCompletion

  /** The content filter's verdict; `reason` is shown when denied. */
  datatype FilterDecision = FilterDecision(allowed: bool, reason: string)

  /** What the component takes from outside: the API key read at start-up,
      the content filter and the system-message generator (their code is not
      part of this model, so they are given as functions). The generator gets
      the age as entered. */
  datatype Config = Config(
    apiKey: Option<string>,
    filterMessage: string -> FilterDecision,
    generateSystemMessage: (string, string, string) -> ApiMessage)

  /** The component state: the transcript, the typing flag, the input box,
      the onboarding modal flag and the three profile fields. */
  datatype ChatState = ChatState(
    messages: seq<Message>,
    isTyping: bool,
    inputValue: string,
    showModal: bool,
    studentName: string,
    studentAge: string,
    studentLesson: string)

  /** The state when the component mounts. */
  function Initial(): (s: ChatState)
    ensures s.messages == [Greeting()] && !s.isTyping && s.showModal
    ensures s.inputValue == "" && s.studentName == "" && s.studentAge == "" && s.studentLesson == ""
  {
    ChatState([Greeting()], false, "", true, "", "", "")
  }

  /** processMessageToChatGPT(chatMessages): the transcript becomes the
      snapshot plus one bot entry, and typing stops. */
  function AfterProcess(s: ChatState, cfg: Config, chatMessages: seq<Message>, outcome: FetchOutcome): (t: ChatState)
    ensures |t.messages| == |chatMessages| + 1 && t.messages[..|chatMessages|] == chatMessages
    ensures t.messages[|chatMessages|].sender == BOT_SENDER
    ensures t.messages[|chatMessages|].text == TurnReply(KeyUsable(cfg.apiKey), outcome)
    ensures !t.isTyping
    ensures t.(messages := s.messages, isTyping := s.isTyping) == s
  {
    s.(messages := chatMessages + [BotMessage(TurnReply(KeyUsable(cfg.apiKey), outcome))],
       isTyping := false)
  }

  /** The request processMessageToChatGPT sends for a snapshot: none when
      offline, otherwise the system message built from the current profile
      followed by the mapped snapshot. */
  function RequestFor(s: ChatState, cfg: Config, chatMessages: seq<Message>): (r: Option<Request>)
    ensures r.Some? <==> KeyUsable(cfg.apiKey)
    ensures r.Some? ==>
      && |r.value.messages| == |chatMessages| + 1
      && r.value.messages[0] == cfg.generateSystemMessage(s.studentName, s.studentAge, s.studentLesson)
      && r.value.messages[1..] == ToApiMessages(chatMessages)
  {
    if !KeyUsable(cfg.apiKey) then None
    else Some(BuildRequest(cfg.generateSystemMessage(s.studentName, s.studentAge, s.studentLesson), chatMessages))
  }

  /** The utterance passes both guards of handleSend. */
  predicate Accepted(cfg: Config, message: string)
    ensures Accepted(cfg, message) <==> !AllWhitespace(message) && cfg.filterMessage(message).allowed
  {
    !IsBlank(message) && cfg.filterMessage(message).allowed
  }

  /** handleSend(message), run to the end of the turn. */
  function AfterSend(s: ChatState, cfg: Config, message: string, outcome: FetchOutcome): (t: ChatState)
    ensures s.messages <= t.messages && |t.messages| <= |s.messages| + 2
    ensures t.showModal == s.showModal && t.studentName == s.studentName
    ensures t.studentAge == s.studentAge && t.studentLesson == s.studentLesson
  {
    if IsBlank(message) then s
    else
      var decision := cfg.filterMessage(message);
      if !decision.allowed then s.(messages := s.messages + [BotMessage(decision.reason)])
      else
        var newMessages := s.messages + [UserMessage(message)];
        var pending := s.(messages := newMessages, inputValue := "", isTyping := true);
        AfterProcess(pending, cfg, newMessages, outcome)
  }

  /** The request handleSend(message) sends, if any. */
  function SentRequest(s: ChatState, cfg: Config, message: string): (r: Option<Request>)
    ensures r.Some? <==> Accepted(cfg, message) && KeyUsable(cfg.apiKey)
    ensures r.Some? ==> |r.value.messages| == |s.messages| + 2
  {
    if !Accepted(cfg, message) then None
    else RequestFor(s, cfg, s.messages + [UserMessage(message)])
  }

  /** resetStudentInfo, given the answer to the confirmation dialog. */
  function AfterReset(s: ChatState, confirmed: bool): (t: ChatState)
    ensures confirmed ==> t.messages == [Greeting()] && t.showModal
    ensures confirmed ==> t.studentName == "" && t.studentAge == "" && t.studentLesson == ""
    ensures t.isTyping == s.isTyping && t.inputValue == s.inputValue
  {
    if !confirmed then s
    else s.(studentName := "", studentAge := "", studentLesson := "",
            messages := [Greeting()], showModal := true)
  }

  // ---- handleSend ----

  /** An empty or whitespace-only utterance changes nothing and sends nothing. */
  lemma BlankSendIsNoOp(s: ChatState, cfg: Config, message: string, outcome: FetchOutcome)
    requires AllWhitespace(message)
    ensures AfterSend(s, cfg, message, outcome) == s
    ensures SentRequest(s, cfg, message) == None
  {
  }

  /** A denied utterance adds one bot entry carrying the filter's reason and
      nothing else: no student entry, the typing flag, the input box and the
      profile are untouched, and no request is sent. */
  lemma DeniedSendAppendsReason(s: ChatState, cfg: Config, message: string, outcome: FetchOutcome)
    requires !AllWhitespace(message) && !cfg.filterMessage(message).allowed
    ensures var t := AfterSend(s, cfg, message, outcome);
      && |t.messages| == |s.messages| + 1
      && t.messages[..|s.messages|] == s.messages
      && t.messages[|s.messages|].sender == BOT_SENDER
      && t.messages[|s.messages|].text == cfg.filterMessage(message).reason
      && t.(messages := s.messages) == s
    ensures SentRequest(s, cfg, message) == None
  {
  }

  /** An accepted utterance adds the student's entry with the original text
      and then exactly one bot entry with the turn's reply; earlier entries
      stay as they were, typing has stopped, the input box is cleared and the
      profile and modal flag are untouched. */
  lemma AcceptedSendAppendsTwo(s: ChatState, cfg: Config, message: string, outcome: FetchOutcome)
    requires !AllWhitespace(message) && cfg.filterMessage(message).allowed
    ensures var t := AfterSend(s, cfg, message, outcome);
      && |t.messages| == |s.messages| + 2
      && t.messages[..|s.messages|] == s.messages
      && t.messages[|s.messages|] == UserMessage(message)
      && t.messages[|s.messages| + 1].sender == BOT_SENDER
      && t.messages[|s.messages| + 1].text == TurnReply(KeyUsable(cfg.apiKey), outcome)
      && !t.isTyping
      && t.inputValue == ""
      && t.(messages := s.messages, isTyping := s.isTyping, inputValue := s.inputValue) == s
  {
    var newMessages := s.messages + [UserMessage(message)];
    var reply := BotMessage(TurnReply(KeyUsable(cfg.apiKey), outcome));
    var t := AfterSend(s, cfg, message, outcome);
    assert t == s.(messages := newMessages + [reply], inputValue := "", isTyping := false);
    assert t.messages[..|s.messages|] == newMessages[..|s.messages|];
  }

  /** On every path the old transcript is a prefix of the new one and it
      grows by at most two entries; a growth of two happens exactly when the
      utterance is accepted. */
  lemma SendKeepsHistory(s: ChatState, cfg: Config, message: string, outcome: FetchOutcome)
    ensures var t := AfterSend(s, cfg, message, outcome);
      && s.messages <= t.messages
      && |t.messages| <= |s.messages| + 2
      && (|t.messages| == |s.messages| + 2 <==> Accepted(cfg, message))
  {
    if IsBlank(message) {
    } else if !cfg.filterMessage(message).allowed {
      DeniedSendAppendsReason(s, cfg, message, outcome);
    } else {
      AcceptedSendAppendsTwo(s, cfg, message, outcome);
    }
  }

  /** The typing flag is off after every accepted turn, and a turn that is
      not accepted leaves it as it was. */
  lemma SendClearsTyping(s: ChatState, cfg: Config, message: string, outcome: FetchOutcome)
    ensures AfterSend(s, cfg, message, outcome).isTyping == (s.isTyping && !Accepted(cfg, message))
  {
  }

  /** Without a usable key an accepted utterance is answered by the offline
      notice and no request is sent. */
  lemma OfflineSend(s: ChatState, cfg: Config, message: string, outcome: FetchOutcome)
    requires Accepted(cfg, message) && !KeyUsable(cfg.apiKey)
    ensures AfterSend(s, cfg, message, outcome).messages
         == s.messages + [UserMessage(message), BotMessage(OFFLINE_NOTICE)]
    ensures SentRequest(s, cfg, message) == None
  {
    var notice := BotMessage(OFFLINE_NOTICE);
    var newMessages := s.messages + [UserMessage(message)];
    var pending := s.(messages := newMessages, inputValue := "", isTyping := true);
    assert AfterSend(s, cfg, message, outcome) == AfterProcess(pending, cfg, newMessages, outcome);
    AppendTwo(s.messages, UserMessage(message), notice);
  }

  /** Appending two entries one after the other is appending the pair. */
  lemma AppendTwo<T>(a: seq<T>, x: T, y: T)
    ensures a + [x] + [y] == a + [x, y]
  {
  }

  /** With a usable key the request sent for an accepted utterance starts
      with the system message for the current profile, has one more element
      than the transcript that includes the new entry, and ends with the
      student's utterance in the user role. */
  lemma SentRequestShape(s: ChatState, cfg: Config, message: string)
    requires Accepted(cfg, message) && KeyUsable(cfg.apiKey)
    ensures var r := SentRequest(s, cfg, message);
      && r.Some?
      && r.value.model == OPENAI_MODEL
      && r.value.messages[0] == cfg.generateSystemMessage(s.studentName, s.studentAge, s.studentLesson)
      && |r.value.messages| == |s.messages| + 2
      && r.value.messages[1..] == ToApiMessages(s.messages) + [ApiMessage(ROLE_USER, message)]
  {
    ToApiMessagesAppend(s.messages, [UserMessage(message)]);
    assert ToApiMessages([UserMessage(message)]) == [ApiMessage(ROLE_USER, message)] by {
      assert [UserMessage(message)][1..] == [];
    }
  }

  /** Scenario: without a key, "hello" sent on a fresh conversation yields
      the greeting, the student's entry and the offline notice. */
  lemma OfflineHelloExample(cfg: Config, outcome: FetchOutcome)
    requires cfg.filterMessage("hello").allowed && !KeyUsable(cfg.apiKey)
    ensures AfterSend(Initial(), cfg, "hello", outcome).messages
         == [Greeting(), Message("hello", "user"), Message("(No connection available) Running in offline mode.", "ChatGPT")]
  {
    assert !IsJsWhitespace("hello"[0]);
  }

  // ---- resetStudentInfo ----

  /** A declined reset changes nothing. */
  lemma DeclinedResetIsNoOp(s: ChatState)
    ensures AfterReset(s, false) == s
  {
  }

  /** A confirmed reset clears the profile, leaves only the greeting in the
      transcript and reopens the modal; the typing flag and the input box
      are not touched. */
  lemma ConfirmedResetRestoresGreeting(s: ChatState)
    ensures var t := AfterReset(s, true);
      && t.studentName == "" && t.studentAge == "" && t.studentLesson == ""
      && t.messages == Initial().messages
      && t.showModal
      && t.isTyping == s.isTyping && t.inputValue == s.inputValue
  {
  }

  /** Two confirmed resets are one, and a reset after any answer reaches the
      same state as one confirmed reset. */
  lemma ResetIdempotent(s: ChatState, confirmed: bool)
    ensures AfterReset(AfterReset(s, confirmed), true) == AfterReset(s, true)
    ensures AfterReset(AfterReset(s, true), confirmed) == AfterReset(s, true)
  {
  }

  /** When no turn is pending and the input box is empty, a confirmed reset
      brings the component back to the state it mounted with. */
  lemma ResetReturnsToInitial(s: ChatState)
    requires !s.isTyping && s.inputValue == ""
    ensures AfterReset(s, true) == Initial()
  {
  }
}
