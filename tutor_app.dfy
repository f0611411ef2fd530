/**
 * The chat component as an object whose fields are its React state and
 * whose methods update them step by step as the event handlers do.
 */
module TutorApp {
  import opened Wrappers
  import opened JsText
  import opened Transcript
  import opened ApiRequest
  import opened ChatCompletion
  import opened Conversation

  class App {
    const config: Config

    var messages: seq<Message>
    var isTyping: bool
    var inputValue: string
    var showModal: bool
    var studentName: string
    var studentAge: string
    var studentLesson: string

    /** The fields as one value. */
    function State(): ChatState
      reads this
    {
      ChatState(messages, isTyping, inputValue, showModal, studentName, studentAge, studentLesson)
    }

    /** Mounting the component: the greeting alone, the modal open, the
        profile empty. */
    constructor (config: Config)
      ensures this.config == config
      ensures State() == Initial()
    {
      this.config := config;
      messages := [Greeting()];
      isTyping := false;
      inputValue := "";
      showModal := true;
      studentName, studentAge, studentLesson := "", "", "";
    }

    /** Reset of the student info, given the answer to the confirmation. */
    method ResetStudentInfo(confirmed: bool)
      modifies this
      ensures State() == AfterReset(old(State()), confirmed)
      ensures confirmed ==> messages == [Greeting()] && showModal
      ensures !confirmed ==> State() == old(State())
    {
      if confirmed {
        studentName := "";
        studentAge := "";
        studentLesson := "";
        messages := [Greeting()];
        showModal := true;
      }
    }

    /** The send handler, with the network outcome given; returns the request
        it sent, if any. */
    method HandleSend(message: string, outcome: FetchOutcome) returns (sent: Option<Request>)
      modifies this
      ensures State() == AfterSend(old(State()), config, message, outcome)
      ensures sent == SentRequest(old(State()), config, message)
      ensures old(messages) <= messages && |messages| <= |old(messages)| + 2
    {
      ghost var before := State();
      if IsBlank(message) {
        sent := None;
        return;
      }

      var result := config.filterMessage(message);
      if !result.allowed {
        messages := messages + [BotMessage(result.reason)];
        sent := None;
        assert State() == before.(messages := before.messages + [BotMessage(result.reason)]);
        return;
      }

      var newMessage := UserMessage(message);
      var newMessages := messages + [newMessage];
      messages := newMessages;
      inputValue := "";
      isTyping := true;
      ghost var pending := State();
      assert pending == before.(messages := newMessages, inputValue := "", isTyping := true);

      assert Accepted(config, message);
      assert AfterSend(before, config, message, outcome) == AfterProcess(pending, config, newMessages, outcome);
      assert SentRequest(before, config, message) == RequestFor(pending, config, newMessages);

      sent := ProcessMessageToChatGPT(newMessages, outcome);
    }

    /** Ends a turn for the transcript snapshot `chatMessages`: the snapshot
        plus one bot entry becomes the transcript and typing stops; returns
        the request sent, none when offline. */
    method ProcessMessageToChatGPT(chatMessages: seq<Message>, outcome: FetchOutcome) returns (sent: Option<Request>)
      modifies this
      ensures State() == AfterProcess(old(State()), config, chatMessages, outcome)
      ensures sent == RequestFor(old(State()), config, chatMessages)
      ensures |messages| == |chatMessages| + 1 && messages[..|chatMessages|] == chatMessages
      ensures !isTyping
    {
      if !KeyUsable(config.apiKey) {
        messages := chatMessages + [BotMessage(OFFLINE_NOTICE)];
        isTyping := false;
        sent := None;
        return;
      }

      var systemMessage := config.generateSystemMessage(studentName, studentAge, studentLesson);
      var apiRequestBody := BuildRequest(systemMessage, chatMessages);
      sent := Some(apiRequestBody);

      var text: string;
      match Resolve(outcome) {
        case Success(replyContent) =>
          text := replyContent;
        case Failure(errorMessage) =>
          text := ERROR_PREFIX + errorMessage;
      }
      messages := chatMessages + [BotMessage(text)];
      isTyping := false;
    }
  }
}
