/**
 * The body of the chat-completion request: the transcript mapped to
 * role/content pairs, prefixed by the system message.
 */
module ApiRequest {
  import opened Transcript

  /** The model identifier every request names. */
  const OPENAI_MODEL: string := "gpt-4o"

  const ROLE_ASSISTANT: string := "assistant"
  const ROLE_USER: string := "user"

  /** One element of the request's `messages`. */
  datatype ApiMessage = ApiMessage(role: string, content: string)

  /** The request body `{model, messages}`. */
  datatype Request = Request(model: string, messages: seq<ApiMessage>)

  /** The role a transcript entry gets: a string comparison on the sender. */
  function RoleOf(sender: string): (role: string)
    ensures role == ROLE_ASSISTANT <==> sender == BOT_SENDER
    ensures role == ROLE_ASSISTANT || role == ROLE_USER
  {
    if sender == BOT_SENDER then ROLE_ASSISTANT else ROLE_USER
  }

  function ToApiMessage(m: Message): ApiMessage {
    ApiMessage(RoleOf(m.sender), m.text)
  }

  /** `chatMessages.map(...)`: one role/content pair per entry, in order. */
  function ToApiMessages(transcript: seq<Message>): (r: seq<ApiMessage>)
    ensures |r| == |transcript|
  {
    if transcript == [] then []
    else [ToApiMessage(transcript[0])] + ToApiMessages(transcript[1..])
  }

  /** The k-th pair is made from the k-th entry alone. */
  lemma {:induction false} ApiMessageAt(transcript: seq<Message>, k: nat)
    requires k < |transcript|
    ensures ToApiMessages(transcript)[k].content == transcript[k].text
    ensures ToApiMessages(transcript)[k].role == RoleOf(transcript[k].sender)
  {
    if k > 0 {
      ApiMessageAt(transcript[1..], k - 1);
    }
  }

  /** The mapping distributes over concatenation, so extending the transcript
      extends the mapped list by the mapped new entries. */
  lemma {:induction false} ToApiMessagesAppend(a: seq<Message>, b: seq<Message>)
    ensures ToApiMessages(a + b) == ToApiMessages(a) + ToApiMessages(b)
  {
    if a != [] {
      assert (a + b)[1..] == a[1..] + b;
      ToApiMessagesAppend(a[1..], b);
    } else {
      assert a + b == b;
    }
  }

  /** The request body sent for a transcript. */
  function BuildRequest(systemMessage: ApiMessage, transcript: seq<Message>): (req: Request)
    ensures req.model == OPENAI_MODEL
    ensures |req.messages| == |transcript| + 1
    ensures req.messages[0] == systemMessage
    ensures req.messages[1..] == ToApiMessages(transcript)
  {
    var apiMessages := ToApiMessages(transcript);
    Request(OPENAI_MODEL, [systemMessage] + apiMessages)
  }

  /** Every element after the system message is the role/content pair of
      the transcript entry at the same position. */
  lemma RequestMessageAt(systemMessage: ApiMessage, transcript: seq<Message>, k: nat)
    requires k < |transcript|
    ensures BuildRequest(systemMessage, transcript).messages[k + 1]
         == ApiMessage(RoleOf(transcript[k].sender), transcript[k].text)
  {
    ApiMessageAt(transcript, k);
    assert BuildRequest(systemMessage, transcript).messages[k + 1]
        == ToApiMessages(transcript)[k];
  }
}
