/** The entries of the chat transcript and the fixed texts the component shows. */
module Transcript {

  /** One transcript entry: its body and its sender. The timestamp, the
      direction, the avatar and the position are presentation only. */
  datatype Message = Message(text: string, sender: string)

  /** The sender name the component gives to every bot entry. */
  const BOT_SENDER: string := "ChatGPT"

  /** The sender name the component gives to the student's entries. */
  const USER_SENDER: string := "user"

  /** The single entry a new (or reset) conversation starts with. */
  const GREETING_TEXT: string := "Hello! I am BEX, your Bugbox Tutor \U{1F913}. How can I help you today?"

  function BotMessage(text: string): Message {
    Message(text, BOT_SENDER)
  }

  /** A student entry never passes for a bot entry. */
  function UserMessage(text: string): (m: Message)
    ensures m.text == text && m.sender != BOT_SENDER
  {
    Message(text, USER_SENDER)
  }

  function Greeting(): Message {
    BotMessage(GREETING_TEXT)
  }
}
