// hooks/useChatHistory.ts — the assistant conversation, seeded with two
// greeting messages and reset to them by "clear".
module ChatHistory {
  import opened Records

  const Welcome: string :=
    "Hello! I'm Aura. I can understand many Indian languages like Kannada, Hindi, and Tamil. How can I support you today?"
  const CheckIn: string :=
    "Hi there! How are you doing today? I'm here to help you keep an eye on your well-being."

  /** The two greetings; the second is stamped one second after the first. */
  function InitialMessages(now: Instant): seq<ChatMessage>
  {
    [ ChatMessage("init-1", Model, Welcome, now),
      ChatMessage("init-2", Model, CheckIn, now + 1000) ]
  }

  /** A message with its time stamp blanked out. */
  function Untimed(m: ChatMessage): ChatMessage
  {
    m.(timestamp := 0)
  }

  /** The seed is the same whenever it is made, up to its time stamps, and its
      stamps are in order. */
  lemma InitialMessagesAgree(a: Instant, b: Instant)
    ensures |InitialMessages(a)| == |InitialMessages(b)| == 2
    ensures Untimed(InitialMessages(a)[0]) == Untimed(InitialMessages(b)[0])
    ensures Untimed(InitialMessages(a)[1]) == Untimed(InitialMessages(b)[1])
    ensures InitialMessages(a)[0].timestamp < InitialMessages(a)[1].timestamp
    ensures InitialMessages(a)[0].id != InitialMessages(a)[1].id
    ensures InitialMessages(a)[0].role == InitialMessages(a)[1].role == Model
  {
    assert "init-1"[5] != "init-2"[5];
  }

  class History {
    var messages: seq<ChatMessage>

    constructor (now: Instant)
      ensures messages == InitialMessages(now)
    {
      messages := InitialMessages(now);
    }

    method AddMessage(m: ChatMessage)
      modifies this
      ensures messages == old(messages) + [m]
    {
      messages := messages + [m];
    }

    /** Forgets the conversation: only a fresh seed is left. */
    method ClearHistory(now: Instant)
      modifies this
      ensures messages == InitialMessages(now)
    {
      messages := InitialMessages(now);
    }
  }
}
