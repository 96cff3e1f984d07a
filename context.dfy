/**
  Messages, the fixed texts of the bot, and `get_gpt_response`: the context
  window sent to the chat model and the reply text made from its answer.
 */
module Context {

  import opened Wrappers
  import opened PyStrip

  /** A Telegram user id, the key of the conversation map. */
  type UserId = int

  datatype Role = System | Assistant | User

  /** One `{"role": ..., "content": ...}` entry of a conversation. */
  datatype Message = Message(role: Role, content: string)

  /** `AI_GREETING`. */
  const Greeting: string := "\U{1F644} Can\U{2019}t handle it on your own, huh? Alright, spill it \U{2013} what do you need?"

  /** The reply returned when the chat-completion call raises. */
  const Fallback: string := "Something's gone wrong and I cannot respond."

  /** The window keeps the last `WindowSize` stored messages (`[-4:]`). */
  const WindowSize: nat := 4

  /**
    The chat-completion service, seen from the bot: given the messages it is
    sent, it answers with the content of its first choice, or `None` when the
    call (or reading that content) raises.
   */
  type ChatModel = seq<Message> -> Option<string>

  function Min(a: int, b: int): int {
    if a <= b then a else b
  }

  /** The two messages a conversation is seeded with when the user is unknown. */
  function Seed(prompt: string): seq<Message> {
    [Message(System, prompt), Message(Assistant, Greeting)]
  }

  /** `conversations.get(user_id, <seed>)`. */
  function Lookup(conversations: map<UserId, seq<Message>>, userId: UserId, prompt: string): seq<Message> {
    if userId in conversations then conversations[userId] else Seed(prompt)
  }

  /** Python's `s[-n:]` for a positive `n`: the last `n` elements, or all of `s` when it is shorter. */
  function Last<T>(s: seq<T>, n: nat): seq<T>
    requires n > 0
  {
    if |s| <= n then s else s[|s| - n..]
  }

  /**
    The messages sent to the model for a conversation: its last `WindowSize`
    messages, a copy in which position 0 is replaced by the current system
    prompt. Assigning to position 0 of an empty list raises, which is `None`.
   */
  function Window(conversation: seq<Message>, prompt: string): (w: Option<seq<Message>>)
    ensures w.None? <==> conversation == []
    ensures w.Some? ==> |w.value| == Min(WindowSize, |conversation|)
    ensures w.Some? ==> w.value[0] == Message(System, prompt)
    ensures w.Some? ==> forall i :: 1 <= i < |w.value| ==>
              w.value[i] == conversation[|conversation| - |w.value| + i]
  {
    var recent := Last(conversation, WindowSize);
    if recent == [] then None else Some(recent[0 := Message(System, prompt)])
  }

  /** The reply text for the model's answer: the answer stripped, or the fixed fallback when the call failed. */
  function ResponseText(answer: Option<string>): string {
    match answer
    case None => Fallback
    case Some(content) => Strip(content)
  }

  /**
    `get_gpt_response(user_id)`: the window of the user's stored conversation
    (or of the seed for an unknown user) is sent to the model, and its answer
    becomes the reply text. `None` when building the window raises.
   */
  function GetGptResponse(conversations: map<UserId, seq<Message>>, userId: UserId, prompt: string, llm: ChatModel): (r: Option<string>)
    ensures r.None? <==> Lookup(conversations, userId, prompt) == []
    ensures r.Some? ==> var w := Window(Lookup(conversations, userId, prompt), prompt).value;
              && (llm(w).None? ==> r.value == Fallback)
              && (llm(w).Some? ==> r.value == Strip(llm(w).value))
  {
    match Window(Lookup(conversations, userId, prompt), prompt)
    case None => None
    case Some(messages) => Some(ResponseText(llm(messages)))
  }

  /** The window of the seed is the seed itself. */
  lemma SeedWindow(prompt: string)
    ensures Window(Seed(prompt), prompt) == Some(Seed(prompt))
  {
    assert Window(Seed(prompt), prompt).value == Seed(prompt);
  }

  /** For an unknown user the window is exactly the seed: the current prompt and the greeting. */
  lemma UnknownUserWindow(conversations: map<UserId, seq<Message>>, userId: UserId, prompt: string, llm: ChatModel)
    requires userId !in conversations
    ensures Window(Lookup(conversations, userId, prompt), prompt) == Some([Message(System, prompt), Message(Assistant, Greeting)])
    ensures GetGptResponse(conversations, userId, prompt, llm) == Some(ResponseText(llm(Seed(prompt))))
  {
    SeedWindow(prompt);
  }

  /** When the conversation holds at least `WindowSize` messages, the model sees the prompt and the last three stored messages. */
  lemma LongWindow(conversation: seq<Message>, prompt: string)
    requires |conversation| >= WindowSize
    ensures Window(conversation, prompt) == Some([Message(System, prompt)] + conversation[|conversation| - 3..])
  {
    var w := Window(conversation, prompt).value;
    assert w == [Message(System, prompt)] + conversation[|conversation| - 3..];
  }

  /** The window does not depend on the stored message it overwrites with the prompt. */
  lemma WindowIgnoresOverwritten(conversation: seq<Message>, prompt: string, m: Message)
    requires conversation != []
    ensures var k := |conversation| - Min(WindowSize, |conversation|);
            Window(conversation[k := m], prompt) == Window(conversation, prompt)
  {
    var k := |conversation| - Min(WindowSize, |conversation|);
    var other := conversation[k := m];
    var w1, w2 := Window(other, prompt).value, Window(conversation, prompt).value;
    assert |w1| == |w2|;
    forall i | 0 <= i < |w1| ensures w1[i] == w2[i] {
      if i > 0 { assert other[k + i] == conversation[k + i]; }
    }
    assert w1 == w2;
  }

  /** Every reply text has no whitespace at either end, the fallback included. */
  lemma ResponseTextStripped(answer: Option<string>)
    ensures Stripped(ResponseText(answer))
  {
  }

}
