/**
  The module-level `conversations` dict and the three handlers that change
  it, each run as one atomic step. The system prompt, the chat model's answer
  and the outcome of fetching a voice note are parameters.
 */
module Store {

  import opened Wrappers
  import opened Context
  import opened Turns

  class ConversationStore {

    /** User id to that user's list of messages. */
    var conversations: map<UserId, seq<Message>>

    ghost predicate Valid()
      reads this
    {
      AllWellFormed(conversations)
    }

    /** `conversations = {}`. */
    constructor ()
      ensures Valid() && conversations == map[]
    {
      conversations := map[];
    }

    /** `start`: the user's conversation becomes the greeting alone, whatever it held before. */
    method Start(userId: UserId)
      requires Valid()
      modifies this
      ensures Valid()
      ensures conversations == old(conversations)[userId := [Message(Assistant, Greeting)]]
    {
      conversations := conversations[userId := [Message(Assistant, Greeting)]];
    }

    /**
      `reply`: appends the text as a user message, asks the model and appends
      its reply as an assistant message; `None`, with nothing changed, when
      the user has no conversation yet.
     */
    method Reply(userId: UserId, text: string, prompt: string, llm: ChatModel) returns (r: Option<string>)
      requires Valid()
      modifies this
      ensures Valid()
      ensures match TextTurn(old(conversations), userId, text, prompt, llm)
              case None => r.None? && conversations == old(conversations)
              case Some(t) => r == Some(t.reply) && conversations == t.conversations
    {
      TextTurnWellFormed(conversations, userId, text, prompt, llm);
      if userId !in conversations {
        return None;
      }
      conversations := conversations[userId := conversations[userId] + [Message(User, text)]];
      var response := GetGptResponse(conversations, userId, prompt, llm);
      conversations := conversations[userId := conversations[userId] + [Message(Assistant, response.value)]];
      r := Some(response.value);
    }

    /**
      `audio_message` once an attachment is present: a known user's stored
      list is extended in place, an unknown user's fresh seed is stored only
      at the end, after the reply was computed; `None`, with nothing changed,
      when the turn raises.
     */
    method AudioMessage(userId: UserId, audio: Audio, prompt: string, llm: ChatModel) returns (r: Option<string>)
      requires Valid()
      modifies this
      ensures Valid()
      ensures match VoiceTurn(old(conversations), userId, audio, prompt, llm)
              case None => r.None? && conversations == old(conversations)
              case Some(t) => r == Some(t.reply) && conversations == t.conversations
    {
      VoiceTurnWellFormed(conversations, userId, audio, prompt, llm);
      var known := userId in conversations;
      var conversation := if known then conversations[userId] else Seed(prompt);
      if audio.Failed? {
        return None;
      }
      if audio.Transcribed? {
        conversation := conversation + [Message(User, audio.transcript)];
        if known {
          conversations := conversations[userId := conversation];
        }
      }
      assert conversation == Lookup(old(conversations), userId, prompt) + Heard(audio);
      assert conversations == if known then old(conversations)[userId := conversation] else old(conversations);
      var response := GetGptResponse(conversations, userId, prompt, llm);
      if response.None? {
        return None;
      }
      conversation := conversation + [Message(Assistant, response.value)];
      conversations := conversations[userId := conversation];
      r := Some(response.value);
    }
  }

}
