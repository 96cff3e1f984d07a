/**
  The handlers' effect on the conversation map, as transitions on values:
  what `reply` and `audio_message` store and what they answer, a run of text
  turns, and the shape every stored conversation keeps.
 */
module Turns {

  import opened Wrappers
  import opened Context

  /** The conversation map after a handler has run, and the reply it produced. */
  datatype Turn = Turn(conversations: map<UserId, seq<Message>>, reply: string)

  /** How fetching and transcribing a voice note ended. */
  datatype Audio =
    | BadStatus                       // the download answered with a status other than 200
    | Transcribed(transcript: string) // the note was downloaded, transcribed and echoed to the user
    | Failed                          // the download, the conversion, the transcription or the echo raised

  /** The user message a voice note adds to the conversation. */
  function Heard(audio: Audio): seq<Message> {
    if audio.Transcribed? then [Message(User, audio.transcript)] else []
  }

  /**
    The shape of every conversation the handlers store: it is not empty, it
    opens with the prompt or the greeting, the system role appears only at
    position 0, and every user message is answered by the next one.
   */
  ghost predicate WellFormed(c: seq<Message>) {
    && c != []
    && c[0].role != User
    && (forall i :: 0 < i < |c| ==> c[i].role != System)
    && c[|c| - 1].role == Assistant
    && (forall i :: 0 <= i < |c| - 1 && c[i].role == User ==> c[i + 1].role == Assistant)
  }

  ghost predicate AllWellFormed(conversations: map<UserId, seq<Message>>) {
    forall u :: u in conversations ==> WellFormed(conversations[u])
  }

  /**
    `reply`: the text is appended as a user message, the window of the
    extended conversation is sent to the model, and the reply is appended as
    an assistant message. `None` when the user has no conversation, where
    `conversations[user_id]` raises KeyError before anything is stored.
   */
  function TextTurn(conversations: map<UserId, seq<Message>>, userId: UserId, text: string, prompt: string, llm: ChatModel): (t: Option<Turn>)
    ensures t.None? <==> userId !in conversations
    ensures t.Some? ==> var c := conversations[userId] + [Message(User, text)];
              && t.value.reply == ResponseText(llm(Window(c, prompt).value))
              && t.value.conversations == conversations[userId := c + [Message(Assistant, t.value.reply)]]
  {
    if userId !in conversations then None
    else
      var withUser := conversations[userId := conversations[userId] + [Message(User, text)]];
      match GetGptResponse(withUser, userId, prompt, llm)
      case None => None
      case Some(reply) => Some(Turn(withUser[userId := withUser[userId] + [Message(Assistant, reply)]], reply))
  }

  /**
    `audio_message`, after the attachment was found. The conversation is the
    stored list, or a fresh seed for an unknown user; a transcript is appended
    to it; the reply is computed from the map as it then stands; the reply is
    appended and the list is stored. An unknown user's fresh list is not in the
    map until that final store, so its window is the seed's, without the
    transcript; a known user's list is the stored object itself, so the
    transcript is already visible. `None` when the turn raises.
   */
  function VoiceTurn(conversations: map<UserId, seq<Message>>, userId: UserId, audio: Audio, prompt: string, llm: ChatModel): (t: Option<Turn>)
    ensures audio.Failed? ==> t.None?
    ensures !audio.Failed? && userId !in conversations ==>
              && t.Some?
              && t.value.reply == ResponseText(llm(Seed(prompt)))
              && t.value.conversations == conversations[userId := Seed(prompt) + Heard(audio) + [Message(Assistant, t.value.reply)]]
    ensures !audio.Failed? && userId in conversations ==> var c := conversations[userId] + Heard(audio);
              && (t.None? <==> c == [])
              && (t.Some? ==> t.value.reply == ResponseText(llm(Window(c, prompt).value))
                              && t.value.conversations == conversations[userId := c + [Message(Assistant, t.value.reply)]])
  {
    if audio.Failed? then None
    else
      var known := userId in conversations;
      var conversation := Lookup(conversations, userId, prompt) + Heard(audio);
      var visible := if known then conversations[userId := conversation] else conversations;
      SeedWindow(prompt);
      match GetGptResponse(visible, userId, prompt, llm)
      case None => None
      case Some(reply) => Some(Turn(visible[userId := conversation + [Message(Assistant, reply)]], reply))
  }

  /** The map after the user sends each of `texts` in turn. */
  function Replies(conversations: map<UserId, seq<Message>>, userId: UserId, texts: seq<string>, prompt: string, llm: ChatModel): (m: map<UserId, seq<Message>>)
    requires userId in conversations
    ensures m.Keys == conversations.Keys
    decreases |texts|
  {
    if texts == [] then conversations
    else Replies(TextTurn(conversations, userId, texts[0], prompt, llm).value.conversations, userId, texts[1..], prompt, llm)
  }

  /**
    After N text turns the conversation has grown by exactly 2N messages, the
    old ones untouched; from there on the roles alternate user, assistant, and
    the user messages are the texts in order. No other user's conversation changes.
   */
  lemma {:induction false} RepliesShape(conversations: map<UserId, seq<Message>>, userId: UserId, texts: seq<string>, prompt: string, llm: ChatModel)
    requires userId in conversations
    ensures var c, c0 := Replies(conversations, userId, texts, prompt, llm)[userId], conversations[userId];
            && |c| == |c0| + 2 * |texts|
            && c[..|c0|] == c0
            && forall k :: 0 <= k < |texts| ==>
                 c[|c0| + 2 * k] == Message(User, texts[k]) && c[|c0| + 2 * k + 1].role == Assistant
    ensures var m := Replies(conversations, userId, texts, prompt, llm);
            forall u :: u in conversations && u != userId ==> m[u] == conversations[u]
    decreases |texts|
  {
    if texts != [] {
      var next := TextTurn(conversations, userId, texts[0], prompt, llm).value.conversations;
      RepliesShape(next, userId, texts[1..], prompt, llm);
      var c, c0, c1 := Replies(conversations, userId, texts, prompt, llm)[userId], conversations[userId], next[userId];
      assert c[..|c1|] == c1;
      assert c1[..|c0|] == c0;
      assert c[..|c0|] == c0 by {
        assert c[..|c0|] == c[..|c1|][..|c0|];
      }
      forall k | 0 <= k < |texts|
        ensures c[|c0| + 2 * k] == Message(User, texts[k]) && c[|c0| + 2 * k + 1].role == Assistant
      {
        if k == 0 {
          assert c[|c0|] == c[..|c1|][|c0|] && c[|c0| + 1] == c[..|c1|][|c0| + 1];
        } else {
          assert texts[1..][k - 1] == texts[k];
          assert |c1| + 2 * (k - 1) == |c0| + 2 * k;
        }
      }
    }
  }

  /**
    After `/start` the next text turn sends the model the prompt and the text
    only: the stored greeting sits at the position the prompt overwrites.
   */
  lemma StartThenText(conversations: map<UserId, seq<Message>>, userId: UserId, text: string, prompt: string, llm: ChatModel)
    ensures var t := TextTurn(conversations[userId := [Message(Assistant, Greeting)]], userId, text, prompt, llm);
            && t.Some?
            && t.value.reply == ResponseText(llm([Message(System, prompt), Message(User, text)]))
            && t.value.conversations[userId] == [Message(Assistant, Greeting), Message(User, text), Message(Assistant, t.value.reply)]
  {
    var started := conversations[userId := [Message(Assistant, Greeting)]];
    var c := started[userId] + [Message(User, text)];
    var w := Window(c, prompt).value;
    assert |w| == 2 && w[1] == c[1];
    assert w == [Message(System, prompt), Message(User, text)];
  }

  /** For a known user the transcript is the last message the model is sent. */
  lemma KnownUserHearsTranscript(conversations: map<UserId, seq<Message>>, userId: UserId, transcript: string, prompt: string)
    requires userId in conversations && conversations[userId] != []
    ensures var w := Window(conversations[userId] + Heard(Transcribed(transcript)), prompt).value;
            w[|w| - 1] == Message(User, transcript)
  {
  }

  /** Answering a conversation, after an optional user message, keeps its shape. */
  lemma AnswerWellFormed(c: seq<Message>, heard: seq<Message>, reply: string)
    requires WellFormed(c)
    requires heard == [] || (|heard| == 1 && heard[0].role == User)
    ensures WellFormed(c + heard + [Message(Assistant, reply)])
  {
  }

  lemma TextTurnWellFormed(conversations: map<UserId, seq<Message>>, userId: UserId, text: string, prompt: string, llm: ChatModel)
    requires AllWellFormed(conversations)
    ensures TextTurn(conversations, userId, text, prompt, llm).Some? ==>
              AllWellFormed(TextTurn(conversations, userId, text, prompt, llm).value.conversations)
  {
  }

  lemma VoiceTurnWellFormed(conversations: map<UserId, seq<Message>>, userId: UserId, audio: Audio, prompt: string, llm: ChatModel)
    requires AllWellFormed(conversations)
    ensures VoiceTurn(conversations, userId, audio, prompt, llm).Some? ==>
              AllWellFormed(VoiceTurn(conversations, userId, audio, prompt, llm).value.conversations)
  {
  }

}
