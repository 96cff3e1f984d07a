# Conversation store of a Telegram chat bot

This project models the in-memory conversation store of a Telegram bot that
relays text and voice messages to a chat-completion model. The store is the
module-level map `conversations` from a user id to a list of
`{role, content}` messages. Three handlers change it:

- `/start` resets the user's list to the greeting;
- a text message appends a user message, then the model's reply;
- a voice note appends its transcript and the reply.

`get_gpt_response` builds the context window that is sent to the model. It
takes the last four stored messages, or a two-message seed for an unknown
user, and overwrites the first of them with the current system prompt. It
turns a failed model call into a fixed fallback text, and strips the
answer of a successful one.

Layout:

- `wrappers.dfy` (`Wrappers`): the `Option` datatype.
- `strip.dfy` (`PyStrip`): Python's `str.strip()`, with the exact set of
  code points for which `str.isspace()` holds.
- `context.dfy` (`Context`): `Message`, the greeting and fallback texts,
  `Window` and `GetGptResponse`.
- `turns.dfy` (`Turns`): the handlers as transitions on the map
  (`TextTurn`, `VoiceTurn`, `Replies`), the `WellFormed` shape of a stored
  conversation, and the lemmas about them.
- `store.dfy` (`Store`): class `ConversationStore`. Its `conversations`
  field is the map, and its methods `Start`, `Reply` and `AudioMessage`
  update it step by step, as the handlers do. Each method is proved to end
  in the state the matching `Turns` function gives. Each keeps the object
  invariant `Valid()`: every stored conversation is `WellFormed`.

External inputs are parameters:

- the system prompt that `get_profile_system_prompt` reads is a `string`;
- the chat model is a function `seq<Message> -> Option<string>` from the
  window it is sent to the first choice's content, `None` when the call
  raises;
- the voice-note download and transcription is an `Audio` value:
  `BadStatus` for an HTTP status other than 200, `Transcribed(text)`, or
  `Failed` when something raises before the transcript is appended.

Behaviour of the code that a reader of the handlers might not expect, all of it modelled as written:

- `/start` stores `[assistant: greeting]` with no system message. So a stored
  conversation does not always begin with the prompt.
- Position 0 of the window is overwritten, not added. So the model sees the
  prompt and only the last three stored messages (`LongWindow`). After
  `/start` the greeting is never sent (`StartThenText`).
- A text message from a user with no conversation raises KeyError and stores
  nothing (`TextTurn` is `None`). There is no get-or-create on the text path.
- A voice download with a status other than 200 still produces a reply. That
  reply is appended, and an unknown user's seed is stored with it.
- For an unknown user, the reply to a voice note is computed from the seed
  alone, without the transcript. The fresh list is stored only after the
  model was called (`VoiceTurn`). For a known user the transcript is the last
  message the model sees (`KnownUserHearsTranscript`).
- The reply is delivered before it is appended. The append does not survive
  a failed delivery (see Left out).

## Model

| member | source | states |
|---|---|---|
| PyStrip.TrimStart | bot.py:127 | the result is the suffix of the input left after its whole leading run of whitespace, and it does not start with whitespace |
| PyStrip.TrimEnd | bot.py:127 | the result is the prefix of the input left after its whole trailing run of whitespace, and it does not end with whitespace |
| PyStrip.Strip | bot.py:127 | `strip()` yields the slice of the input between an all-whitespace prefix and an all-whitespace suffix, and neither end of it is whitespace |
| PyStrip.StripStripped | bot.py:127 | a string with no whitespace at either end strips to itself |
| PyStrip.StripIdempotent | bot.py:127 | stripping twice gives the same as stripping once |
| PyStrip.StripEmpty | bot.py:127 | the answer strips to the empty string exactly when it is all whitespace |
| Context.Window | bot.py:115-122 | the window fails exactly on an empty list. Otherwise its length is min(4, length), element 0 is the system message with the current prompt, and every later element is the matching one of the conversation's last messages, in order |
| Context.SeedWindow | bot.py:115-122 | the window of the two-message seed is the seed itself |
| Context.UnknownUserWindow | bot.py:115-122 | for a user absent from the map the model is sent exactly `[system: prompt, assistant: greeting]`, and the reply is made from its answer to that |
| Context.LongWindow | bot.py:121-122 | from four stored messages on, the model is sent the prompt followed by the last three stored messages |
| Context.WindowIgnoresOverwritten | bot.py:122 | the window is the same whatever the stored message at the overwritten position holds |
| Context.GetGptResponse | bot.py:112-130 | fails (IndexError) exactly when the looked-up conversation is empty. A failed model call yields the fixed fallback text, and a successful one yields the answer stripped |
| Context.ResponseTextStripped | bot.py:123-130 | every reply text, the fallback included, has no whitespace at either end |
| Turns.TextTurn | bot.py:140-153 | with no conversation for the user it raises and changes nothing. Otherwise the reply is made from the window of the conversation with the text appended, and the map changes only for that user, whose list gains exactly `user: text` then `assistant: reply` |
| Turns.VoiceTurn | bot.py:68-108 | a failure raises and stores nothing. An unknown user gets seed + transcript (if any) + reply, the reply made from the seed-only window. A known user's list gains the transcript (if any) and the reply, the reply made from the window that includes the transcript. No other user changes |
| Turns.Replies | bot.py:140-153 | a run of text turns keeps the set of users in the map |
| Turns.RepliesShape | bot.py:145-151 | after N text turns the list has grown by exactly 2N messages, with the earlier ones untouched. The new messages alternate user/assistant, and the user ones are the texts in order. Other users are unchanged |
| Turns.StartThenText | bot.py:133-153 | after `/start`, the next text turn sends the model `[system: prompt, user: text]` and stores `[greeting, user: text, assistant: reply]` |
| Turns.KnownUserHearsTranscript | bot.py:69-105 | for a user already in the map, the transcript is the last message of the window the model is sent |
| Turns.AnswerWellFormed | bot.py:99-107 | appending an optional user message and then an assistant reply keeps a conversation well formed |
| Turns.TextTurnWellFormed | bot.py:145-151 | a text turn keeps every stored conversation well formed (non-empty, ending with an assistant message, every user message answered) |
| Turns.VoiceTurnWellFormed | bot.py:68-108 | a voice turn keeps every stored conversation well formed, the freshly seeded one included |
| Store.ConversationStore.constructor | bot.py:32 | the store starts as the empty map |
| Store.ConversationStore.Start | bot.py:133-137 | the user's entry becomes exactly `[assistant: greeting]`, prior history discarded, every other entry unchanged, invariant kept |
| Store.ConversationStore.Reply | bot.py:140-153 | the in-place appends end in the state and reply that `TextTurn` gives, or change nothing when the user is unknown. The prompt override is not persisted, and the invariant is kept |
| Store.ConversationStore.AudioMessage | bot.py:56-109 | the aliased in-place append and the late store end in the state and reply that `VoiceTurn` gives, or change nothing when the turn raises. The invariant is kept |

## Left out

- Telegram I/O: receiving updates, `get_file`, `reply_text`, the Markdown
  parse mode and `ApplicationBuilder` (bot.py:57-66, 94-96, 106, 137,
  150, 156-168). These are platform calls with no effect on the map.
- Store.ConversationStore.Reply: does not model `reply_text` raising at
  bot.py:150. That would store the user message without the reply.
- Store.ConversationStore.AudioMessage: does not model `reply_text` raising
  at bot.py:106, nor `os.remove` raising at bot.py:102. Either would leave a
  known user's transcript stored without a reply, and store nothing for a
  new user.
- The check that the update carries a voice note or audio file at all
  (bot.py:60-61). The handler is registered only for such updates
  (bot.py:164-166).
- The aiohttp download and its chunk loop, the temporary files, the mp3
  conversion and the Whisper call (bot.py:39-53, 77-102). They are reduced
  to the `Audio` outcome.
- The chat-completion request itself, including the model name
  `gpt-4-turbo` (bot.py:113, 125-126). It is reduced to the `ChatModel`
  function; the unused `sys_prompt` at bot.py:114 has no effect.
- Reading the profile file (utilities.py:9-14). The prompt is a parameter.
  Each handler call uses one prompt value, although the source re-reads the
  file at each use and could see it change in between.
- Concurrent, interleaved handler runs for the same user. Each handler is
  one atomic step.
- `print`, `pprint` and logging.
- ai.py, a non-functional near-duplicate of bot.py:39-53 and
  bot.py:112-130. audio conversion in utilities.py is a pydub call.
