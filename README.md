# Session bookkeeping of the Telegram GPT bot

The bot relays Telegram messages to an OpenAI model. The only logic it owns
is the per-user session state in `context.user_data`, a dictionary that each
user's handlers share:

- `handle_text` reads the rolling chat history (`"history"`, an empty list
  when absent), appends a `{"role": "user", "content": text}` turn, stores
  back only the last 10 entries, and then sends the untruncated list, the old
  history plus the new turn, to the model. The reply is the model's answer,
  or `"❌ Ошибка: "` followed by the error message when the call fails.
- `reset` clears the whole dictionary. `button_handler` calls it only for the
  callback data `"reset"`.
- `handle_voice` transcribes a voice message, echoes the transcript, stores it
  under `"last_voice"` and passes it to `handle_text` through a rebuilt update
  whose message text it overwrites. When that re-dispatch works, a voice
  message updates the history exactly as the same typed text would. If a step
  before the transcript is stored raises, the handler replies with the voice
  error and changes nothing. If building the rebuilt update or setting its
  text raises (bot.py:96-97), `"last_voice"` stays set, the history is
  unchanged, the model is not called, and the replies are the echo and then
  the voice error. The imports at bot.py:6-13 (`ApplicationBuilder`) belong to
  python-telegram-bot 20 or later, whose message objects are immutable. With
  that library the assignment at bot.py:97 raises, so every voice message
  takes this second error path. The model covers both outcomes.

`session.dfy` (module `Session`) holds the pure part. A chat turn is a
`Turn`. `LastN` is Python's `s[-n:]`, and `DropOldest` is an independent
reference definition of first-in first-out truncation. `ModelInput` is the
list sent to the model, and `Stored` is the history stored back. Lemmas relate
these to each other and to any run of messages.

`bot.dfy` (module `Bot`) models the dictionary as a `map<Key, Value>`. The
keys are the two that the handlers use. `WellFormed` is the invariant the
handlers keep: a history of at most ten turns, all from the user, and a text
transcript. `AfterText`, `AfterVoice`, `AfterReset` and `AfterButton` give
each handler's effect on the dictionary, and `Step`/`Run` apply a sequence of
updates. The class `UserData` holds the dictionary in a field that its
methods `HandleText`, `HandleVoice`, `Reset` and `ButtonHandler` update in
place. Each method is proved to leave exactly the dictionary that the matching
function describes.

The model call is a parameter `model: seq<Turn> -> Outcome<string>`. It is
applied to the list that is sent, and its outcome decides only the reply.
The history update is committed before the call and does not depend on it.
The voice download, transcription, echo and re-dispatch form one
`VoiceOutcome` parameter that says how far the handler got.

bot.py never appends an assistant turn, so the history holds only user
turns. It has no voice-reply toggle, no speech synthesis and no image
preprocessing. The list sent to the model is the stored history plus the new
turn, so it can hold 11 entries; only the stored history is bounded by 10.

## Model

| member | source | states |
|---|---|---|
| Session.LastN | bot.py:64 | `s[-n:]` keeps min(n, len(s)) entries, and they are the last entries of `s` in their original order |
| Session.LastNDropsOldestFirst | bot.py:64 | the slice keeps exactly what dropping the oldest entry, one at a time, until n remain would keep |
| Session.WindowAbsorbs | bot.py:60-64 | truncating to n, appending more turns and truncating again gives the same window as truncating once at the end |
| Session.ModelInput | bot.py:63-70 | the list sent to the model is the old history unchanged followed by the new user turn; with at most 10 stored it has at most 11 entries |
| Session.Stored | bot.py:63-64 | the stored history has at most 10 entries and its last entry is the new `{"role": "user", "content": text}` turn |
| Session.StoredShape | bot.py:60-64 | below 10 entries the turn is simply appended (so an empty history yields exactly one user turn); at 10 the oldest entry is dropped; the stored history is a suffix of the model input |
| Session.StoredAllUser | bot.py:63-64 | storing a message never introduces a non-user (assistant) turn |
| Session.UserTurnsInOrder | bot.py:59-63 | the turns appended for a run of messages are, position by position, the user turns of those messages |
| Session.ReplayKeepsLastTurns | bot.py:58-64 | after any run of messages the history is the last 10 turns of the old history followed by the new messages, in arrival order |
| Bot.HistoryOf | bot.py:60 | reading the history yields the stored list when `"history"` is present and the empty list when it is absent; in a well-formed dictionary it has at most 10 turns |
| Bot.WithHistory | bot.py:64 | after storing h, reading the history yields h, the invariant still holds, and `"last_voice"` is untouched |
| Bot.WithTranscript | bot.py:95 | storing the transcript t makes `"last_voice"` read t, keeps the invariant and leaves the history as it was |
| Bot.AfterText | bot.py:58-64 | handle_text keeps the invariant, makes the next history read return the stored window, and leaves `"last_voice"` untouched |
| Bot.AfterReset | bot.py:48-49 | after clearing, the next history read is empty and `"last_voice"` is absent |
| Bot.AfterButton | bot.py:132-135 | callback data other than `"reset"` leaves the dictionary unchanged; `"reset"` empties history and removes `"last_voice"` |
| Bot.AfterVoice | bot.py:82-100 | a failure before the transcript is stored changes nothing; otherwise `"last_voice"` reads the transcript t, and the history becomes what typing t stores if the re-dispatch works, or stays as it was if building the re-dispatched update raises |
| Bot.VoiceIsTypedText | bot.py:95-98 | a voice message whose transcript t reaches handle_text leaves exactly the dictionary that typing t leaves, with `"last_voice"` then set to t |
| Bot.Step | bot.py:48-98 | every state-touching handler keeps the invariant (history of at most 10 user turns) |
| Bot.Run | bot.py:48-98 | the invariant, and so a history of at most 10 entries, holds after any sequence of updates |
| Bot.RunTextsKeepsLastTurns | bot.py:58-64 | after any run of typed messages the history read back is the last 10 turns of the old history followed by the messages, in order |
| Bot.FirstMessageAfterReset | bot.py:48-64 | after the reset button, the first typed message leaves a history of exactly one user turn |
| Bot.UserData.History | bot.py:60 | reading the history of a well-formed dictionary yields at most 10 turns |
| Bot.UserData.HandleText | bot.py:58-75 | the dictionary becomes `AfterText` of the old one whatever the model does; the list sent is old history plus the new turn; the stored history is that list's last 10 entries; the reply depends only on the model's outcome |
| Bot.UserData.Reset | bot.py:48-51 | the dictionary is cleared: history reads empty and `"last_voice"` is absent |
| Bot.UserData.ButtonHandler | bot.py:132-135 | the dictionary becomes `AfterButton` of the old one; it is unchanged unless the data is `"reset"` |
| Bot.UserData.HandleVoice | bot.py:82-100 | the dictionary becomes `AfterVoice` of the old one; a failure before the echo sends only the voice error reply; a working re-dispatch sends the echo and then handle_text's reply (the model's answer or `"❌ Ошибка: "` plus the error) for the old history plus the transcript; a failed re-dispatch sends the echo and then the voice error reply |

## Left out

- Telegram I/O (`reply_text`, `get_file`, `download_to_drive`, `callback_query.answer`, `edit_message_text`): network calls through a library outside this model. A failure of one of these calls is not modelled either. Such a failure at bot.py:93 would leave the state unchanged, and one at bot.py:72 would lead to the error reply.
- OpenAI calls and the extraction of the answer text (bot.py:67-71, 87-92): foreign calls, modelled only as the `model` function and the `VoiceOutcome` parameter.
- `handle_photo` (bot.py:107-125): file download, reading and removal plus a foreign call; it touches no session state.
- Removal of temporary files (bot.py:91, 121): file-system I/O.
- `start`, the keyboard, logging, environment configuration and `main`'s handler registration and polling (bot.py:19-45, 142-156): interface and configuration glue.
- Asynchronous scheduling: the platform hands one user's updates to the handlers one at a time, so each handler is one atomic method.
- The in-place `append` on the list read from the dictionary (bot.py:63): that list is replaced by its slice at bot.py:64 before anything else reads it, so the model works on sequence values.
- Dictionary keys are the two the handlers use, `"history"` and `"last_voice"`, as an enumeration. No code in the bot stores under any other key.
