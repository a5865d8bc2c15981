# chatgpt_tg_bot — conversation window and command dispatch, in Dafny

This project models the part of the Telegram ChatGPT relay bot that keeps state
and makes decisions:

- **`OpenAiChat`** (`chatgpt_bot/openai.py`, class `Chat`). This is the live
  per-user session. It holds an ordered list of `(role, content)` messages and a
  token limit, 3500 by default. Before each request it evicts the oldest messages
  until the summed token cost fits the limit or one message is left. It appends
  the reply when the request succeeds. When the request fails it pops the user
  turn. `handle_voice` runs a transcription first. The tokenizer is an abstract
  `cost: string -> nat`. Both HTTP gateways are function parameters that return
  the raw outcome of the request. The model classifies that outcome the way
  `__make_chatgpt_request` and `__make_whisper_request` do.
- **`LegacyChat`** (`chatgpt_bot/chatgpt_api.py`, class `Chat`). This is the
  older variant. Its budget is a character count, 5000 by default. Its trimming
  loop walks a reversed copy and pops from the tail. Its `chat` never rolls
  back.
- **`TelegramBot`** (`chatgpt_bot/bot.py`, `Bot.handler` and
  `__transform_audio`). It covers the insert-only registry of sessions keyed by
  sender, the exact `/clear` command and the prefix `/set_token_limit` command,
  the text and voice paths and how the reply text is built, and the file-name
  rule that decides whether audio is converted.
- **`PyText`** models the Python builtins the handler's behaviour depends on:
  `startswith`, `endswith`, `split(sep)`, `int(str)` and `str(int)`.
- **`Common`** holds the shared message record and the `Option`/`Result`
  wrappers.

The class methods are proved against value-level functions: `Evict`,
`ChatTurn` and `VoiceTurn` for the session, `LimitByLength` and `LegacyTurn`
for the legacy session, and `Dispatch` and `Conversation` for the handler. The
lemmas about those functions state what the code promises.

Behaviour of the code a reader may not expect:

- The token budget holds only right after eviction. A successful reply is
  appended without a second eviction, so the stored history can exceed the
  limit (`SuccessMayExceedLimit`).
- A failed request pops the user turn from the window left after eviction. The
  history before the call comes back only when nothing was evicted
  (`FailedTurn`).
- `/set_token_limit` accepts any integer, zero and negative values included. A
  missing or non-integer argument raises before any change to the session, and
  no reply is sent. A sender seen for the first time still gets a new session
  first. Two spaces after the command leave an empty argument, so
  `/set_token_limit  5` raises (`DoubleSpaceRejected`).
- A failed transcription is answered "system error", and the diagnostic is
  shown after "Message transcibed from audio:" as if it were the transcript
  (`VoiceFailureLeavesHistory`).
- A message that `handler` ignores or that raises gets no reply.
- The voice reply keeps the source's own spelling, "transcibed".

## Model

| member | source | states |
|---|---|---|
| OpenAiChat.CompletionMessage | chatgpt_bot/openai.py:72-90 | the first choice's message when the response parses and `choices` is non-empty; otherwise a `system` message, which for an unreachable service reads "Error: " plus the error |
| OpenAiChat.TranscriptionMessage | chatgpt_bot/openai.py:92-116 | the role is `user` exactly when a transcription parsed, and then the content is its text; every failure gives a `system` diagnostic |
| OpenAiChat.TokenCount | chatgpt_bot/openai.py:140-143 | `__get_token_count`: the sum of `cost` over the contents of the messages; `TokenCountAppend` proves it additive |
| OpenAiChat.TokenCountAppend | chatgpt_bot/openai.py:140-143 | the token count of a concatenation is the sum of the counts |
| OpenAiChat.Evict | chatgpt_bot/openai.py:145-150 | eviction keeps a suffix of the input; that suffix fits the limit or has at most one message, and a non-empty input keeps its newest message |
| OpenAiChat.EvictOnlyWhenOver | chatgpt_bot/openai.py:149-150 | every message evicted was dropped from a window that was over the limit and held more than one message |
| OpenAiChat.EvictShrinks | chatgpt_bot/openai.py:149-150 | a window over the limit with more than one message loses at least one message |
| OpenAiChat.Sent | chatgpt_bot/openai.py:125-126 | the window sent is a non-empty suffix of history plus the user turn, and it ends with that user turn |
| OpenAiChat.Settle | chatgpt_bot/openai.py:129-134 | what `chat` does after the request: append a non-`system` reply, or pop the user turn; the answer is `role: content` either way |
| OpenAiChat.ChatTurn | chatgpt_bot/openai.py:124-134 | one `chat` turn: `Settle` of the sent window and the gateway's message; `SuccessfulTurn` and `FailedTurn` state its two outcomes |
| OpenAiChat.VoiceTurn | chatgpt_bot/openai.py:156-161 | one `handle_voice` turn: the early "system error" return, or a `ChatTurn` on the recognised text; `VoiceTurnCases` states both outcomes |
| OpenAiChat.SuccessfulTurn | chatgpt_bot/openai.py:125-134 | on success the history becomes the sent window plus the reply, the answer is `role: content`, and the sent window fits the limit or is the prompt alone |
| OpenAiChat.SuccessMayExceedLimit | chatgpt_bot/openai.py:126-130 | a reply costing more than the limit leaves the stored history over the limit |
| OpenAiChat.PopRestoresIff | chatgpt_bot/openai.py:125-133 | popping the user turn gives back the old history if and only if the history was empty or history plus prompt fit the limit |
| OpenAiChat.FailedTurn | chatgpt_bot/openai.py:124-134 | on failure the history is the sent window minus the user turn, a suffix of the old history; it equals the old history exactly when nothing was evicted; the answer is `system: ` plus the diagnostic |
| OpenAiChat.VoiceTurnCases | chatgpt_bot/openai.py:156-161 | a failed transcription leaves the history alone and returns ("system error", the diagnostic of the transcription gateway); otherwise the turn is a `chat` turn on the text, paired with the text |
| OpenAiChat.Chat.constructor | chatgpt_bot/openai.py:49-62 | a new session has an empty history and the limit 3500 |
| OpenAiChat.Chat.SetTokenLimit | chatgpt_bot/openai.py:58-59 | any integer is stored as the limit, and nothing else changes |
| OpenAiChat.Chat.CleanState | chatgpt_bot/openai.py:121-122 | the history becomes empty and the limit is unchanged |
| OpenAiChat.Chat.LimitMessages | chatgpt_bot/openai.py:145-154 | the while loop leaves exactly `Evict` of the old history |
| OpenAiChat.Chat.Send | chatgpt_bot/openai.py:124-134 | the new history and the answer are `ChatTurn` of the old history |
| OpenAiChat.Chat.HandleVoice | chatgpt_bot/openai.py:156-161 | the new history and the answer pair are `VoiceTurn` of the old history |
| LegacyChat.LimitByLength | chatgpt_bot/chatgpt_api.py:85-96 | the closed form of the trimming loop: the history unchanged, or only its oldest message when there are several and the newest is over the limit; `LimitByLengthCutsTail` states its shape |
| LegacyChat.LegacyTurn | chatgpt_bot/chatgpt_api.py:71-83 | one legacy `chat` turn: the trimmed history plus the first choice, or the trimmed history and the error text; `LegacySuccess` and `LegacyFailure` state both outcomes |
| LegacyChat.LimitByLengthCutsTail | chatgpt_bot/chatgpt_api.py:85-96 | trimming keeps a prefix and never empties a non-empty history; it cuts if and only if there is more than one message and the newest alone exceeds the limit, and then only the oldest message is left |
| LegacyChat.Sent | chatgpt_bot/chatgpt_api.py:72-73 | the list sent after appending the user turn and trimming is either the history plus the user turn, or only the history's oldest message |
| LegacyChat.LongPromptDropped | chatgpt_bot/chatgpt_api.py:72-96 | a prompt longer than the limit sent after some history is itself dropped, and only the oldest message goes out |
| LegacyChat.LegacySuccess | chatgpt_bot/chatgpt_api.py:75-83 | on success the history is the sent list plus the first choice, and the answer is that choice's content without its role |
| LegacyChat.LegacyFailure | chatgpt_bot/chatgpt_api.py:80-83 | on any exception, an empty `choices` list included, the sent list stays and the answer is the error text; that list is the history plus the user turn, or only the oldest message when trimming cut the rest |
| LegacyChat.Chat.constructor | chatgpt_bot/chatgpt_api.py:43-63 | a new session has an empty history and the limit 5000 |
| LegacyChat.Chat.LimitMessages | chatgpt_bot/chatgpt_api.py:85-96 | the loop over the reversed copy leaves exactly `LimitByLength` of the old history |
| LegacyChat.Chat.Send | chatgpt_bot/chatgpt_api.py:71-83 | the new history and the answer are `LegacyTurn` of the old history |
| PyText.Split | chatgpt_bot/bot.py:58 | there is at least one field, and no field contains the separator |
| PyText.JoinSplit | chatgpt_bot/bot.py:99 | joining the fields with the separator gives back the text |
| PyText.SplitAround | chatgpt_bot/bot.py:58 | a separator splits the field list at that point |
| PyText.SplitWithoutSeparator | chatgpt_bot/bot.py:58 | text without the separator is a single field |
| PyText.NatToString | chatgpt_bot/bot.py:60 | `str(n)` of a natural number is a non-empty digit string with no leading zero |
| PyText.StartsWith | chatgpt_bot/bot.py:57 | `str.startswith`: the text begins with the prefix |
| PyText.EndsWith | chatgpt_bot/bot.py:97 | `str.endswith`: the text finishes with the suffix |
| PyText.ParseInt | chatgpt_bot/bot.py:58 | `int(s)` on ASCII text: surrounding space, tab, line feed, vertical tab, form feed or carriage return, an optional sign, digits with single underscores between them; `None` where Python raises `ValueError` |
| PyText.SeparatorBeforeDigitsRejected | chatgpt_bot/bot.py:58 | `int("\x1c5")` raises: the ASCII information separators are not stripped |
| PyText.IntToString | chatgpt_bot/bot.py:60 | `str(n)`: a minus sign exactly for negative numbers, and never a space |
| PyText.SplitHasSecondField | chatgpt_bot/bot.py:58 | `split(sep)` has a second field exactly when the separator occurs |
| PyText.ParseIntToString | chatgpt_bot/bot.py:58-60 | `int(str(n)) == n` for every integer |
| TelegramBot.LimitArgument | chatgpt_bot/bot.py:58 | `int(text.split(" ")[1])` raises for a missing argument exactly when the text has no space |
| TelegramBot.SecondField | chatgpt_bot/bot.py:58 | the second space-separated field of `word arg rest` is `arg` |
| TelegramBot.LimitArgumentOfNumeral | chatgpt_bot/bot.py:57-58 | `/set_token_limit ` followed by `str(n)`, then nothing or a space and anything, is read as `n` |
| TelegramBot.LimitArgumentRejected | chatgpt_bot/bot.py:58 | a second field that `int()` rejects makes the handler raise `ValueError` |
| TelegramBot.DoubleSpaceRejected | chatgpt_bot/bot.py:58 | `/set_token_limit` followed by two spaces and a number raises, because the second field is empty |
| TelegramBot.VoiceFileName | chatgpt_bot/bot.py:93 | the generated name `{dc_id}_{id}.ogg`; `VoiceNoteConverted` states what follows from it |
| TelegramBot.NeedsConversion | chatgpt_bot/bot.py:97 | conversion happens exactly when the name does not end with `.m4a` |
| TelegramBot.ConversionSuffix | chatgpt_bot/bot.py:99 | a dot and the last dot-separated field of the name; `ConversionSuffixIsExtension` characterises it |
| TelegramBot.ConversionSuffixIsExtension | chatgpt_bot/bot.py:99 | the suffix is a dot and the text after the last dot; a name with a dot ends with it, and a name without one is taken whole |
| TelegramBot.VoiceNoteConverted | chatgpt_bot/bot.py:92-100 | a voice note's name never ends in `.m4a`, so it is always converted, with suffix `.ogg` |
| TelegramBot.SourceFileName | chatgpt_bot/bot.py:89-94 | an audio file goes by its own name; a voice note goes by the generated name, which calls for conversion from `.ogg` |
| TelegramBot.AudioForTranscription | chatgpt_bot/bot.py:88-101 | it fails only for an audio file without a name; a voice note's bytes are converted from `.ogg`; a named file ending in `.m4a` passes unchanged, and any other named file is converted with the suffix `ConversionSuffix` gives |
| TelegramBot.Dispatch | chatgpt_bot/bot.py:54-73 | every private message is answered or raises; a raise changes nothing, and only `/set_token_limit` changes the limit |
| TelegramBot.Conversation | chatgpt_bot/bot.py:61-73 | a non-command message keeps the limit, and it raises only when audio is attached, leaving the history alone |
| TelegramBot.ClearEmptiesHistory | chatgpt_bot/bot.py:54-56 | `/clear` empties the history, keeps the limit and answers "Cleaned bot brain.", even with an attachment |
| TelegramBot.SetLimitStoresValue | chatgpt_bot/bot.py:57-60 | `/set_token_limit N` stores `N` of any sign, keeps the history and answers "Set token limit to " plus `str(N)` |
| TelegramBot.TextIsOneChatTurn | chatgpt_bot/bot.py:63-69 | a plain text message is one `chat` turn, and the answer is what `chat` returned |
| TelegramBot.VoiceReplyShowsTranscript | chatgpt_bot/bot.py:64-73 | a voice note or named audio file transcribed as T is answered with the answer to T, then "\n\nMessage transcibed from audio: ", then T |
| TelegramBot.VoiceFailureLeavesHistory | chatgpt_bot/bot.py:64-73 | a failed transcription keeps the history and the limit, and the answer is "system error", the transcript note, then the gateway's diagnostic |
| TelegramBot.NamelessAudioRaises | chatgpt_bot/bot.py:88-97 | an audio file without a name raises and leaves the session unchanged |
| TelegramBot.BadLimitRaises | chatgpt_bot/bot.py:57-58 | a `/set_token_limit` text without a usable argument raises and leaves the session unchanged |
| TelegramBot.Bot.constructor | chatgpt_bot/bot.py:38 | the registry starts empty and nothing has been sent |
| TelegramBot.Bot.SessionFor | chatgpt_bot/bot.py:48-52 | a known sender gets its own session back unchanged; an unknown sender gets exactly one fresh session with an empty history and the limit 3500 |
| TelegramBot.Act | chatgpt_bot/bot.py:53-73 | the session's new history, its new limit and the outcome are `Dispatch` of its old state |
| TelegramBot.Converse | chatgpt_bot/bot.py:61-73 | the session's new history and the outcome are `Conversation` of its old state |
| TelegramBot.Bot.Handler | chatgpt_bot/bot.py:45-74 | a non-private message changes nothing and gets no reply; otherwise the registry gains at most the sender, the sender's session moves by `Dispatch` from its old state (or the fresh state), no other session changes, and exactly one reply is recorded unless the handler raised |

## Left out

- The Telegram client, event registration, `download_media` and `Bot.__init__` are left out because they are network I/O. An incoming message is an `Event` value. `msg.respond` appends the text to `Bot.replies`.
- The ffmpeg conversion and its temporary files are left out because they are subprocess and filesystem work. Conversion is an opaque function from bytes and an input suffix to bytes. A failing ffmpeg run is not modelled.
- httpx, the request headers and timeouts, and pydantic validation are left out. Each gateway is a function from what is sent to a raw outcome: unreachable, malformed, or parsed. The texts of exceptions are opaque strings.
- The tiktoken tokenizer is left out because it is a foreign library. It is the abstract `cost` of each session.
- OpenAiChat.TokenCount: `cost` is total, so the model does not capture tiktoken's `ValueError` on text holding a special token such as `<|endoftext|>`. In the source that error is raised inside `__limit_messages`, after the user turn was appended. No reply is sent, the turn stays in the history, and every later `chat` raises again until `/clear`.
- OpenAiChat.CompletionMessage: a parsed choice whose `message` is `None` is not modelled. The source would then fail at `msg.role`. The model's choices always hold a message.
- PyText.ParseInt: models `int()` on ASCII text, where only space and `\t` to `\r` are stripped. On text holding a non-ASCII character Python also accepts other Unicode digits and strips every Unicode space, `\x1c` to `\x1f` included; the model does not.
- Logging, the YAML configuration and the command-line entry point have no behaviour to verify.
- The API key and logger arguments of both `Chat` constructors are configuration, so they are left out.
- async/await and concurrency are left out. Each handler call is one atomic step. The source has no per-session lock.
- The `chatgpt_bot/chatgpt_api.py` module cannot be imported as written. It imports `log` and `get_logger` from `chatgpt_bot/utils.py`, which defines neither. Its `Chat` is modelled as if the import succeeded.
