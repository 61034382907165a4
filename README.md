# Chat-bot conversation engine, modelled in Dafny

This project models the per-user conversation engine of a Telegram role-play bot.
The user picks a character from a keyboard. The bot then forwards each message to a
chat-completions endpoint (OpenRouter), together with the character's system prompt
and a window of the recent history, and sends the reply back.

The model has five modules:

- `Wrappers` (`wrappers.dfy`): `Option`.
- `PyCore` (`pycore.dfy`): the Python built-ins the code relies on.
  - `s[start:]` with a negative start (`SliceFrom`), against a reference `Last`.
  - `str.startswith`, `in` on strings (`Occurs`), `str.replace`, `str(int)`.
  - `StartsWith`, `Occurs`, `IntToStr` and, in `PyJson`, `QuoteStr` define the words the contracts use. Their behaviour is stated through the rows that use them (`DeleteIdentityIff`, `RouteCallback`, `EscapeIdentityIff`, `QuotePlain`), not in rows of their own.
  - The exceptions subscription can raise.
- `PyJson` (`pyjson.dfy`): the decoded reply as Python holds it.
  - What `v[k]`, `k in v`, `v.get(k, d)` and `str(v)` do on each kind of value.
  - Which exception each of them raises on a value of the wrong kind.
- `AiProvider` (`ai_provider.dfy`): the model aliases and the `OpenRouterProvider` class.
  - Its constructor resolves the model name.
  - `GenerateResponse` builds the message list and classifies the decoded reply.
  - The HTTP round trip is a parameter (`Transport`): either the decoded body, or a failure that raises.
- `Bot` (`bot.dfy`):
  - The callback data of the character buttons and the keyboard builder.
  - The first-match routing of callback queries.
  - The history update and its bound.
  - The `ChatBot` class. Its mutable fields are `sessions` (the `user_sessions` dict) and `states` (the FSM state of each user). It has one method per handler and a `Dispatch` method.

`ChatBot.Valid()` is the invariant every handler preserves:

- A session names a character of the table exactly when it holds one, and holds that character.
- Its history has at most `2 * MAX_HISTORY_LENGTH` turns.
- The history alternates user and assistant turns in whole pairs.
- A user in the `chatting` state has a session with a character.

Behaviour the model reproduces on purpose:

- Callback handlers are tried in registration order, and the `startswith("char_")` filter comes first. So the menu's `"char_info"` button reaches `select_character` with id `"info"`, and `callback_character_info` can never run (`RouteCallback` ensures `r != CharacterInfo`; `InfoButtonSelectsCharacter`).
- `replace("char_", "")` deletes every occurrence, so an id survives the round trip exactly when it does not contain `"char_"` (`CallbackRoundTrip`).
- `/start` never resets an existing session. Selecting a character works in any state, since the callback handlers have no state filter.
- A text message from a user with no FSM state matches no handler. `/change` and the `change_char` callback set `choosing_character` without `/start`, so after them a message gets the choose-first answer; selecting a known character sets `chatting` without `/start`. A message while choosing never reaches the provider.
- When `generate_response` raises, nothing is appended to the history. Provider-error and "no answer" texts come back as ordinary return values, so they are remembered as assistant turns.
- Any reply body that is not a JSON object raises a `TypeError` inside `generate_response`, and the bot's `except` turns it into the generic apology. The same happens for a non-subscriptable value on the content path. Only a `KeyError` or `IndexError` on that path gives the fixed "no answer" text.
- `MAX_HISTORY_LENGTH` is a natural number. For 0, Python's `h[-0:]` is the whole list. The window then holds the whole history, and the history is never cut (`RememberUnbounded`, `SliceFromMinusZero`). The bound and the invariant therefore need it to be at least 1, which the `ChatBot` constructor demands.

Three consequences of the code that a reader might not expect:

- A failed exchange appends nothing to the history (bot.py:212-235).
- `/start` leaves an existing session as it is (bot.py:71).
- `callback_character_info` is unreachable, as above.

## Model

| member | source | states |
|---|---|---|
| `PyCore.LastIsSuffix` | ai_provider.py:42 | The last `n` elements built one at a time are exactly the suffix of length `min(n, len)`. |
| `PyCore.SliceFrom` | ai_provider.py:42 | Python `s[start:]`; whatever the start, the result is a suffix of `s` and never longer than it. `SliceFromNegative` and `SliceFromMinusZero` pin it to `Last`. |
| `PyCore.SliceFromNegative` | ai_provider.py:42 | For `n >= 1`, `s[-n:]` equals the last `n` elements (all of `s` when shorter), with length `min(n, len(s))`. |
| `PyCore.SliceFromMinusZero` | bot.py:225-226 | `s[-0:]` is the whole list, not the empty list, so a bound of 0 keeps everything. |
| `PyCore.NotOccursWithoutFirstChar` | bot.py:119 | A pattern whose first character is absent from a string does not occur in it. |
| `PyCore.Replace` | bot.py:119 | `str.replace`, leftmost and non-overlapping. A non-empty pattern that does not occur leaves the string unchanged, for any replacement. `DeleteShrinks`, `DeleteAbsent` and `DeleteIdentityIff` carry its properties for deletion. |
| `PyCore.DeleteShrinks` | bot.py:119 | Deleting a non-empty pattern never lengthens a string, and shortens it when the pattern occurs. |
| `PyCore.DeleteAbsent` | bot.py:119 | Deleting a pattern that does not occur leaves the string unchanged. |
| `PyCore.DeleteIdentityIff` | bot.py:119 | `s.replace(p, "") == s` holds exactly when `p` does not occur in `s` (both directions). |
| `PyJson.Lookup` | ai_provider.py:58-64 | A dict lookup misses exactly when no member has the key. |
| `PyJson.LookupLastWins` | ai_provider.py:58-64 | On a hit, the value is that of a member with the key, and no later member has the same key: the last duplicate wins. |
| `PyJson.Index` | ai_provider.py:59-64 | `v[k]` raises only `KeyError` (dicts), `IndexError` (lists and strings, for an integer index) or `TypeError`, and succeeds only on a dict, a list or a string. |
| `PyJson.Path` | ai_provider.py:64 | `v[k1][k2]...`, stopping at the first exception. An empty path yields `v`; any exception is `KeyError`, `IndexError` or `TypeError`. `ContentExtracted`, `MissingContentApologises` and `NonObjectReplyRaises` carry its behaviour on the content path. |
| `PyJson.Contains` | ai_provider.py:58 | `"error" in v` raises `TypeError` exactly on numbers, booleans and `None`; on a dict it is key membership. |
| `PyJson.Get` | ai_provider.py:59 | `v.get(...)` raises `AttributeError` exactly when `v` is not a dict. |
| `PyJson.Str` | ai_provider.py:60 | `str(v)` as the f-string shows the error message: a string appears as itself, and any other value as a non-empty `repr`. |
| `PyJson.Repr` | ai_provider.py:60 | `repr(v)` of a decoded value is never empty. |
| `PyJson.Escape` | ai_provider.py:60 | Escaping for `repr` never shortens a string. |
| `PyJson.EscapeIdentityIff` | ai_provider.py:60 | Escaping leaves a string unchanged exactly when it has no backslash, quote, newline, carriage return or tab; any such character makes it longer. |
| `PyJson.QuotePlain` | ai_provider.py:60 | A list holding one plain string (no single quote, backslash, newline, carriage return or tab) is shown as `['...']` with the text unchanged. |
| `AiProvider.ResolveModel` | ai_provider.py:14-27 | An alias maps to its model id; a name is changed exactly when it is an alias; the result is a known model id or the name itself. |
| `AiProvider.ResolveModelIdempotent` | ai_provider.py:14-27 | Resolving an already resolved name changes nothing. |
| `AiProvider.Classify` | ai_provider.py:58-66 | What `generate_response` makes of the decoded reply: a value, or an exception. `KeyError` and `IndexError` never escape, so only `TypeError` or `AttributeError` can. The lemmas from `ProviderErrorReported` to `ClassifyOutcomes` carry its cases. |
| `AiProvider.Respond` | ai_provider.py:53-66 | The whole call: it raises the client error exactly when the round trip fails, and otherwise classifies the decoded body. |
| `AiProvider.ProviderErrorReported` | ai_provider.py:58-60 | A reply with an `"error"` object yields the prefix plus `str(message)`, or plus `"Unknown error"` when there is no message; a string message appears verbatim. |
| `AiProvider.ErrorTakesPrecedence` | ai_provider.py:58-64 | A reply holding both `"error"` and a valid content path yields the error text, not the content. |
| `AiProvider.MalformedErrorRaises` | ai_provider.py:59 | An `"error"` member that is not an object makes the call raise `AttributeError`. |
| `AiProvider.ContentExtracted` | ai_provider.py:63-64 | Without `"error"`, `choices[0].message.content` is returned unchanged when the path exists. |
| `AiProvider.PathFoundYields` | ai_provider.py:58-64 | Without `"error"`, the value found at the content path is returned. |
| `AiProvider.PathMissingApologises` | ai_provider.py:58-66 | Without `"error"`, a `KeyError` or `IndexError` on the content path gives the fixed apology. |
| `AiProvider.PathThroughName` | ai_provider.py:64 | A named step of the content path moves on to the key's value, or stops with `KeyError` when the key is missing. |
| `AiProvider.PathThroughFirst` | ai_provider.py:64 | The `[0]` step moves on to the first choice, or stops with `IndexError` on an empty list. |
| `AiProvider.CompletionReplyYieldsContent` | ai_provider.py:63-64 | The minimal one-choice completion body yields its content. |
| `AiProvider.MissingMessageApologises` | ai_provider.py:63-66 | Without `"error"`, a first choice without `"message"` gives the fixed apology. |
| `AiProvider.MissingContentFieldApologises` | ai_provider.py:63-66 | Without `"error"`, a message without `"content"` gives the fixed apology. |
| `AiProvider.MissingContentApologises` | ai_provider.py:63-66 | Without `"error"`, a missing `choices`, an empty `choices`, a missing `message` or a missing `content` yields the fixed apology, with no exception. |
| `AiProvider.NonObjectReplyRaises` | ai_provider.py:58-66 | A reply body that is not a JSON object always raises `TypeError`. |
| `AiProvider.ClassifyOutcomes` | ai_provider.py:58-66 | Every value returned is the prefixed provider error, the fixed apology, or the value at the content path. |
| `AiProvider.OpenRouterProvider.constructor` | ai_provider.py:23-27 | The provider keeps the key and limits, and its model is the resolved configured name. |
| `AiProvider.OpenRouterProvider.GenerateResponse` | ai_provider.py:29-66 | The request carries the resolved model. Its messages are the system turn, then the last `min(M, len(history))` turns in order (the whole history when `M` is 0), then the user turn, for `2 + min(M, len)` in all. The result is the classification of the decoded body, or a raise when the round trip fails. |
| `Bot.CharacterCallback` | bot.py:49 | Button data starts with `"char_"`, and the rest is the character id. |
| `Bot.CallbackCharacterId` | bot.py:119 | The id read back from callback data is never longer than the data, and equals it exactly when the data does not contain `"char_"`. |
| `Bot.CallbackRoundTrip` | bot.py:49-119 | Decoding the button data gives back the id exactly when the id does not contain `"char_"`. |
| `Bot.CallbackRoundTripLosesInnerPrefix` | bot.py:119 | The id `"char_x"` comes back as `"x"`. |
| `Bot.RouteCallback` | bot.py:115-171 | Data starting with `"char_"` goes to selection with the decoded id; `"change_char"` and `"clear_history"` go to their handlers, and only those strings do; the info handler is never chosen. |
| `Bot.InfoButtonSelectsCharacter` | bot.py:61-171 | The menu's `"char_info"` data is routed to character selection with id `"info"`. |
| `Bot.CharacterButtonRoutes` | bot.py:49-119 | A character button routes to the selection of its own id when the id does not contain `"char_"`. |
| `Bot.CharacterKeyboard` | bot.py:41-53 | One single-button row per character, in order, each showing emoji and name over the encoded id; each such button routes back to its character. |
| `Bot.RememberKeepsNewest` | bot.py:221-226 | For `M >= 1`, the new history is the last `2M` turns of the old history plus the new pair, in order, with length `min(len + 2, 2M)`. |
| `Bot.RememberAppends` | bot.py:221-226 | The new pair always ends the history. Nothing is dropped while there is room. A history within the bound stays within it. |
| `Bot.PairedSuffix` | bot.py:225-226 | Dropping an even number of turns from the front keeps whole user/assistant pairs. |
| `Bot.RememberPaired` | bot.py:221-226 | An exchange keeps the history in alternating user/assistant pairs. |
| `Bot.RememberUnbounded` | bot.py:225-226 | With a bound of 0, the history grows by the pair and is never cut. |
| `Bot.ThreeExchangesKeepTwo` | bot.py:221-226 | With a bound of two pairs, the third exchange drops the oldest pair and keeps the newest four turns. |
| `Bot.Remember` | bot.py:221-226 | The history after an exchange (append, then trim) is always a suffix of the old history plus the new pair. `RememberKeepsNewest`, `RememberAppends`, `RememberPaired` and `RememberUnbounded` carry its properties. |
| `Bot.RememberKeepsSessionValid` | bot.py:221-226 | For a bound of at least one pair, an exchange keeps a valid session valid: same character, history within the bound and in whole pairs. |
| `Bot.ChatBot.constructor` | bot.py:29-38 | The bot starts with no sessions and no states, and a fresh provider built from the same configuration: the same API key, token limit and history bound, and the resolved model. |
| `Bot.ChatBot.CmdStart` | bot.py:65-92 | A session `{character: None, history: []}` is created only when the user has none; an existing session is kept in every field; the state becomes `choosing_character`. |
| `Bot.ChatBot.CmdChangeCharacter` | bot.py:105-112 | Only the user's state changes, to `choosing_character`; sessions are untouched. |
| `Bot.ChatBot.SelectCharacter` | bot.py:115-146 | A known id replaces the user's session by `{id, character, []}` and sets `chatting`, leaving other users alone; an unknown id changes nothing. |
| `Bot.ChatBot.CallbackChangeCharacter` | bot.py:149-157 | Only the user's state changes, to `choosing_character`. |
| `Bot.ChatBot.CallbackClearHistory` | bot.py:160-168 | Only that user's history becomes empty and the character is kept; a user without a session gets none. |
| `Bot.ChatBot.CallbackCharacterInfo` | bot.py:171-189 | Details are shown exactly when the user has a character, with its emoji, name, description and the number of stored turns; otherwise the choose-first alert. |
| `Bot.ChatBot.HandleChatMessage` | bot.py:192-235 | Without a character, the provider is not called and nothing changes. Otherwise the request holds the provider's model and token limit, the character's prompt, the history window and the text. If the call raises, the history is unchanged. If it returns a value, the pair is remembered and that value is the reply. |
| `Bot.ChatBot.StoreExchange` | bot.py:221-226 | After a returned value, only this user's history changes, to `Remember` of the old history, the text and the reply. States are unchanged and the invariant holds. |
| `Bot.ChatBot.HandleMessageWithoutCharacter` | bot.py:238-244 | A message while choosing only gets the choose-first answer. |
| `Bot.ChatBot.Dispatch` | bot.py:65-244 | Commands come before the state handlers, and callbacks follow `RouteCallback`. Only a message in `chatting` can reach the provider, and it always does. It then has the effect of `HandleChatMessage`: the same request (model, token limit and messages), the history untouched on a raise, the remembered pair on a returned value, and the state unchanged. A message while choosing, or with no state, changes nothing. |

`Bot.ChoosingScenario`, `Bot.ChoosingUserScenario` and `Bot.ChattingScenario` are client methods. Their assertions check the handler contracts against short conversations: a message before `/start`, `/start`, a message while choosing, an unknown id, selection, a reply, and a failed call.

## Left out

- The Telegram transport: sending, editing and answering messages and callbacks, the typing action, the markup objects, `main` and polling. Handlers return an `Answer` value naming what they would show.
- The wording of the bot's own messages. `Answer` records only their kind and the values they show.
- Command parsing. An update arrives already sorted into `/start`, `/menu`, `/change`, a plain message or a callback query. Any other text, including other commands, is a plain message.
- Messages without text (`message.text` is `None`). The model's messages always carry a string.
- A failure of `message.answer(response)` after the history was updated, for example for an empty or non-string reply. The history change stays and the reply is modelled as sent.
- Concurrency across users, and the `await` inside `handle_chat_message`. The handler keeps a reference to the session dict across the provider call; an event that replaced the session meanwhile would make the append land on the discarded dict. Events are modelled one at a time.
- The FSM storage key: aiogram keys state by chat and user; the model keys it by user.
- HTTP: URL, headers, the API key's use and the session. JSON decoding of the body: a body that is not JSON counts as a failed round trip.
- The `temperature` and `top_p` payload fields, which are floating-point configuration. JSON floats are not modelled: numbers are integers.
- `repr` of strings inside a non-string error message escapes only the backslash, the quote, newline, carriage return and tab, not other unprintable characters. Objects are rendered member by member as decoded, so duplicate keys are not merged.
- Logging and the API-key warning printed by `get_ai_provider`.
- The character table (`characters.py` is not part of this model). It is the `catalog` map and the `CharacterCard` list. The configuration (`config.py` is not part of this model) is the `Config` value.
- `cmd_menu` is modelled only as the `Menu` answer inside `Dispatch`; it touches no state.
- Bot.ChatBot.Dispatch: for the commands, for character selection and for the change and clear callbacks it states the effect on sessions and states but not the whole answer; the answer is in the contract of the handler it calls.
