# Per-channel conversation history of the `/gemini` command

The Discord bot in `somnus-1.0.py` keeps one conversation history per channel. This history lives in the
module-level dictionary `conversation_histories`, which maps a channel id to a list of rendered turns
(`"User: …"`, `"Assistant: …"`). The slash command `/gemini <prompt>` handles each request in one of
four ways:

- **Reset**: the prompt, stripped and lower-cased, is `reset`. The channel's entry is popped, and no
  model is called.
- **Reject**: the prompt is the empty string. Nothing changes.
- **Query success**: the handler appends the user turn, drops the oldest entry if the list is now
  longer than 15, and renders the prompt as the entries joined by newlines followed by
  `"\nAssistant:"`. It sends that prompt to the model, then appends the stripped answer as an assistant
  turn, caps the list again and stores it under the channel.
- **Query failure**: the model call raises. No assistant turn is added. `dict.get(channel, [])`
  returns the stored list itself, so a channel that already had an entry keeps the user turn. A
  channel that had none still has none, because the fresh list is stored only on success.

The model has four modules:

- `PyText` (`text.dfy`): Python's `str.strip()` over the exact `str.isspace()` character set, the
  lower-case comparison used for the reset keyword, and `"\n".join` with its inverse, newline
  splitting.
- `TurnHistory` (`history.dfy`): the cap of 15 and the append-then-evict step.
- `Session` (`session.dfy`): a pure transition `Step(table, channel, prompt, backend)` with its
  properties. The model backend is a function from the prompt sent to `Ok(text)` or `Err(message)`.
- `Store` (`store.dfy`): the imperative handler. `TurnList` is a Python list object that changes in
  place, and `ConversationStore` holds `map<ChannelId, TurnList>`, so a stored list and the list the
  handler works on are the same object. `ConversationStore.Handle` is proved to leave exactly the
  table that `Session.Step` describes and to return the same outcome.

## Model

| member | source | states |
|---|---|---|
| TurnHistory.CapAppend | somnus-1.0.py:74-77 | below the cap the new turn is appended at the end; at or above the cap the entry at index 0 is dropped and the others keep their order, followed by the new turn |
| TurnHistory.CapAppendKeepsLast | somnus-1.0.py:74-77 | a history of at most 15 entries still has at most 15 after one append and eviction, and they are the last 15 of the old entries plus the new one |
| TurnHistory.AppendAllKeepsLast | somnus-1.0.py:93-95 | eviction is FIFO: after any number of appends, each followed by the eviction, the history is exactly the most recent 15 of the old and new entries, in order |
| TurnHistory.SixteenAppendsEvictFirst | somnus-1.0.py:76-77 | sixteen appends to an empty list leave the last fifteen: only the first entry is evicted |
| Session.Step | somnus-1.0.py:55-101 | a request on one channel changes no other channel: every other key stays present or absent, with its value unchanged |
| Session.Query | somnus-1.0.py:71-101 | the query path changes no channel other than the requesting one |
| Session.StepKeepsBound | somnus-1.0.py:74-77 | if every history has at most 15 entries before a request, the same holds after it, whatever the outcome |
| Session.Run | somnus-1.0.py:55-101 | the table left by handling a sequence of requests in order, each request with its own channel, prompt and backend |
| Session.RunKeepsBound | somnus-1.0.py:93-95 | starting from a bounded table, every history stays within 15 entries after any sequence of requests on any channels, whatever each request's backend answers |
| Session.ResetClears | somnus-1.0.py:59-62 | a reset prompt removes the channel's entry, is not an error when there is no entry, calls no model and adds nothing |
| Session.ResetIdempotent | somnus-1.0.py:60 | a second reset on the same channel leaves the table unchanged |
| Session.ResetKeyword | somnus-1.0.py:59 | the prompt `reset` is a reset |
| Session.ResetKeywordTrimmedAnyCase | somnus-1.0.py:59 | surrounding whitespace and letter case are ignored: `"  ReSeT\n"` is a reset |
| Session.NotResetKeyword | somnus-1.0.py:59 | inner whitespace or extra letters make it not a reset: `re set` and `resets` are queries |
| Session.EmptyPromptRejected | somnus-1.0.py:64-66 | the empty prompt is rejected, the table is unchanged and no model is called |
| Session.BlankPromptIsQueried | somnus-1.0.py:64 | the emptiness test is on the raw prompt, so a non-empty whitespace-only prompt reaches the model |
| Session.QuerySuccess | somnus-1.0.py:90-96 | on an answer, the prompt sent is the rendered capped history with the user turn. The outcome carries the stripped answer. The channel's stored history is the old one with the user turn and then `"Assistant: "` plus the stripped answer appended, each with eviction, i.e. the last 15 of those entries |
| Session.QueryFailure | somnus-1.0.py:72-101 | on a backend error, no assistant turn is added and the outcome carries the error text. A channel without an entry still has none. A channel with an entry keeps the user turn appended in place, with eviction |
| Session.IsReset | somnus-1.0.py:59 | the reset test `strip().lower() == "reset"`; `ResetKeyword`, `ResetKeywordTrimmedAnyCase` and `NotResetKeyword` pin down which prompts pass it |
| Session.Lookup | somnus-1.0.py:72 | `get(channel, [])`: the channel's stored turns, or the empty list when it has none |
| Session.UserTurn | somnus-1.0.py:74 | the user turn is `"User: "` followed by the raw prompt |
| Session.AssistantTurn | somnus-1.0.py:93 | the assistant turn is `"Assistant: "` followed by the stripped answer |
| Session.RenderPrompt | somnus-1.0.py:79 | the prompt is the turns joined by newlines followed by `"\nAssistant:"`; `PromptIsJoin`, `PromptLines` and `FirstPromptSent` state what that string is |
| Session.PromptIsJoin | somnus-1.0.py:79 | for any non-empty history, whatever its turns contain, the prompt sent is the turns and the bare cue `Assistant:` joined as lines |
| Session.PromptLines | somnus-1.0.py:79 | the rendered prompt splits on newlines into exactly the history's entries followed by `Assistant:`, when no entry contains a newline |
| Session.FirstPromptSent | somnus-1.0.py:74-79 | on a channel without history, the prompt `hi` sends exactly `"User: hi\nAssistant:"` |
| PyText.Strip | somnus-1.0.py:90 | `str.strip()` with no argument, cutting Python's `isspace()` characters from both ends; `StripRecoversCore` and `StripIsTrim` state what it keeps |
| PyText.LowerEquals | somnus-1.0.py:59 | `s.lower() == word` for a lower-case ASCII word: same length, and each character lower-cases to the word's character at that position |
| PyText.Join | somnus-1.0.py:79 | `"\n".join(lines)`; `JoinSnoc` and `SplitJoin` state its shape and its inverse |
| PyText.StripRecoversCore | somnus-1.0.py:59 | `strip()` removes any whitespace around a core that neither starts nor ends with whitespace and returns that core |
| PyText.StripIsTrim | somnus-1.0.py:90 | the result of `strip()` is a contiguous piece of its input, with only whitespace cut from either side, and it neither starts nor ends with whitespace |
| PyText.JoinSnoc | somnus-1.0.py:79 | joining one more line at the end adds exactly one newline before it |
| PyText.SplitJoin | somnus-1.0.py:79 | splitting on newlines recovers the joined lines when none contains a newline |
| Store.TurnList.constructor | somnus-1.0.py:72 | a new list is empty |
| Store.TurnList.Append | somnus-1.0.py:74 | `append` adds the turn at the end and changes nothing else |
| Store.TurnList.PopFront | somnus-1.0.py:77 | `pop(0)` returns the oldest entry and leaves the rest in order |
| Store.TurnList.AppendCapped | somnus-1.0.py:93-95 | append followed by the conditional `pop(0)` changes the list exactly as `CapAppend` says |
| Store.ConversationStore.constructor | somnus-1.0.py:14 | the table starts with no entries and no list objects, so it is bounded and no list is shared between channels |
| Store.ConversationStore.Forget | somnus-1.0.py:60 | `pop(channel, None)` removes the channel's entry, present or not, and keeps every other entry and its list object |
| Store.ConversationStore.Extend | somnus-1.0.py:74-77 | appending to the handler's list changes the table at once when the list is the stored one, and leaves the table unchanged when it is a fresh list |
| Store.ConversationStore.Put | somnus-1.0.py:96 | storing the list makes it the channel's entry and keeps every other entry |
| Store.ConversationStore.Handle | somnus-1.0.py:55-101 | the handler, acting on shared list objects, leaves exactly the table `Session.Step` gives and returns its outcome; it keeps lists unshared between channels, keeps the 15-entry bound, and stores only lists that were already stored or are newly created, so the store can handle request after request |
| Store.ConversationStore.Ask | somnus-1.0.py:71-101 | the query path, with the stored list changed in place, leaves exactly the table `Session.Query` gives and returns its outcome; any list it stores was already stored or is newly created |

## Left out

- Discord plumbing is not modelled: the client class, command-tree sync, intents, the `/help` text,
  `defer`, `send_message`, `followup.send` and the texts of the user-visible replies. These are
  messaging I/O. The outcome records which path was taken (reset, rejected, answer, error), the
  prompt sent to the backend, and the answer or error text.
- Session.Step: a failure of `followup.send` at line 99 is not modelled. The send is inside the
  `try` of line 81, so if it raises (for example for an answer longer than Discord's message limit,
  or an empty one) the error branch at lines 100-101 runs after line 96 has stored the assistant
  turn. The table is then the one the model gives, but the model reports `Answered`, not an error.
- Session.Step: a failure of `defer` at line 69 is not modelled. It is outside the `try`, so if it
  raises, the handler ends before line 72 and the table is untouched, while the model runs the
  query path.
- Store.ConversationStore.Handle: it is proved equal to `Session.Step`, so the same two failures
  (`followup.send` at line 99 and `defer` at line 69) are outside it too.
- The Google GenAI client, the model name and `generate_content`, including reading `response.text`,
  are a foreign network call. They become the `backend` parameter, a total function from the prompt
  sent to `Ok(text)` or `Err(message)`. In a sequence of requests (`Session.Run`) each request has
  its own backend, so the same prompt can get different replies. Any exception raised in that block is an `Err` whose message
  is the exception's text.
- `asyncio.to_thread` and the await points are not modelled. Each request is one sequential
  transition, so two requests on the same channel cannot interleave in the model.
- Loading the environment and `.env` file is configuration I/O and is not modelled.
- PyText.LowerEquals: this compares against ASCII lower-casing rather than Python's full Unicode `lower()`.
  For the one comparison made, against `reset`, the two agree. The only non-ASCII characters that
  lower-case to ASCII letters are the Kelvin sign (to `k`) and the dotted capital I (to `i` plus a
  combining dot), and neither letter occurs in `reset`.
- The commented-out `on_message` handler is dead code and is not modelled.
- The channel id is any integer. Discord's id format is not modelled.
- There is no prompt-length bound and no splitting of long answers, because the code has neither:
  the join at line 79 is unbounded and line 99 sends the answer whole.
