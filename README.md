# Mention handler of a chat relay bot, in Dafny

The bot listens for `app_mention` events from a chat platform. For each
mention it:

1. takes the user's message out of the event text;
2. reads the thread's last processed timestamp from a process-wide tracker
   (`"0"` for an unseen thread);
3. pages through the thread's replies, keeping only the messages strictly
   newer than that timestamp;
4. moves the tracker to the event's own timestamp;
5. joins the kept messages into a context and builds a prompt;
6. asks a remote inference endpoint for an answer, falling back to a fixed
   apology when the request fails;
7. stores an interaction record under `thread id + "-" + clock reading`;
8. posts the answer back into the thread.

This project models those steps and proves what they compute.

Modules, one per component:

- `Text` (`text.dfy`): Python's `str.split(" ", maxsplit=1)`, `str.strip()`
  (with Python's full set of whitespace code points) and `" ".join`.
- `Slack` (`slack.dfy`): the platform's values, meaning timestamps, messages
  and events. Also the thread id of an event and the user's message.
- `History` (`history.dfy`): `fetch_thread_history`. It is an imperative
  `while true` loop over the platform's answers, proved against
  `Newer(Received(replies), lastKnown)`.
- `Tracker` (`tracker.dfy`): the `last_processed_message_ts` dictionary. It is
  a class whose `last` map field is updated in place. `Track` is the tracker
  after a sequence of mentions.
- `Inference` (`inference.dfy`): the request `generate_response` sends and
  what it returns.
- `Store` (`store.dfy`): `store_interaction`. It is a class whose `records`
  map stands for the key-value store, plus the key format.
- `Handler` (`handler.dfy`): `handle_mention` as one method over the tracker
  and the store.
- `Scenarios` (`scenarios.dfy`): runs of the handler derived from its contract.

Inputs that stand for external calls:

- `replies`: the platform's answers to the successive `conversations.replies`
  requests. Each answer is a page (messages plus `has_more`) or a `SlackApiError`.
- `userName`: the outcome of `get_user_name`, absent after a `SlackApiError`.
- `answer`: the outcome of the inference POST. It is one of:
  - JSON with a `text` field;
  - a `RequestException`;
  - JSON without `text`, whose `KeyError` escapes `generate_response` and the
    handler.
- `now`: the reading of `datetime.now().isoformat()`.

`said` is the message `say` posts.

A timestamp carries both the platform's string and its numeric value scaled to
microseconds. The string is what the bot uses as a key. The number is what
`float(...) > float(...)` compares, so the filter is numeric, not lexicographic.

The two ordering points of the handler are both in `HandleMention`'s contract:

- the history is filtered against the tracker's value from before the event;
- the tracker is advanced to the event's timestamp even when generation
  raises. In that case nothing is stored or posted, and the consumed messages
  never come back: see `Scenarios.FailedGenerationConsumesContext`.

Two consequences of the code's order and formatting are worth stating:

- With no new messages the question is `"<name>:  <name>: hello"`: two spaces
  after the first colon and the name twice. `full_message` starts with a
  space when the context is empty, and `generate_response` prefixes the name
  a second time. See `Scenarios.QuestionWithoutContext`. When the platform's
  replies hold the mention itself, as for a mention that starts a thread, the
  mention's own text is the context: see `Scenarios.FirstMentionInThread`.
- The tracker is updated right after the history fetch, before the display
  name is looked up and before generation.

## Model

| member | source | states |
|---|---|---|
| `Text.SplitOnce` | aloisio-code-slackbot.py:70-71 | `split(" ", maxsplit=1)` gives one part (the whole text) exactly when the separator does not occur. Otherwise it gives two parts: the text before the first separator, which contains none, and the rest. |
| `Text.Lead` | aloisio-code-slackbot.py:70 | The count of leading whitespace: everything before it is whitespace and the code point at it is not. |
| `Text.Trail` | aloisio-code-slackbot.py:70 | The cut-off point of trailing whitespace: everything from it on is whitespace and the code point just before it is not. |
| `Text.Strip` | aloisio-code-slackbot.py:70 | `strip()` never lengthens the text, and its result neither starts nor ends with whitespace. |
| `Text.StripShape` | aloisio-code-slackbot.py:70 | `strip()` returns an infix of the input, with whitespace only on either side. Together with `Text.Strip`'s ends, this is the shape `Text.StripUnique` turns around. |
| `Text.StripUnique` | aloisio-code-slackbot.py:70 | Any split of the input into whitespace, a part without whitespace at its ends, and whitespace has `strip()` equal to that part. This characterizes `strip()` completely. |
| `Text.StripIdempotent` | aloisio-code-slackbot.py:70 | Stripping an already stripped message changes nothing. |
| `Text.Join` | aloisio-code-slackbot.py:81-83 | `" ".join` of a non-empty list starts with the first part and ends with the last one. |
| `Text.JoinAppend` | aloisio-code-slackbot.py:81-83 | Joining two non-empty lists of texts gives their two joins with one separator between them. |
| `Text.JoinLength` | aloisio-code-slackbot.py:81-83 | The join's length is the sum of the parts plus one separator between each two parts. |
| `Slack.ThreadId` | aloisio-code-slackbot.py:68 | The thread id is the event's `thread_ts` when present and its own `ts` otherwise. |
| `Slack.UserMessage` | aloisio-code-slackbot.py:70-71 | The user's message has no whitespace at either end, and it is empty or shorter than the event text. |
| `Slack.SplitAtFirst` | aloisio-code-slackbot.py:70-71 | A text made of a head without the separator, the separator, and a tail splits into exactly that head and that tail. |
| `Slack.UserMessageAfterFirstSpace` | aloisio-code-slackbot.py:70-71 | The user's message is the text after the first space, stripped of surrounding whitespace. |
| `Slack.UserMessageWithoutSpace` | aloisio-code-slackbot.py:70-71 | A text without a space gives the empty message. |
| `History.Newer` | aloisio-code-slackbot.py:48-51 | Every kept message is strictly newer than `last_known_ts`, and no more messages come out than went in. |
| `History.Received` | aloisio-code-slackbot.py:43-58 | An error on the request gives nothing; otherwise the page's messages come first, before those of any later page. |
| `History.FetchThreadHistory` | aloisio-code-slackbot.py:41-61 | The loop returns exactly the messages newer than `last_known_ts` from the pages received before pagination stops, in page order and in order within each page. |
| `History.ReceivedStep` | aloisio-code-slackbot.py:46-58 | One loop step: an error ends with nothing more; a last page contributes its newer messages; a page with `has_more` contributes its newer messages and passes on to the next response. |
| `History.NewerAppend` | aloisio-code-slackbot.py:48-51 | Filtering a concatenation filters each part and keeps them in order, so page boundaries do not matter. |
| `History.NewerMembership` | aloisio-code-slackbot.py:48-51 | A message is kept if and only if it was received and its timestamp is strictly greater than `last_known_ts`. |
| `History.NewerCount` | aloisio-code-slackbot.py:48-51 | A kept message occurs exactly as often as it was received, and a message not newer never occurs, so nothing is duplicated. |
| `History.NewerKeepsAll` | aloisio-code-slackbot.py:48-51 | When every message is newer, the filter returns the batch unchanged. |
| `History.NewerDropsAll` | aloisio-code-slackbot.py:48-51 | When no message is newer, the filter returns nothing. |
| `History.NewerOfHistory` | aloisio-code-slackbot.py:48-51 | For a history whose old messages come first, the filter returns exactly the messages after them, in order. |
| `History.FirstRequestFails` | aloisio-code-slackbot.py:43-61 | An error on the first request gives the empty list. |
| `History.ErrorAfterPages` | aloisio-code-slackbot.py:52-61 | An error after some pages with `has_more` leaves exactly those pages' messages, in order. |
| `History.LastPageReached` | aloisio-code-slackbot.py:46-58 | Reading to a page without `has_more` leaves every page's messages, in order. |
| `History.ReceivedIgnoresLater` | aloisio-code-slackbot.py:52-58 | Responses after the one that stops the loop are never requested and do not affect the result. |
| `Tracker.ThreadTracker.constructor` | aloisio-code-slackbot.py:13 | The tracker starts empty. |
| `Tracker.ThreadTracker.Resume` | aloisio-code-slackbot.py:75-76 | A tracker that earlier updates have left holding the given map. This is the starting point of the scenarios. |
| `Tracker.ThreadTracker.Get` | aloisio-code-slackbot.py:73 | The lookup gives the thread's entry, or `"0"` (numerically 0) for an unseen thread. |
| `Tracker.ThreadTracker.Set` | aloisio-code-slackbot.py:75-76 | The update maps the thread to the given timestamp and leaves every other entry as it was. |
| `Tracker.Track` | aloisio-code-slackbot.py:73-76 | After a sequence of mentions, the tracker holds exactly the threads it held before plus the thread of each mention. |
| `Tracker.TrackAppend` | aloisio-code-slackbot.py:75-76 | One more handled mention is exactly one more tracker update, for that mention's thread. `Handler.HandleMentions` uses it for each step of its loop. |
| `Tracker.TrackedIsLastMention` | aloisio-code-slackbot.py:75-76 | After a sequence of mentions, a thread reads as the timestamp of its most recent mention. |
| `Tracker.TrackOtherThreads` | aloisio-code-slackbot.py:75-76 | A thread that no mention belongs to keeps its earlier reading. |
| `Tracker.TrackMonotone` | aloisio-code-slackbot.py:75-76 | When a thread's mentions arrive in timestamp order, its reading never decreases. |
| `Tracker.TrackReadsBelow` | aloisio-code-slackbot.py:75-76 | A thread's reading never exceeds a bound that its starting value and all its mentions respect. |
| `Inference.RenderName` | aloisio-code-slackbot.py:26 | A display name renders as itself. The rendering is `"None"` exactly when the name is absent or is the string `"None"`. |
| `Inference.RequestFor` | aloisio-code-slackbot.py:25-30 | The session id is the thread id. The question starts with the rendered name and `": "`, followed by exactly as many characters as the message has. |
| `Inference.GenerateResponse` | aloisio-code-slackbot.py:31-38 | A returned string is either the endpoint's own `text` or the fixed apology. |
| `Inference.GenerateOutcomes` | aloisio-code-slackbot.py:31-38 | A `RequestException` yields the fixed apology, and a `text` field yields that text. The function raises if and only if the body has no `text` field. |
| `Handler.Texts` | aloisio-code-slackbot.py:81-83 | The texts of the new messages, one per message, in order. |
| `Handler.Context` | aloisio-code-slackbot.py:81-83 | No messages give the empty context; one message gives its text; otherwise the context starts with the first message's text. |
| `Handler.FullMessage` | aloisio-code-slackbot.py:84 | The full message starts with the context and a space, and its length is that of the context, the rendered name and the message plus the three separator characters. |
| `Handler.QuestionLayout` | aloisio-code-slackbot.py:81-85 | The question is `name + ": " + context + " " + name + ": " + message` and the session id is the thread id. This combines lines 26-28 with line 84. |
| `Handler.ContextAppend` | aloisio-code-slackbot.py:81-83 | The context of two runs of messages is their two contexts joined by one space. |
| `Handler.HandleMention` | aloisio-code-slackbot.py:64-87 | The contract gives the handler's whole effect (see below the table). |
| `Handler.HandleMentions` | aloisio-code-slackbot.py:64-76 | After mentions handled one after another, the tracker is `Track` of those mentions, whatever each generation does. So the `Track` lemmas hold of the tracker the handler changes. |
| `Store.StoreKey` | aloisio-code-slackbot.py:102 | The key is the thread id, then a dash, then the timestamp, each part at its position. |
| `Store.StoreKeysDistinct` | aloisio-code-slackbot.py:101-102 | Two interactions in one thread at different clock readings get different keys, so neither overwrites the other. |
| `Store.StoreKeyInjective` | aloisio-code-slackbot.py:102 | For thread ids without a dash, the key determines both the thread id and the timestamp. |
| `Store.InteractionStore.constructor` | aloisio-code-slackbot.py:9 | The hosted store the process finds holds whatever records earlier runs left, given as `existing`. This is the starting point of the scenarios, whose stores end as `existing` plus the records they write. |
| `Store.InteractionStore.StoreInteraction` | aloisio-code-slackbot.py:99-110 | One write under `thread_id-timestamp`. The record holds the six fields, and its `timestamp` is the one in the key. No other entry changes. |
| `Scenarios.MentionText` | aloisio-code-slackbot.py:70-71 | A mention token, one space and a stripped message give that message. |
| `Scenarios.QuestionWithoutContext` | aloisio-code-slackbot.py:81-85 | With no new messages the question is `name + ":  " + name + ": " + message`. |
| `Scenarios.FirstMentionInThread` | aloisio-code-slackbot.py:64-87 | For a mention that starts a thread, where the replies hold just that mention, the unseen thread reads `"0"`, so the mention's own text is the context. The question is the name, that text, the name again and the message. The tracker moves to the mention, and the answer is stored under its key and posted in the thread. |
| `Scenarios.ResumedThread` | aloisio-code-slackbot.py:73-87 | Messages up to the tracked timestamp are left out. The newer ones form the context in order, and the tracker moves to the event's timestamp. |
| `Scenarios.FailedGenerationConsumesContext` | aloisio-code-slackbot.py:73-86 | After a mention whose generation raises, nothing is posted or stored. The next mention in the thread filters against that failed mention's timestamp. |
| `Scenarios.InferenceFails` | aloisio-code-slackbot.py:85-87 | On a request failure, the posted reply and the stored `bot_response` are both the fixed apology. |

`Handler.HandleMention` states the handler's whole effect:

- the history is filtered against the tracker's value from before the event (lines 73-74);
- the inference request uses the question built from the newer messages, and
  the thread id is its session id;
- the tracker maps the thread id to the event's `ts`, even when generation
  raises, and every other thread is unchanged (lines 75-76);
- when generation returns, one record is stored under
  `thread id + "-" + now`, holding the handler's values;
- when generation returns, that same text is posted to the event's channel in
  the thread;
- when generation raises, nothing is stored or posted.

## Left out

- The Slack Bolt app, `SocketModeHandler`, the `WebClient` calls and the
  `message` event logger are network I/O and a foreign SDK. Their results are
  inputs (`replies`, `userName`) and their effects are outputs (`said`).
- `get_user_name` is an input. The model only covers its two outcomes: a
  name, or absent after a `SlackApiError`. An absent name prints as `"None"`,
  as an f-string renders Python's `None`.
- `requests.post`, HTTP status handling and JSON decoding are foreign calls.
  They are the `answer` input.
- Store.InteractionStore.constructor: the hosted `db` persists across
  restarts and may already hold records. The source never creates or clears
  it, so the constructor takes those records as `existing` and does not
  promise an empty start. For the same reason `HandleMention` is stated
  against `old(store.records)`.
- Replit's `db` is the `records` map. A failing store write, which would
  propagate, is not modelled.
- `datetime.now()` is the `now` input.
- `float(msg['ts'])` is floating-point parsing. Each timestamp carries its
  numeric value as an integer count of microseconds instead, and the model
  does not check that the string and the number agree.
- Exceptions other than `SlackApiError` during the history fetch are not
  modelled, for example a missing `messages` key. They would propagate out of
  the handler.
- Environment variables, logging, process start-up and the `say` delivery
  itself are not modelled.
- History.FetchThreadHistory: requires `Ends(replies)`, meaning some answer
  ends pagination. The source loops for as long as the platform keeps saying
  `has_more`, so this precondition stands for the platform finishing a
  thread's pages.
- Handler.HandleMentions: states the tracker after several mentions and not
  the store. The store after each mention is stated call by call by
  `HandleMention`.
- With `requests` releases before 2.27, a body that is not JSON raises a
  plain `ValueError` from `response.json()` at line 34. That error is not a
  `RequestException`, so it would escape `generate_response` like a body
  without `text`. The model treats such a body as a `RequestException`, which
  is what newer releases raise.
- A thread message without a `text` key raises a `KeyError` at line 82, after
  the tracker update. This is not modelled: every `Message` has a text.
- Concurrent delivery of events is not modelled: the platform delivers
  mentions one at a time.
