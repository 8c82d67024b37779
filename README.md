# Neuropy voice-chat core, modelled in Dafny

Neuropy connects a user to Hume's empathic voice interface (EVI) over a WebSocket.
`main.py` is its core. It has three parts:

- `WebSocketHandler` receives the server's events. It records the chat id and every
  user and assistant turn, together with the turn's prosody emotion scores.
- When the socket closes, `save_chat_to_firestore` builds a transcript of the user's
  turns. It keeps each emotion's highest score over the conversation and takes the
  three strongest.
- Two OpenAI chat completions then produce an emotional analysis with empathetic
  feedback, and a list of emotional associations. The result is written to the
  Firestore collection `Hume`, keyed by the chat id.

The model has seven modules:

- `Wrappers`: `Option` and `Result`.
- `Text`: the Python string operations the core uses. `upper`, `" ".join`,
  `split("|||")` and `strip`, each with Python's edge cases.
- `Dicts`: Python dictionaries, as insertion-ordered sequences of distinct
  `(emotion, score)` entries with `get` and item assignment.
- `Emotions`: `_extract_top_n_emotions` and the identical top-3 selection in
  `save_chat_to_firestore`. Both use a stable sort by descending score.
- `Messages`: the stored turn record.
- `Persist`: `save_chat_to_firestore` and its two analysis helpers. `Firestore` is a
  class whose `documents` map its write updates.
- `Session`: the `WebSocketHandler` class with `on_message` and `on_close`, a pure step
  function that specifies `on_message`, and a whole-session replay lemma.

How the outside world enters the model:

- **OpenAI**: a function parameter `complete: Request -> Result<string, string>`. A
  `Failure` stands for a call that raises.
- **Firestore**: the `Firestore` class. The parameter `fault` says whether a write
  raises.
- **The clock**: `on_message` takes `now` as a parameter.

Failures of analysis and storage are not caught. `save_chat_to_firestore` re-raises
every exception (main.py:207-210), so the model returns them as `Failure`:

- A failing or malformed OpenAI completion raises, and nothing is written. Only the
  uncalled `analyze_hume_transcript` (main.py:115-141) replaces failures with empty
  strings.

A `chat_metadata` event overwrites `chat_id` on every event (main.py:53-54).

## Model

| member | source | states |
|---|---|---|
| Text.Upper | main.py:57 | the result has the same length, and each character is the ASCII upper case of the input character at the same position |
| Text.UpperIdempotent | main.py:57 | an upper-cased role holds no lower-case ASCII letter, so upper-casing it again changes nothing |
| Text.Join | main.py:150-154 | `sep.join(parts)`; its partner lemmas state that appending a part adds the separator and the part (`JoinSnoc`), when the join is empty (`JoinEmpty`), and that joining a split gives the string back (`Split`) |
| Text.JoinSnoc | main.py:150-154 | joining one more part appends the separator and the part; the first part gets no separator |
| Text.JoinEmpty | main.py:150-156 | with a non-empty separator, the join is empty exactly when there are no parts or a single empty part |
| Text.FindFrom | main.py:288 | returns the first occurrence of the delimiter at or after the start position, or none if there is no occurrence from there on |
| Text.Split | main.py:288 | `split` always yields at least one part, and joining the parts with the delimiter gives back the original string |
| Text.SplitPartsFree | main.py:288 | no part of a split contains the delimiter |
| Text.SplitInTwo | main.py:288 | there are exactly two parts iff the delimiter occurs once with no later non-overlapping occurrence; the parts are then the text before and after it |
| Text.LStrip | main.py:289 | the result is the longest suffix that does not start with Python whitespace; everything removed is whitespace |
| Text.RStrip | main.py:289 | the result is the longest prefix that does not end with Python whitespace; everything removed is whitespace |
| Text.Strip | main.py:289 | the result is an infix with nothing but whitespace around it, and it starts and ends with non-whitespace; it is empty iff the input is all whitespace |
| Text.StripIdempotent | main.py:289 | stripping a stripped string changes nothing |
| Dicts.KeysIndex | main.py:164 | a label is a key of the dictionary iff some item carries it |
| Dicts.Get | main.py:165 | `get(label, default)` returns the default for a missing label and the stored score otherwise |
| Dicts.Set | main.py:165 | assignment adds the label to the keys; an existing label keeps its position and takes the new value, and a new label is appended at the end |
| Dicts.SetGet | main.py:165 | after `d[l] = v`, `l` reads back as `v` and every other label reads as before |
| Dicts.SetLabels | main.py:165 | assignment keeps the order of the keys: an existing label keeps its place, and a new label comes last |
| Emotions.Insert | main.py:107 | one insertion step of the sort adds exactly the inserted entry, as a multiset |
| Emotions.SortDesc | main.py:107 | the sort's output is a permutation of its input |
| Emotions.SortDescSorted | main.py:107 | the output of `sorted(..., reverse=True)` by score is in non-increasing score order |
| Emotions.SortDescStable | main.py:107 | for every score, entries with that score keep their input order (Python's sort is stable, also with `reverse=True`) |
| Emotions.SortDescUnique | main.py:107 | two sequences that are both sorted by descending score and keep the same order within each score are equal: sortedness and stability determine the sort |
| Emotions.SortDescOfSorted | main.py:107 | sorting an already sorted sequence returns it unchanged |
| Emotions.SortDescDistinct | main.py:108 | sorting the items of a dictionary keeps labels distinct, so rebuilding a dictionary from them loses nothing |
| Emotions.TopN | main.py:105-108 | returns min(n, size) entries in descending order, drawn from the input; every dropped entry scores no higher than every kept one, and ties keep their input order |
| Emotions.TopNIdempotent | main.py:105-108 | applying the selection to its own result gives the same result |
| Persist.UserTexts | main.py:150-154 | the list of user texts is empty iff no message has the role `USER` |
| Persist.Transcript | main.py:150-154 | the user texts joined by single spaces; `TranscriptSnoc`, `TranscriptEmpty` and `TranscriptExample` state how each turn extends it and when it is empty |
| Persist.TranscriptSnoc | main.py:150-154 | a user turn appends its text to the transcript after one space (no space before the first); other turns leave the transcript unchanged |
| Persist.TranscriptEmpty | main.py:156-158 | the transcript is empty, so the save is skipped, iff there is no user turn or exactly one with empty text |
| Persist.TranscriptExample | main.py:150-154 | user, assistant, user turns give the two user texts separated by one space |
| Persist.Aggregate | main.py:161-165 | the value of `all_emotions` after the loops; `AggregateKeys`, `AggregateIsMax` and `AggregateOrder` state its keys, its values and its order, and `AggregateEmotions` is the loop that computes it |
| Persist.Upsert | main.py:165 | one assignment `all_emotions[emotion] = max(score, all_emotions.get(emotion, 0))`; `UpsertGet` states its effect |
| Persist.UpsertGet | main.py:165 | after the assignment, the label holds the larger of its score and its old value (0 when absent), and every other label is unchanged |
| Persist.AggregateEmotions | main.py:161-165 | the nested loop produces the per-label maximum dictionary that `Aggregate` defines |
| Persist.MergeIntoKeys | main.py:164-165 | folding one message's scores in adds exactly that message's labels to the keys |
| Persist.MergeIntoMax | main.py:164-165 | after folding, a label's value is at least its old value and every score the message gives it, and equals one of them |
| Persist.AggregateKeys | main.py:161-165 | a label is in `all_emotions` iff some user message scored it |
| Persist.AggregateIsMax | main.py:161-165 | each label's value is at least 0 and at least every user score it got, and is 0 or one of those scores (`max` against the default 0) |
| Persist.AggregateOrder | main.py:161-172 | the keys of `all_emotions` come in the order their labels were first scored by a user message, which is the order in which the stable top-3 sort breaks ties |
| Persist.AggregateExample | main.py:161-165 | scores 0.2, 0.9 and 0.5 for one label in three user turns aggregate to 0.9 |
| Persist.ParseReply | main.py:288-289 | a failed unpack reports a part count other than 2 |
| Persist.ParseReplySoleDelimiter | main.py:288-289 | the sentiment reply unpacks iff `|||` occurs once under Python's split (no second non-overlapping occurrence); the halves are the stripped text before and after it |
| Persist.ParseReplyWithoutDelimiter | main.py:288 | a reply without `|||` fails to unpack, with one part |
| Persist.AnalyzeSentiment | main.py:255-289 | one `gpt-3.5-turbo` request with a 300-token limit, a raised call reported as `AnalysisFailed`, and the reply parsed by `ParseReply`; `AnalyzeSentimentResult` states the outcome |
| Persist.AnalyzeSentimentResult | main.py:279-289 | the sentiment analysis succeeds iff the call returns a reply in which `|||` occurs once under Python's split (no second non-overlapping occurrence); the result is then its stripped halves, and a raised call gives `AnalysisFailed` with its reason |
| Persist.ExtractAssociations | main.py:291-319 | one `gpt-3.5-turbo` request with a 500-token limit; the reply content is returned unparsed, and a raised call becomes `AnalysisFailed`; `FinalizeStores` and `AssociationsFailureRaises` state its effect on the pipeline |
| Persist.Finalize | main.py:143-191 | raises `MissingChatId` iff the chat id is missing or empty; skips iff there is a chat id and the transcript is empty; otherwise any document written is keyed by the chat id and holds the non-empty transcript and the top 3 of the aggregated emotions (the analysis fields are stated by `FinalizeStores`, `StoredReplyParsed` and the two failure lemmas) |
| Persist.Assemble | main.py:174-188 | builds the document from the two analysis results, in source order; the first failure is the result; `FinalizeStores` and the two failure lemmas state it for the pipeline |
| Persist.NoUserTurnNoWrite | main.py:149-158 | a conversation without user turns is never written: it is skipped, or raises for a missing chat id |
| Persist.SentimentFailureRaises | main.py:175 | a failing or malformed sentiment reply raises that error, whatever the associations call would return |
| Persist.AssociationsFailureRaises | main.py:176 | after a successful sentiment call, a failing associations call is the pipeline's error, and nothing is written whatever the store would do |
| Persist.FinalizeStores | main.py:174-191 | when both calls succeed and `|||` occurs once in the sentiment reply under Python's split (no second non-overlapping occurrence), the document written under the chat id holds the transcript, the top three emotions, the two stripped halves and the associations reply unchanged |
| Persist.StoredReplyParsed | main.py:175-186 | a written document's analysis and feedback are the stripped halves of a sentiment reply in which `|||` occurs once under Python's split (no second non-overlapping occurrence), and its associations are the second reply's content |
| Persist.Firestore.constructor | main.py:26 | the client starts with whatever documents the remote database already holds |
| Persist.Firestore.SetDocument | main.py:191 | a successful write replaces the document at the path and changes nothing else; a failing write changes nothing |
| Persist.Analyze | main.py:175-188 | the two analysis calls, in source order, build the planned document or stop at the first failure |
| Persist.Store | main.py:191 | a planned document is written under `Hume/<chat id>`; a store failure becomes `StoreFailed` with nothing written; skips and earlier failures write nothing |
| Persist.SaveChat | main.py:143-210 | the result is `Persisted` (the `Finalize` outcome, then the write), and the store gains exactly the written document |
| Session.Step | main.py:50-88 | messages only grow, by one record exactly for a user or assistant turn; that record has the upper-cased role, the content, the time and the prosody scores (none for text input); `chat_id` is set by metadata events only; audio is forwarded and errors raise, with nothing stored; printed top emotions number at most 3 and are non-empty iff the turn had scores |
| Session.ReplaySession | main.py:50-71 | after any sequence of events, `chat_id` is the id of the last metadata event (or the initial one), and `messages` is the initial list followed by one record per turn, in arrival order |
| Session.WebSocketHandler.constructor | main.py:35-40 | a new handler has no chat id and no messages |
| Session.WebSocketHandler.OnMessage | main.py:50-88 | the fields and the reaction are exactly those `Step` gives for the old fields and the event |
| Session.WebSocketHandler.OnClose | main.py:90-94 | a save happens iff there is a non-empty chat id and at least one message; its result and the store's new documents are those of `SaveChat` |

## Left out

- Audio output: `base64` decoding and the byte `Stream` the audio goes to (main.py:72-76) are not modelled. The event is `Forwarded`, with no state change.
- Printing: the printed lines are modelled as text, but the `[HH:MM:SS]` prefix, the `.2f` score formatting and the analysis printout are not.
- The stored `top_emotions` are kept as reals; their `.2f` string formatting (main.py:181-183) is not modelled.
- `firestore.SERVER_TIMESTAMP` is assigned by the server and is not part of `ChatRecord`.
- The prompt texts, the system messages and `temperature=0` are not modelled. A `Request` carries the model name, the prompt kind, the transcript, the top emotions and the token limit, and the reply is whatever `complete` returns.
- `analyze_hume_transcript` (main.py:115-141) is not modelled: nothing calls it.
- `main()`, `sending_handler`, the microphone task, `on_open`, `on_error`, `set_socket`, the Firebase and API-key setup, and the concurrency of the callbacks are all I/O and are not modelled.
- Text.Upper: maps only ASCII letters. Python's `str.upper` also maps other Unicode letters and can change the length (e.g. `ß` becomes `SS`).
- Session.Step: assumes a voice turn (`from_text` false) always carries prosody scores. When `message.models.prosody` is `None`, the source raises `AttributeError` at main.py:63 before the append at main.py:66, so nothing is stored; the model has no such case. A `from_text` of `None` is the model's `fromText == true`: no scores are taken (`is False` fails).
- Session.Event: `Step` does not require `WellTagged`. An ill-tagged `Unrecognized("error")` is printed as `<ERROR>`, while a real `error` event is a `ServerError` and raises.
- Emotions.TopN: `n` is a `nat`. The source only ever passes 3; a negative slice bound is not modelled.
- Scores are mathematical reals: NaN and floating-point rounding are not modelled. An integer 0 default and a float 0.0 are treated as the same value.
- A sentiment reply whose `content` is `None` makes `split` raise `AttributeError` (main.py:288); the model covers it only as a generic failure of `complete`.
- Persist.ExtractAssociations: an associations reply whose `content` is `None` is returned as it is (main.py:319), and the source stores the document with a null `emotional_associations` (main.py:186, 191). The model's replies are always strings, so it cannot represent that case.
- `app-whisper.py`, `archive/main.py` and the vendored libraries are not part of this model.
