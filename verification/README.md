# Tomo chat client — a Dafny model of its client-side core

Tomo is a browser chat tutor. The user types into a composer. The app
appends the question and an empty placeholder reply to the transcript. It
sends the text to a remote model session and streams the answer into the
placeholder chunk by chunk. A failed stream turns the reply into a fixed
apology. The remote model is told to end every answer with the token
`<<SUGGESTIONS>>` and a JSON array of follow-up prompts. The message view
cuts that payload off the displayed text and shows it as clickable chips.

This project lifts those decisions out of the React components and states
them as pure Dafny functions over immutable data, with lemmas about them:

| module | file | models |
|---|---|---|
| `Wrappers` | `wrappers.dfy` | `Option`, standing in for `undefined` / `null` |
| `Strings` | `strings.dfy` | the string built-ins the client uses (`trim`, `split`, `includes`, `toLowerCase`), plus `join` as the inverse of `split` for the round-trip lemmas |
| `Types` | `types.dfy` | `Message`, its two roles and optional `isThinking`; the two-profile `ModelType` and its model ids |
| `Gemini` | `gemini.dfy` | the session configuration per profile, the system instruction, the pass-through send, the shape of a response stream |
| `ChatMessage` | `chat_message.dfy` | the suggestion parser, the chip icon rule, the chip visibility rule |
| `InputArea` | `input_area.dfy` | the composer's submit rule, Enter handling, send-button state |
| `App` | `app.dfy` | the app state, the send / chunk / failure / settle / model switch / new chat transitions, and interleavings of several sends |

How things are represented:

- Message ids come from a counter in the app state instead of `uuidv4`.
  Fresh and never reused is therefore a checkable fact.
- A chat handle is an opaque value. It holds its configuration and a
  serial number, so two handles created one after another are different.
- A response stream is data: the chunks delivered, then whether it closed
  or raised. An error after `k` chunks is `k` chunks ending in `Raised`. An
  error thrown by the send itself is zero chunks ending in `Raised`.
- `JSON.parse` is a `Decoder` parameter, a function from the payload to an
  optional string list. The parser's fallback policy is modelled exactly;
  the JSON grammar is not.
- A configuration names its system instruction through `Gemini.Instruction`.
  That type has one value, because both profiles share the same Socratic-tutor
  instruction. Its verbatim wording is `Gemini.Instruction.Text`.
- One whole send with nothing interleaved is `App.HandleSendMessage`.
  `App.SendEventsAgree` proves that the interleaving model below gives
  the same state when a send's events arrive in one uninterrupted run.
- Several sends can be in flight at once. `App.World` pairs the state with
  every send started so far. `App.Step` applies one `Event`: a user action,
  or a chunk, error or close on one stream.

Three facts about the code shape what the model claims:

- The parse is memoised on the message text (components/ChatMessage.tsx:15-32),
  so it also runs on every partial text while a reply streams in.
  `CleanTextSettlesAtDelimiter` states what holds for partial text.
- Nothing in the code enforces one send at a time. `handleSendMessage`
  never reads `isLoading`. The welcome chips (App.tsx:161-169) and the
  suggestion chips (components/ChatMessage.tsx:106) call it directly.
  `EarlierFinishClearsLoadingOfLaterSend` exhibits a run where an older
  send's `finally` lowers `isLoading` while a newer send is still streaming.
  No single-send invariant is claimed.
- A reply whose stream closes without any text keeps its thinking flag.
  `SendCompletes` keeps the placeholder's initial flag when no chunk
  carried text.

## Model

| member | source | states |
|---|---|---|
| `Types.ModelIdsDistinct` | types.ts:8-11 | the two profiles name two different remote models: equal ids mean equal profiles |
| `Gemini.ChatConfigFor` | services/gemini.ts:49-60 | the model id is the profile's enum value. With no argument the profile is the tutor. Both profiles carry the one shared instruction, whose type has a single value. The reasoning budget is 0 exactly for the fast profile and 16384 otherwise |
| `Gemini.CreateChatSession` | services/gemini.ts:49-60 | a new session carries the configuration of the requested profile |
| `Gemini.ConfigIdentifiesProfile` | services/gemini.ts:49-60 | two sessions get the same configuration exactly when they select the same profile, so sessions of different profiles never share one |
| `Gemini.SendMessageStream` | services/gemini.ts:62-64 | the request goes to the given chat and carries the message text unchanged |
| `ChatMessage.InstructionNamesDelimiter` | services/gemini.ts:42 | the system instruction contains exactly the token the parser splits on |
| `ChatMessage.ParseMessage` | components/ChatMessage.tsx:15-32 | user entries and empty text come back unchanged with no suggestions. For any other message the display text has no surrounding whitespace and never contains the delimiter. Suggestions appear only if the text contains the delimiter |
| `ChatMessage.ParseSegments` | components/ChatMessage.tsx:18-31 | for text `d` + delimiter + `rest` with `d` delimiter-free, the display text is `d` trimmed. Only the first piece of `rest` is decoded, and a failed decode gives no suggestions |
| `ChatMessage.ParseWithoutDelimiter` | components/ChatMessage.tsx:18-22 | without a delimiter the display text is the whole text trimmed and there are no suggestions |
| `ChatMessage.ParseCutsAtFirstDelimiter` | components/ChatMessage.tsx:18-19 | the display text is exactly the trimmed prefix before the first occurrence of the delimiter |
| `ChatMessage.ParseRoundTrip` | components/ChatMessage.tsx:18-31 | a trimmed delimiter-free answer, the delimiter and a delimiter-free payload that decodes to `s` parse back to exactly the answer and `s` |
| `ChatMessage.ParseIgnoresAfterSecondDelimiter` | components/ChatMessage.tsx:18-25 | only the segment between the first and second delimiter is decoded; whatever follows a second delimiter has no effect |
| `ChatMessage.DecodeFailureIsSwallowed` | components/ChatMessage.tsx:21-28 | when the payload does not decode there are no suggestions. The display text is the one any decoder would give |
| `ChatMessage.CleanTextSettlesAtDelimiter` | components/ChatMessage.tsx:15-32 | once the delimiter has arrived in a streaming reply, further text never changes the display text |
| `ChatMessage.DelimiterOverlapFree` | components/ChatMessage.tsx:18 | no proper suffix of `<<SUGGESTIONS>>` is a prefix of it, so two occurrences cannot overlap |
| `ChatMessage.ChipsNeedDelimiter` | components/ChatMessage.tsx:101 | chips are shown only under a model message that is not thinking and whose text contains the delimiter |
| `ChatMessage.ChipsForWellFormedReply` | components/ChatMessage.tsx:101 | for a reply in the instructed format, chips are shown exactly when the message is not thinking and the decoded list is non-empty. An absent `isThinking` counts as not thinking |
| `ChatMessage.IconFor` | components/ChatMessage.tsx:34-40 | the icon follows case-insensitive keyword matches with priority "quiz", then "module", then "reasoning" or "steps", then the default. Each icon is characterised by an if-and-only-if over the four matches |
| `ChatMessage.IconIgnoresCase` | components/ChatMessage.tsx:35 | labels that are equal up to letter case get the same icon |
| `InputArea.HandleSend` | components/InputArea.tsx:28-33 | something is sent exactly when the trimmed input is non-empty and the composer is not disabled. The sent text is the trimmed input and the box is then empty. A refused send leaves the box unchanged |
| `InputArea.SentTextIsClean` | components/InputArea.tsx:29-30 | sent text is never empty, has no whitespace at either end, and is its own trim. The emptied box cannot send again |
| `InputArea.HandleKeyDown` | components/InputArea.tsx:21-26 | Enter without Shift performs the send and suppresses the newline. Shift+Enter and every other key send nothing and leave the default action alone |
| `InputArea.KeyDownSendsLikeButton` | components/InputArea.tsx:21-33 | a key press submits exactly when it is Enter without Shift and the send button would be enabled, and then it does what the button does |
| `InputArea.ButtonEnabledIffSends` | components/InputArea.tsx:66 | the send button is enabled exactly when pressing it would send |
| `Strings.Trim` | components/ChatMessage.tsx:19 | the result has no ECMAScript whitespace at either end and is no longer than the input |
| `Strings.TrimOfPadded` | components/InputArea.tsx:29 | whitespace around a trimmed string is exactly what `trim` removes (uniqueness) |
| `Strings.TrimSplits` | components/InputArea.tsx:30 | every string is its trimmed form with whitespace on both sides (existence) |
| `Strings.TrimIdempotent` | components/InputArea.tsx:30 | trimming twice is trimming once |
| `Strings.FirstOccurrence` | components/ChatMessage.tsx:18 | the result is an occurrence at or after the start position with none before it; absence means no occurrence from there on |
| `Strings.Split` | components/ChatMessage.tsx:18 | there is at least one piece and no piece contains the separator. There is one piece exactly when the text lacks the separator. Joining the pieces with the separator gives the text back |
| `Strings.SplitJoin` | components/ChatMessage.tsx:18 | for an overlap-free separator, splitting a join of separator-free pieces gives the pieces back |
| `Strings.SplitAfterFirst` | components/ChatMessage.tsx:18 | for an overlap-free separator, a separator-free prefix followed by the separator is exactly the first piece |
| `Strings.SplitFirstPieceStable` | components/ChatMessage.tsx:18-19 | once the separator has occurred, appending text leaves the first piece unchanged |
| `Strings.LowerContains` | components/ChatMessage.tsx:35-38 | searching the lower-cased text for a lower-case word is the same as a case-insensitive search of the original |
| `App.UpdateById` | App.tsx:72-78 | the update by id keeps length, order, ids and roles. Every entry with another id is unchanged. Entries with the id get the text and stop thinking |
| `App.UpdateAbsentIsIdentity` | App.tsx:83-88 | an id not in the transcript leaves it unchanged |
| `App.UpdateOverrides` | App.tsx:72-78 | a later update of the same id overrides an earlier one |
| `App.SendWithoutSessionIsNoop` | App.tsx:40 | a send without a session leaves every part of the state unchanged |
| `App.SendStarts` | App.tsx:39-64 | a send sets `hasStarted` and `isLoading` and appends exactly two entries in order under two new ids: the user entry with the text, then an empty model placeholder thinking exactly under the deep profile. The text goes unchanged to the current session. Without a session nothing happens |
| `App.AccumulatedEmptyIffSilent` | App.tsx:66-71 | the accumulated reply is empty exactly when no chunk carried text |
| `App.DeliverEffect` | App.tsx:66-80 | after any prefix of the stream, the buffer and the placeholder hold the concatenation of all non-empty chunk texts so far. The placeholder has stopped thinking once some chunk carried text. Chunks with absent or empty text change nothing, and nothing else in the state changes |
| `App.SendCompletes` | App.tsx:63-92 | a cleanly closed stream leaves the transcript as before plus the user entry and a reply holding the concatenated chunk texts. With no text at all the reply keeps `''` and its initial thinking flag. `isLoading` ends false |
| `App.SendFails` | App.tsx:81-92 | a stream that raises after any number of chunks, zero included, leaves the reply holding the fixed apology and not thinking. `isLoading` ends false |
| `App.FreshDelivery` | App.tsx:63-79 | the stream loop of a fresh send turns the placeholder into the concatenated chunk texts. It leaves the placeholder untouched when no chunk has text, and changes no other message or field |
| `App.FailedDelivery` | App.tsx:81-89 | the apology replaces whatever the chunks already wrote into the placeholder, and no other message or field changes |
| `App.FinishedReplyRendersAnswerAndChips` | App.tsx:66-80 | when the streamed reply is an answer, the delimiter and a decodable payload, the view shows the answer, no thinking indicator, and chips exactly when the list is non-empty |
| `App.SendEventsAgree` | App.tsx:39-93 | a send made as a new run, followed by its chunks and then its close or error with nothing in between, leaves exactly the state of the single-send model, so the send properties above hold in the interleaving model too |
| `App.ModelChangeResets` | App.tsx:20-37 | choosing the current profile is a no-op. Choosing the other one selects it, empties the transcript and clears `hasStarted`. The session is replaced by a new one configured for the new profile |
| `App.MountedSession` | App.tsx:20-22 | on mount the session effect has created a session for the default deep profile with its reasoning budget; the transcript is empty and nothing is loading |
| `App.ResetClears` | App.tsx:95-99 | a new chat empties the transcript, clears `hasStarted` and replaces the session by a new one for the same profile |
| `App.StepKeepsValid` | App.tsx:39-99 | every transition keeps the invariant. Ids increase along the transcript and were all handed out. The session belongs to the selected profile. Only an empty model reply under the deep profile is thinking |
| `App.ThinkingOnlyWhileEmptyUnderTutor` | App.tsx:55-60 | in every reachable state a thinking message is an empty model reply, and none exists while the fast profile is selected |
| `App.IdsNeverRepeat` | App.tsx:45-54 | in every reachable state the transcript's ids are pairwise distinct |
| `App.ClearingSilencesEarlierSends` | App.tsx:68-92 | after a new chat or a profile switch, streams of earlier sends can change nothing but the loading flag: transcript, profile, session and counters equal those produced by the later events alone |
| `App.EarlierFinishClearsLoadingOfLaterSend` | App.tsx:90-92 | an older send's `finally` can lower `isLoading` while a newer send is still streaming |

## Left out

- Rendering is not modelled: JSX, styling, the logo, markdown rendering and
  its code renderer, auto-scroll and textarea auto-height. None of it makes
  a decision the rest depends on.
- The Gemini SDK and the network are not modelled. A chat handle is an
  opaque value and a stream is given data (chunks plus an ending).
- The API-key check and all console logging are left out. They are
  configuration and I/O.
- The JSON grammar is left out. `JSON.parse` is the `Decoder` parameter.
  The decoder yields a string list or a failure. The code does not check
  that the parsed value is an array of strings. What other values do when
  the chips would render is not modelled:
  - `null` throws at `suggestions.length` (components/ChatMessage.tsx:101);
  - a non-empty JSON string, or an object with a positive `length`, passes
    the length test and throws at `suggestions.map`
    (components/ChatMessage.tsx:103);
  - an array with a non-string element throws at `text.toLowerCase()`
    (components/ChatMessage.tsx:35);
  - any other number, boolean, empty string or object fails the length test
    at components/ChatMessage.tsx:101 and hides the chips.
- `uuidv4` is replaced by a counter. Uniqueness of random UUIDs is assumed
  rather than modelled.
- React scheduling is left out. State updates apply one at a time, in
  order. A profile switch and the session effect it triggers form one step.
  The render between them, where the old session is still set, is not
  modelled.
- The single-outstanding-send invariant is deliberately not claimed; see
  `App.EarlierFinishClearsLoadingOfLaterSend`.
- Strings.ToLower: lower-cases ASCII letters only, weaker than Unicode
  `toLowerCase`. For the four ASCII keywords the icon rule searches for, it
  gives the same matches. The only non-ASCII code points whose lower case
  contains an ASCII letter are U+0130 (to `i` plus U+0307) and U+212A (to
  `k`). Neither can complete a match of "quiz", "module", "reasoning" or
  "steps".
- Strings.IsWhitespace: uses the space separators of Unicode 15. A
  JavaScript engine built on another Unicode version may differ.
- Strings are sequences of Unicode code points, while JavaScript strings
  are sequences of UTF-16 code units. `trim`, `split`, `includes` and
  `toLowerCase` give the same results either way on these inputs: the
  whitespace set lies in the Basic Multilingual Plane, and the delimiter
  and keywords are ASCII, so no match can start or end inside a surrogate
  pair. Lone surrogates cannot be represented.
- Strings.Split: covers only non-empty separators; the client splits only
  on `<<SUGGESTIONS>>`.
- The composer's optional `disabled` property is a boolean. Absent, as on
  the welcome screen, reads as `false`.
