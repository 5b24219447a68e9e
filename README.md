# L'Oréal chat widget: a Dafny model of its conversation core

The system is a browser chat widget (`script.js`) for a beauty-advisor bot.
It keeps an append-only `messages` history that starts with one system
instruction. On each submission it trims the input, drops empty input and
appends a user turn. A keyword filter then decides how to answer. Off-topic
questions get a canned refusal. In-scope questions get a "thinking" turn, a
call to a remote completion worker with the whole history, and one final
assistant turn: the worker's trimmed reply, or a canned error text. On page
load the widget appends a welcome turn.

The model has five modules, one per component:

- `Wrappers` (`wrappers.dfy`): `Option` and `Result`.
- `Strings` (`strings.dfy`): the JavaScript `trim`, an ASCII `toLowerCase`
  and `includes`. `trim` and `includes` are each tied to a separate
  reference definition (a whitespace-only cut, an occurrence at some index).
  Lowercasing is defined character by character, with lemmas about its
  properties. `trim` uses the full ECMAScript whitespace and
  line-terminator set, so it is exact.
- `TopicFilter` (`topic_filter.dfy`): `isBeautyRelated` over the fixed list
  of 30 keywords.
- `Completion` (`completion.dfy`): the part of `fetchChatCompletion` that
  checks an already-parsed response (status, then
  `choices[0].message.content`) and trims the reply.
- `Conversation` (`conversation.dfy`): the class `Chat`, whose `messages`
  field is the script's history, with the load and submit handlers as
  methods. The network is an input to `Submit`: a `FetchOutcome` that says
  whether `fetch` rejected or which `Response` arrived. `Submit` returns
  the history it would have sent, or `None` when it makes no call.

`Chat.Valid()` is the history invariant: element 0 is the system turn and no
later turn has the system role. Every method keeps it and only appends.

Two facts about the code shape the model:

- The keyword list has 30 entries (script.js:53-84).
- An empty-string `content` is an error, because it is falsy. A
  whitespace-only `content` passes that check and is trimmed to `""`
  (script.js:114-118).

## Model

| member | source | states |
|---|---|---|
| `Strings.Trim` | script.js:125 | the result is the input with only whitespace removed from both ends, and it neither starts nor ends with whitespace; it is empty exactly when the input is all whitespace |
| `Strings.TrimmedAtUnique` | script.js:125 | any whitespace-only trimming of a string that leaves no whitespace at the ends is the one `Trim` returns |
| `Strings.TrimIdempotent` | script.js:118 | trimming a trimmed string changes nothing |
| `Strings.TrimPadded` | script.js:125 | trimming removes exactly the whitespace padding around a string that has no whitespace at its own ends |
| `Strings.Contains` | script.js:86 | `hay.includes(needle)` holds exactly when `needle` occurs in `hay` at some index |
| `Strings.Lower` | script.js:52 | lowercasing keeps the length; each character is mapped on its own |
| `Strings.LowerHasNoCapitals` | script.js:52 | the lowercase form has no ASCII capitals, and every character that is not a capital stays where it was |
| `Strings.LowerIdempotent` | script.js:52 | lowercasing twice gives the same as lowercasing once |
| `TopicFilter.SomeKeywordIn` | script.js:86 | `keywords.some(k => lower.includes(k))` holds exactly when some keyword of the list occurs in the text |
| `TopicFilter.IsBeautyRelated` | script.js:51-87 | the text is in scope exactly when one of the fixed keywords occurs in its lowercase form |
| `TopicFilter.KeywordsShape` | script.js:53-84 | the list has 30 keywords, none empty and each already lowercase |
| `TopicFilter.KeywordInScope` | script.js:86 | a text equal to a keyword up to ASCII case is in scope |
| `TopicFilter.KeywordsInScope` | script.js:52-86 | every keyword is in scope as written and in capitals |
| `TopicFilter.CaseInsensitive` | script.js:52 | a text and its lowercase form get the same verdict |
| `TopicFilter.UppercaseInsensitive` | script.js:52 | a text and its uppercase form get the same verdict ("SKINCARE" as "skincare") |
| `TopicFilter.SomeKeywordInMonotone` | script.js:86 | for any keyword list, a text that contains a matching text matches too |
| `TopicFilter.Monotone` | script.js:86 | any text containing an in-scope text is in scope |
| `TopicFilter.TrimmedInScope` | script.js:125-139 | if the trimmed input is in scope, so is the raw input |
| `TopicFilter.SkincareQuestion` | script.js:51-87 | "What's a good skincare routine?" is in scope |
| `TopicFilter.WeatherQuestion` | script.js:51-87 | "What's the weather today?" is not in scope |
| `Completion.OkIsSuccessClass` | script.js:100 | `response.ok` holds exactly for the statuses of the 2xx class |
| `Completion.ReplyField` | script.js:107-112 | the `&&` chain yields the content exactly when the body, `choices`, its first element, `message` and `content` are all present |
| `Completion.ExtractReply` | script.js:100-118 | a non-ok status is a worker error carrying the status; with an ok status, a missing or empty content is `NoContent`; otherwise the result is the trimmed content, and it succeeds exactly in that case |
| `Completion.ReplyIsTrimmed` | script.js:118 | a successful reply is a substring of the content sent, has no whitespace at either end and is unchanged by trimming |
| `Completion.WhitespaceOnlyReply` | script.js:114-118 | a non-empty, whitespace-only content is a success with the empty string, not an error |
| `Completion.WellFormedReply` | script.js:107-118 | a 200 response with content "Try a gentle cleanser..." yields exactly that text |
| `Completion.ServerErrorFails` | script.js:100-102 | an HTTP 500 fails with the worker error, whatever the body |
| `Completion.EmptyChoicesFail` | script.js:109-110 | an empty `choices` array fails like a missing one |
| `Conversation.FetchChatCompletion` | script.js:90-119 | a rejected `fetch` is a network failure; a received response is validated as `ExtractReply` says; `FinalTurn` states the end result directly in terms of the response |
| `Conversation.TerminalText` | script.js:154-167 | the turn that ends an in-scope submission is the reply on success and the canned error text on any failure; `FinalTurn` restates it in terms of status and reply field |
| `Conversation.AppendKeepsWellFormed` | script.js:15-29 | pushing a user or assistant turn keeps the single system turn first and alone |
| `Conversation.FinalTurn` | script.js:100-167 | the final turn is the trimmed content when an ok response carries a non-empty reply field, and the canned error text in every other case |
| `Conversation.ServerErrorTurn` | script.js:154-167 | after an HTTP 500 the final turn is the canned error text |
| `Conversation.TerminalTextTrimmed` | script.js:118-167 | the final turn is the canned error or a reply with no whitespace at either end |
| `Conversation.Chat.constructor` | script.js:15-29 | the history starts as the single system turn |
| `Conversation.Chat.Load` | script.js:171-177 | load appends exactly one assistant turn, the welcome text, and keeps the invariant |
| `Conversation.Chat.Submit` | script.js:122-168 | input that trims to empty changes nothing and sends nothing; off-topic input appends the trimmed user turn and the refusal and sends nothing; in-scope input appends the user turn and the thinking turn, sends exactly that history, then appends one final turn given by `TerminalText`; the invariant holds throughout |
| `Conversation.OffTopicSession` | script.js:122-177 | load, then "  What's the weather today? ", gives the system, welcome, trimmed user and refusal turns, with no request |
| `Conversation.ServerErrorSession` | script.js:122-168 | a skincare question answered with HTTP 500 sends the first three turns and ends with the canned error |
| `Conversation.AnsweredSession` | script.js:122-168 | the same question answered with "Try a gentle cleanser..." ends with that reply |

## Left out

- DOM work is not modelled, because it has no stateable behaviour: `addMessage` (script.js:32-48), the "You asked" label (script.js:136), clearing the input box (script.js:129) and `preventDefault` (script.js:123).
- The network is not modelled: `fetch`, the worker URL, the headers and the JSON encoding and decoding (script.js:7, 91-98, 104). `Submit` takes the outcome as an input and returns the history it would send.
- A response that fails to parse as JSON would reject in `response.json()`. The model covers this with a body of `None`, which reaches the same canned error turn, but through `NoContent`.
- A `choices` value that is not an array is modelled as missing. A non-array object with a `0` property would pass the chain in the script; the model treats it as missing.
- A `content` that is present but not a string is modelled as missing. In the script, a truthy non-string makes `trim` throw, which also ends in the canned error turn.
- Two submissions overlapping across the `await` (script.js:155) are not modelled, because that is concurrency. Each `Submit` is atomic.
- The `console.error` call (script.js:162) and the error message texts are left out, because they are logging. The unused `tempIndex` (script.js:151) is left out, because it has no effect.
- `Strings.Lower` lowercases ASCII letters only. JavaScript's full Unicode `toLowerCase` also maps characters such as the Kelvin sign (U+212A) to ASCII letters, and so could match keywords that the model does not.
- The system prompt (script.js:18-27) is carried as a constant string. Nothing is proved about its prose.
