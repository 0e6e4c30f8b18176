# GeoScan Pro: rock identification and rock chat, modelled in Dafny

GeoScan Pro is a web application that identifies rocks from photographs
and answers questions about rocks in a chat. It does both by asking a hosted
generative model. This project models the application's three pieces of
sequential logic as pure Dafny functions, and proves what each of them
promises.

- **Image analysis** (`analyzeRock`, module `RockAnalysis`):
  - removes the data-URL header from the image;
  - makes one attempt raced against a timer, and at most one retry;
  - pulls a JSON object out of the reply with a three-stage ladder (module `Extraction`);
  - sanitises the object into a profile with every field filled in;
  - falls back to a fixed placeholder profile on any failure.
- **Chat text pipeline** (`getRockInfo`, `getDetailedRockInfo` and the
  offline answers, module `RockChat`):
  - classifies each query as about a new rock or as a follow-up;
  - removes asterisks;
  - picks offline answers by ordered, case-insensitive keyword matching;
  - falls back to the offline answers whenever the service fails.
- **Chat page** (`RockChatPage`, module `ChatPage`):
  - the search, follow-up and reset handlers, modelled as a state reducer
    over the history, the busy flag and the current rock;
  - the routing of a submit;
  - which paragraph of an answer is shown;
  - which property rows the details panel shows, and in what order.

Things outside the program are parameters of the functions that use them:
- **The hosted model** is a function from a request to an `Attempt`:
  - `Replied(text)`: the call settled and gave this text;
  - `Unreadable`: the call settled but reading its text threw;
  - `Rejected`: the call rejected, or its timer fired first.
- **`JSON.parse`** is a partial function `Parser` from text to `Option<Value>`; `None` means it threw.
- **The API key** is the value `ConfiguredKey` computes from the environment variable.

Every operation returns the requests it made, in order. So "no call was
made" and "exactly one retry" are statements about results.

Supporting modules:
- `Options`: an option type.
- `Json`: parsed JSON values, with JavaScript truthiness and property access.
- `Service`: the outcomes of one call.
- `Text`: the JavaScript string operations the code uses (`trim`, `toLowerCase`, `includes`, `replace`, `split`).
- `Paragraphs`: `split(/\n\n+/)` and its last piece.

## Model

| member | source | states |
|---|---|---|
| Json.Member | src/components/RockChatPage.tsx:179 | Reading a property gives the object's own field when it has one, and `undefined` (`None`) in every other case. |
| Json.Truthy | src/components/RockChatPage.tsx:179 | The falsy values are exactly `null`, `false`, `0` and the empty string. Every array and every object, even an empty one, is truthy. |
| Text.TrimStart | src/components/RockChatPage.tsx:36 | What `trimStart` leaves is a suffix of the input, and it does not begin with white space. |
| Text.TrimEnd | src/components/RockChatPage.tsx:36 | What `trimEnd` leaves is a prefix of the input, and it does not end with white space. |
| Text.TrimStartRemovesSpace | src/components/RockChatPage.tsx:36 | `trimStart` removes only white space. |
| Text.TrimEndRemovesSpace | src/components/RockChatPage.tsx:36 | `trimEnd` removes only white space. |
| Text.TrimShape | src/components/RockChatPage.tsx:34-36 | A trimmed text has no white space at either end, and it is empty exactly when the input is all white space (the blank-input guard). |
| Text.Lower | src/lib/rockChat.ts:30 | Lowercasing keeps the length and maps each character on its own. |
| Text.IndexOf | src/lib/rockChat.ts:284 | The position found is an occurrence with none before it, and nothing is found exactly when the text does not contain the word. |
| Text.ReplaceFirst | src/lib/rockChat.ts:284 | `replace` with a string pattern rewrites only the first occurrence, and leaves a text without the pattern unchanged. |
| Text.SplitOn | src/lib/gemini.ts:167 | `split` gives at least one piece, no piece contains the separator, and the first piece is a prefix of the input. |
| Text.SplitThenJoin | src/lib/gemini.ts:167 | Joining the pieces of a split with the separator gives back the text. |
| Text.JoinThenSplit | src/lib/gemini.ts:167 | Splitting pieces joined with a separator they do not contain gives back the pieces. |
| Text.BeforeColon | src/lib/rockChat.ts:284 | `split(':')[0]` is the prefix up to the first colon, or the whole text when it has no colon. |
| Paragraphs.Paragraphs | src/components/RockChatPage.tsx:197 | A split on runs of blank lines yields at least one paragraph. |
| Paragraphs.RunEnd | src/components/RockChatPage.tsx:197 | A separator run extends over every following newline, as the greedy `\n\n+` does. |
| Paragraphs.LastParagraphIsLast | src/components/RockChatPage.tsx:197-203 | The last paragraph is the suffix after the last run of blank lines, and it holds no blank line. It is the whole text when the text has no blank line. |
| Paragraphs.LastParagraphSkipsSeparators | src/components/RockChatPage.tsx:197-203 | The last entry of the split equals the suffix found by skipping separator runs from the left. |
| Paragraphs.AfterSeparatorsIsLast | src/components/RockChatPage.tsx:197-203 | Skipping separator runs from the left ends on the suffix after the last separator. |
| Paragraphs.LastParagraphAfterBlank | src/components/RockChatPage.tsx:197-203 | A text ending in a blank line and then one line has that line as its last paragraph, whatever comes before. |
| Extraction.BraceBounds | src/lib/gemini.ts:156 | The greedy match runs from the first `{` to the last `}`. It exists exactly when some `{` comes before some `}`. |
| Extraction.BraceSpanIgnoresNoise | src/lib/gemini.ts:156-158 | An object with no `{` before it and no `}` after it is exactly what stage 2 picks out. |
| Extraction.BraceSpanIdempotent | src/lib/gemini.ts:156-158 | Stage 2 applied to its own result gives that result back. |
| Extraction.FirstWhere | src/lib/gemini.ts:171-172 | The index found is that of the first line passing the test, or the end when no line passes. |
| Extraction.GatherOpen | src/lib/gemini.ts:171-175 | Once a line has opened, the loop appends every line up to and including the first closing line. |
| Extraction.GatherIsLineSpan | src/lib/gemini.ts:167-175 | The reconstruction loop computes the lines from the first opening line through the first closing line, joined with no separator. The result is empty when a closing line comes first. |
| Extraction.ReconstructText | src/lib/gemini.ts:167-178 | Stage 3's candidate text is the line span of `text.split('\n')`: the lines from the first opening line through the first closing line, joined with no separator. |
| Extraction.OpensByFirst | src/lib/gemini.ts:172 | A line opens exactly when its first character that is not white space is `{`. |
| Extraction.LineSpanShape | src/lib/gemini.ts:167-175 | What stage 3 accumulates is a single line, and it opens unless it is empty. |
| Extraction.ReconstructSingleLine | src/lib/gemini.ts:167-175 | A single opening line, or the empty text, is its own stage-3 result. |
| Extraction.ReconstructIdempotent | src/lib/gemini.ts:167-175 | Stage 3 applied to its own result gives that result back. |
| Extraction.Ladder | src/lib/gemini.ts:149-187 | Direct parsing wins whenever it succeeds. A later stage runs only when every earlier one threw: `SpanStage` parses the brace span (lines 155-161), then `LineStage` parses the reconstructed lines unless they are empty (lines 166-181). The ladder fails exactly when all three stages fail. |
| Extraction.LadderRecoversEmbeddedObject | src/lib/gemini.ts:149-161 | An object embedded in prose is recovered when the whole text does not parse but the object alone does. |
| RockAnalysis.StripDataUrl | src/lib/gemini.ts:32 | A text that starts with no png, jpeg or jpg data-URL header is sent unchanged. |
| RockAnalysis.StripDataUrlRemovesHeader | src/lib/gemini.ts:32 | A text that starts with such a header is sent as the rest after one header. |
| RockAnalysis.StripDataUrlOfDataUrl | src/lib/gemini.ts:32 | Header plus payload gives back the payload exactly, even a payload that itself starts with a header. |
| RockAnalysis.Default | src/lib/gemini.ts:193-207 | Every field's default is a non-empty, and so truthy, string. |
| RockAnalysis.GetSanitize | src/lib/gemini.ts:193-204 | Each scalar field of the sanitised profile is `parsed.<key> \|\| default`. |
| RockAnalysis.SanitizeFields | src/lib/gemini.ts:193-207 | A field the reply gives a truthy value keeps that value. Every other field takes its own default. |
| RockAnalysis.SanitizePopulated | src/lib/gemini.ts:192-208 | Whatever the reply, every scalar field of the sanitised profile is truthy. |
| RockAnalysis.SanitizeLists | src/lib/gemini.ts:205-206 | `locations` and `uses` are kept exactly when they are arrays, even empty ones, and otherwise become `["Unknown"]`. |
| RockAnalysis.Pick | src/lib/gemini.ts:193-204 | `parsedJson.<key> \|\| default` is always truthy. |
| RockAnalysis.Sanitize | src/lib/gemini.ts:192-208 | Whatever the parsed value, the sanitised profile has every scalar field truthy. |
| RockAnalysis.ToJson | src/lib/gemini.ts:192-210 | The profile handed back is an object. Each of its thirteen scalar keys holds that field, and `locations` and `uses` hold the lists as arrays. |
| RockAnalysis.SanitizeToJson | src/lib/gemini.ts:192-208 | A populated profile passed through the sanitiser again is unchanged. |
| RockAnalysis.SanitizeIdempotent | src/lib/gemini.ts:192-208 | Sanitising twice is sanitising once. |
| RockAnalysis.FallbackPopulated | src/lib/gemini.ts:219-235 | The placeholder profile has every field set and truthy. |
| RockAnalysis.Normalize | src/lib/gemini.ts:140-213 | A reply whose text the ladder parses to a truthy value gives that value sanitised. Every other outcome gives the placeholder: a call that did not reply, a ladder that failed, or a falsy parse. |
| RockAnalysis.AnalyzeRock | src/lib/gemini.ts:86-138 | One or two requests. The first request has the full prompt, the stripped image and a 15000 ms timer. A second request is made exactly when the first rejects, for any reason, and it has the simplified prompt and no timer. There is never a third. The profile comes from the last reply. |
| RockAnalysis.AnalyzeRockPopulated | src/lib/gemini.ts:190-235 | Whatever the service and the reply, the result is a profile with every field truthy: `analyzeRock` never rejects. |
| RockAnalysis.WellFormedReplyPassesThrough | src/lib/gemini.ts:149-150 | A first reply that parses as it stands to a populated profile yields that profile unchanged, after one request. |
| RockAnalysis.NormalizeParsed | src/lib/gemini.ts:149-150 | A reply that parses as it stands to a truthy value is sanitised, and no later stage runs. |
| RockAnalysis.BothRejectedGivesFallback | src/lib/gemini.ts:101-138 | When both attempts reject, two requests are made and the placeholder is returned. |
| RockAnalysis.UnparsableReplyGivesFallback | src/lib/gemini.ts:182-184 | When no ladder stage parses the reply, the placeholder is returned and the request is not repeated. |
| RockChat.ConfiguredKey | src/lib/rockChat.ts:5 | The key is the placeholder exactly when the variable is unset, empty, or itself the placeholder. |
| RockChat.RockInfoRequest | src/lib/rockChat.ts:19-64 | The request uses the chat model, temperature 0.2 and 2048 output tokens. It carries the profile prompt for a query about a new rock and the conversational prompt for a follow-up. |
| RockChat.RegardingInAnyCase | src/lib/rockChat.ts:30 | The query is lowercased before the test, so "regarding" written in lower case, capitalised or in capitals makes it a follow-up. |
| RockChat.StripAsterisks | src/lib/rockChat.ts:72 | The result has no `*` and is no longer than the input. A text without `*` is unchanged. |
| RockChat.StripAsterisksAppend | src/lib/rockChat.ts:72 | Stripping works piece by piece, so the kept characters stay in order. |
| RockChat.StripAsterisksKeeps | src/lib/rockChat.ts:72 | A character is in the result exactly when it is in the input and is not `*`. |
| RockChat.StripAsterisksIdempotent | src/lib/rockChat.ts:72 | Stripping twice is stripping once. |
| RockChat.FirstMatch | src/lib/rockChat.ts:157-236 | The rule chosen matches the query, and no earlier rule matches. |
| RockChat.MockReply | src/lib/rockChat.ts:151-289 | A query about a new rock gets a catalogue entry or the not-found answer about that query. A follow-up gets one of the three canned answers or the generic answer about its subject. |
| RockChat.MockRockInfoText | src/lib/rockChat.ts:151-289 | The offline text for a query about a new rock is a catalogue profile or the not-found answer, which quotes the query. For a follow-up it is a canned answer or the generic answer about the query's subject. |
| RockChat.Rank | src/lib/rockChat.ts:157-236 | Each rock's rank is its position in the catalogue order granite, limestone, marble, basalt, sandstone. |
| RockChat.InitialRulesFollowCatalogue | src/lib/rockChat.ts:157-236 | The rules for new rocks are the catalogue, in order, each keyed by the lower-case rock name. |
| RockChat.FirstMatchAt | src/lib/rockChat.ts:157-236 | The first match is at position `i` exactly when rule `i` matches and no earlier rule does. |
| RockChat.EarlierRulesMiss | src/lib/rockChat.ts:157-236 | No rule before a rock's rule matches exactly when the query names no rock earlier in the catalogue. |
| RockChat.CatalogueAnswer | src/lib/rockChat.ts:152-157 | A query gets a rock's profile exactly when three things hold: it is about a new rock, its lower-case form names that rock, and it names no rock earlier in the catalogue. |
| RockChat.GraniteWinsTies | src/lib/rockChat.ts:157 | A query about a new rock that mentions granite, in any letter case, gets the granite profile. |
| RockChat.UnknownRockIsNotFound | src/lib/rockChat.ts:237-245 | A query about a new rock that names none of the five rocks gets the not-found answer. |
| RockChat.NotFoundQuotesQuery | src/lib/rockChat.ts:238 | The not-found answer quotes the query as typed. |
| RockChat.FollowUpAnswer | src/lib/rockChat.ts:249-287 | A follow-up gets the generic answer exactly when none of the three follow-up rules matches. |
| RockChat.FollowUpRuleOrder | src/lib/rockChat.ts:249-265 | A follow-up gets the granite-formation answer exactly when it mentions granite and formation. It gets the limestone-caves answer when it mentions limestone and caves but not both of the first pair. It gets the uses answer when it mentions uses and neither pair. |
| RockChat.RegardingIsFollowUp | src/lib/rockChat.ts:30 | A query that begins with "Regarding " is a follow-up. |
| RockChat.SubjectOfRegarding | src/lib/rockChat.ts:284 | The subject of `Regarding <rock>:<rest>` is the rock's name up to its first colon, so the whole name when it has no colon. |
| RockChat.Subject | src/lib/rockChat.ts:284 | The subject named in the generic answer has no colon and is no longer than the query. |
| RockChat.GetRockInfo | src/lib/rockChat.ts:13-79 | With the placeholder key, no request is made. Otherwise exactly one request is made: the chat model, temperature 0.2, 2048 output tokens, and the profile prompt exactly for queries about a new rock. A reply comes back with its asterisks removed. Every failure gives the offline answer: it never rejects. |
| RockChat.GetDetailedRockInfo | src/lib/rockChat.ts:86-148 | With the placeholder key, no request is made. Otherwise one request for the property object is made. The result is defined only when the service replied and `DetailStages` parsed it, by direct parsing or by the brace span (lines 131-143). It is then what the image-analysis ladder gives for the same reply. In every other case it is `undefined`. |
| RockChat.MockDetailedRockInfo | src/lib/rockChat.ts:291-311 | The offline property object is `undefined`: the function has no `return`. |
| ChatPage.SearchTurn | src/components/RockChatPage.tsx:36-85 | After a search the history is the trimmed query followed by one AI message. The message is structured exactly when the calls returned, and then shows the rock text with its asterisks removed and the property object. Otherwise it is the apology. The trimmed query is the current rock, the page is idle and the input is empty. |
| ChatPage.Search | src/components/RockChatPage.tsx:32-54 | A blank query changes nothing and asks nothing. Otherwise the search asks for the profile and then the property object of the trimmed query, or asks nothing when no key is configured. |
| ChatPage.SearchAnswers | src/components/RockChatPage.tsx:49-69 | A search past its guard always ends with the structured answer and never the apology. The answer carries the cleaned rock text and the property object. |
| ChatPage.OfflineSearch | src/components/RockChatPage.tsx:49-69 | Without a key a search makes no request and shows the offline text with no details panel. |
| ChatPage.FollowUpTurn | src/components/RockChatPage.tsx:92-136 | A follow-up appends the question as typed and then one plain AI message, and leaves the earlier messages and the current rock unchanged. The AI message is the answer with its asterisks removed, or the apology when the call threw. |
| ChatPage.FollowUpAnswers | src/components/RockChatPage.tsx:88-120 | A follow-up past its guard always ends with the answer and never the apology. The history becomes the earlier messages, the question as typed, and the cleaned answer to `Regarding <rock>: <question>`. The current rock is kept and the page ends idle with the input cleared. |
| ChatPage.FollowUp | src/components/RockChatPage.tsx:88-107 | Without a question or a current rock, nothing changes and nothing is asked. Otherwise at most one request is made, about `Regarding <rock>: <question>`. The history it then leaves is stated by `ChatPage.FollowUpAnswers`. |
| ChatPage.FollowUpAsks | src/components/RockChatPage.tsx:106-107 | With a key, a follow-up makes exactly one request, and it uses the conversational prompt. |
| ChatPage.FollowUpQueryIsFollowUp | src/components/RockChatPage.tsx:106 | The query a follow-up sends is always classified as a follow-up. |
| ChatPage.FollowUpQuerySubject | src/components/RockChatPage.tsx:106 | The subject of a follow-up's query is its rock's name up to the first colon in it, so the whole name when it has no colon. |
| ChatPage.OfflineFollowUp | src/components/RockChatPage.tsx:95-120 | Without a key, a follow-up makes no request. It appends the question and then, cleaned, one of the three canned answers or the generic answer. The generic answer names the current rock up to the first colon in its name. |
| ChatPage.OfflineFollowUpReply | src/lib/rockChat.ts:249-287 | The offline reply to a follow-up's query is a canned answer or the generic answer about the rock's name up to its first colon. |
| ChatPage.Reset | src/components/RockChatPage.tsx:139-144 | A reset clears the history, the current rock and the input, and leaves the busy flag alone. |
| ChatPage.Edit | src/components/RockChatPage.tsx:306-310 | Typing changes only the input, and does nothing while a handler is busy. |
| ChatPage.Route | src/components/RockChatPage.tsx:300 | Without a current rock a submit is a search. In a reachable state it goes to the follow-up handler exactly when a rock is current. |
| ChatPage.Submit | src/components/RockChatPage.tsx:300 | A blank input changes nothing and asks nothing. Any other input is answered: the history ends with an AI message, a rock is current, the page is idle and the input is empty. At most two requests are made. |
| ChatPage.RouteFollowsRock | src/components/RockChatPage.tsx:300 | In a reachable state, a submit goes to the follow-up handler exactly when a rock is current. |
| ChatPage.ValidInvariant | src/components/RockChatPage.tsx:36-37 | Submitting, resetting and typing keep the current rock, when there is one, a non-empty name with no surrounding white space. |
| ChatPage.ResetDuringSearch | src/components/RockChatPage.tsx:51-85 | A reset while a search awaits does not cancel it. The late answer lands alone in the emptied page with no current rock, so the next submit is a search. |
| ChatPage.ResetDuringFollowUp | src/components/RockChatPage.tsx:107-136 | A reset while a follow-up awaits leaves only the late answer, with no current rock. |
| ChatPage.DisplayRank | src/components/RockChatPage.tsx:149-153 | Each property's rank is its position in the panel's fixed order. |
| ChatPage.RowsFrom | src/components/RockChatPage.tsx:178-189 | Every row is for a listed property whose value is defined and truthy, and it shows that value. |
| ChatPage.RowIndex | src/components/RockChatPage.tsx:178-189 | Every listed property with a truthy value has a row. |
| ChatPage.RowsFromMembers | src/components/RockChatPage.tsx:149-189 | Over any list of properties, a property gets a row exactly when it is listed and its value is truthy. |
| ChatPage.RowsFromOrdered | src/components/RockChatPage.tsx:178-189 | Rows come in the order of the list, so each property appears at most once. |
| ChatPage.RowsFromExact | src/components/RockChatPage.tsx:149-189 | Over the fixed order, the rows are exactly the properties with a truthy value, in display order. |
| ChatPage.RowsExact | src/components/RockChatPage.tsx:147-190 | The panel shows exactly the thirteen properties whose value in the details is truthy, each once, with its value, in the fixed order. Other keys are never shown. |
| ChatPage.Rows | src/components/RockChatPage.tsx:147-190 | Details that are not an object show no rows. Every row shows the details' own value under that property's key, and the value is truthy. The rows come in display order. |
| ChatPage.NarrativeShown | src/components/RockChatPage.tsx:195-209 | Content with both "Type:" and "Mineral Composition:" shows only its last paragraph. Any other content is shown whole. |
| ChatPage.Narrative | src/components/RockChatPage.tsx:195-209 | What is shown is a suffix of the content. For profile-like content, it holds no blank line. |
| ChatPage.ViewShown | src/components/RockChatPage.tsx:272-280 | For every message: a structured AI message shows its narrative, and the details panel exactly when its details are truthy, built from those details. Any other message, the user's or a plain AI one, shows its content whole. |
| ChatPage.NarrativeOfProfile | src/components/RockChatPage.tsx:200-204 | A profile answer, with property lines first and a one-line summary last, shows only its summary. |

## Left out

- The SDK calls, the 15-second timer and `Promise.race`: a call is one `Attempt`. The timer is a field of the first request, and its firing is a `Rejected` attempt.
- The prompt texts: a request records which prompt it carries (full, simplified, profile, follow-up, properties), not the wording.
- `JSON.parse`: a parameter, `None` when it throws. Its grammar is not modelled.
- Message ids and timestamps (`Date.now()`, `new Date()`) and console logging: wall-clock values and side effects.
- Scrolling, focus, animation, theme and navigation in `RockChatPage.tsx`, and the presentation-only components (landing, about, contact, result, scan, camera, upload, auth, routing, styling): no logic the core depends on.
- Text.Lower: lowercases ASCII letters only, where `toLowerCase` also maps non-ASCII characters. The keywords compared with the lowered query ("regarding", the five rock names, "formation", "caves", "uses") are lower-case ASCII, so only ASCII characters of the lowered query can take part in a match. Two non-ASCII characters lower to ASCII letters: U+212A (Kelvin sign) to `k`, and U+0130 to `i` followed by U+0307. No keyword contains `k`. No keyword ends in `i`, so an `i` from U+0130 could match only if the U+0307 after it matched too, and no keyword contains U+0307. Every other character lowers to ASCII exactly when it is ASCII. So the keyword matches agree with `toLowerCase`.
- Asynchrony: each handler is split at its `await`s into a start and a finish, so that a reset in between can be stated (`ResetDuringSearch`, `ResetDuringFollowUp`). Other interleavings, such as two handlers in flight at once, are not modelled. The input and the submit button are disabled while a handler is busy.
- The handlers' `catch` branches (the apologies) cannot be reached, because `getRockInfo` and `getDetailedRockInfo` never reject. `FinishSearch` and `FinishFollowUp` still model them, for a `None` outcome, and `SearchTurn` and `FollowUpTurn` state what they show.
- The offline property object: `getMockDetailedRockInfo` builds a one-entry granite table but never returns it, so it yields `undefined`; `OfflineSearch` shows no details panel.
- The wording of the offline answers: the catalogue and canned texts are reproduced, but no lemma checks them character by character. For example, nothing proves that a catalogue summary is one line without asterisks. This is why `NarrativeOfProfile` is stated for any profile of the right shape, not for the five catalogued ones.
- `NotFoundAdvice` takes the query as an argument it does not use. The wording is the same for every query; the parameter only keeps the long text out of proofs that do not need it.
- Json.Truthy: JavaScript's `NaN` is not a value here, because `JSON.parse` never produces it. `undefined` is the `None` of a missing member, and `DefinedTruthy` treats it as falsy.
- Detail values: a detail value is shown as the JSON value it is. React's rendering of non-string values (numbers, arrays, nested objects) is not modelled. In particular, a value that is the number 0 makes `details[key] && (...)` evaluate to 0, and React renders a stray "0" in the panel. The model shows no row for it and nothing else.
- ChatPage.NarrativeOfProfile: requires an answer with no asterisks whose first two lines begin "Type:" and "Mineral Composition:". A live reply that uses other markup is covered only by the general `NarrativeShown`.
