# MindSoothe Journal: the journal API, its schema and its two pages

This project models the core of MindSoothe Journal, a small Next.js journaling
app, and proves properties of the model in Dafny.

- `POST /api/journal` checks the submitted text. It asks a moderation service
  whether the text is flagged. Self-harm content is answered with a crisis
  notice and saved as an urgent record. Other flagged content gets a gentle
  notice and is not saved. Otherwise a chat model writes a mood, a reflection
  and suggestions; unusable output is replaced by a canned reply. The result is
  saved through the `Journal` schema and echoed back.
- `GET /api/journal` lists the ten most recent records, newest first.
- The journal page submits the draft and shows an alert or the reflection.
- The history page scores each mood, cuts the date out of each timestamp, and
  shows the records as a chart and as a list.

Modules:

- `Maybe` holds `Option` and `Result`.
- `Text` is JavaScript's `String.prototype.trim` over the ECMAScript white-space
  set, and `length` in UTF-16 code units.
- `Js` holds the decoded JSON values the handler reads, with JavaScript
  truthiness and optional property reads.
- `JournalSchema` models `models/Journal.js`: how mongoose casts each path, the
  `severity` enum and its default, the 500-unit `maxlength`, and the
  `createdAt` stamp.
- `JournalPipeline` holds the `POST` handler as pure functions. The moderation
  service, the completion service, `JSON.parse`, the API key, the store's
  availability and the clock are all parameters (`Services`).
- `PipelineProperties` holds the end-to-end lemmas about `HandlePost`.
- `JournalApi` is the store as a class: `Store.Post` is proved against
  `HandlePost`, and `Store.Get` returns the newest ten records.
- `JournalPage` is the journal form as a class. `handleSubmit` is split into
  `Begin` and `Complete`: `Begin` clears the alert and response and starts
  loading, and `Complete` is proved against `Outcome`.
- `HistoryPage` holds the mood score and colour lookups, date extraction,
  enrichment and the reversed chart and list, plus the `HistoryView` class.

The system prompt (app/api/journal/route.js:120-126) asks the chat model for
exactly three suggestions and severity `"none"`. The code does not enforce
either, and the model follows the code:

- The model's reply may carry any number of suggestions. The structural check
  (app/api/journal/route.js:195) only asks for an array, and the schema
  accepts any length.
- A model reply with severity `"urgent"` is stored as urgent, because the saved
  severity is the reply's when truthy (app/api/journal/route.js:220). Urgent
  records therefore do not come only from the crisis path
  (`UrgentFromModelReply`).

A request body that is JSON `null` cannot be destructured. The outer `catch`
answers it with 500, not 400.

Lengths are counted as JavaScript's `length` counts them, in UTF-16 code
units (`Text.Utf16Length`): a character outside the Basic Multilingual Plane,
such as an emoji, counts twice. This applies to the handler's 500 and 10
limits and to the schema's `maxlength`.

## Model

| member | source | states |
|---|---|---|
| Text.TrimStart | app/api/journal/route.js:53 | the start trim keeps a suffix that does not start with white space, and removes only white space |
| Text.TrimEnd | app/api/journal/route.js:53 | the end trim keeps a prefix that does not end with white space, and removes only white space |
| Text.TrimIsCore | app/api/journal/route.js:53 | `trim()` returns a contiguous piece of the text with no white space at either end, and removes only white space around it |
| Text.TrimEmptyIffBlank | app/journal/page.js:14 | a draft trims to the empty string exactly when every character is white space |
| Text.TrimPadded | app/api/journal/route.js:53 | white space around a core that neither starts nor ends with white space is removed, and only it |
| Text.TrimStartPadded | app/api/journal/route.js:53 | leading white space before a core is exactly what the start trim removes |
| Text.TrimEndPadded | app/api/journal/route.js:53 | trailing white space after a core is exactly what the end trim removes |
| Text.Trim | app/api/journal/route.js:53 | JavaScript's `trim()`, the start trim followed by the end trim; its properties are stated by `TrimIsCore`, `TrimPadded`, `TrimOfSolid` and `TrimEmptyIffBlank` |
| Text.TrimOfSolid | app/api/journal/route.js:53 | a text with no white space at either end trims to itself |
| Text.Utf16Length | app/api/journal/route.js:46 | a text's `length` lies between its number of characters and twice that, and is 0 exactly for the empty text |
| Text.Utf16LengthOfBmp | app/api/journal/route.js:46 | a text whose characters all lie in the Basic Multilingual Plane has as many code units as characters |
| Text.Utf16LengthOfAstral | app/api/journal/route.js:46 | a text of characters outside the Basic Multilingual Plane has twice as many code units as characters |
| Js.Truthy | app/api/journal/route.js:195 | JavaScript truthiness as the handler's `!text`, `!parsedResponse.mood` and `severity`-or-`"none"` tests use it; `null`, `false`, `0` and `""` are falsy. Used by `Validate`, `WellShaped` and `NormalDraft` |
| Js.Get | app/api/journal/route.js:195 | for the keys the handler reads (`text`, `mood`, `reflection`, `suggestions`, `severity`, none of them an inherited member), a property read gives the value exactly when the object has that key, and `undefined` otherwise |
| JournalSchema.Digits | models/Journal.js:9-17 | a number cast to a string is a non-empty run of decimal digits that denotes the number, with a leading zero only for zero |
| JournalSchema.DecimalText | models/Journal.js:9-17 | a number's text starts with `-` exactly for negative numbers, and the digits after the sign denote the number's magnitude |
| JournalSchema.CastString | models/Journal.js:9-17 | a `String` path keeps a string and leaves `null` unset; it rejects exactly arrays and objects; a truthy value gives non-empty text |
| JournalSchema.CastList | models/Journal.js:15-17 | a `[String]` path casts exactly when every element casts, element by element and in order |
| JournalSchema.Create | models/Journal.js:3-27 | a document is stored exactly when it conforms. The stored record keeps the text, holds the cast fields, defaults `severity` to `"none"` and `createdAt` to now, and satisfies `ValidEntry` |
| JournalSchema.TruthySeverityOutsideEnum | models/Journal.js:18-22 | a truthy severity other than the strings `"none"` and `"urgent"` never passes: numbers and `true` cast to text outside the enum, arrays and objects do not cast |
| JournalSchema.OutOfEnumSeverityRejected | models/Journal.js:18-22 | a severity outside `["none", "urgent"]` fails validation |
| JournalSchema.DefaultsApplied | models/Journal.js:18-26 | a document without severity or timestamp is stored with `"none"` and the current time |
| JournalPipeline.Echo | app/api/journal/route.js:226-233 | the reply echoes every field of the saved record except its text: id, mood, reflection, suggestions, severity and timestamp |
| JournalPipeline.Validate | app/api/journal/route.js:35-58 | the text passes exactly when it is a string of at most 500 UTF-16 units whose trim is at least 10 units long. Every rejection is a 400 with a message, except an unreadable or `null` body, which gets the generic 500 |
| JournalPipeline.Classify | app/api/journal/route.js:68-115 | a thrown moderation call is the only error. The text is self-harm exactly when it is flagged with one of the three self-harm categories, and flagged-other exactly when it is flagged without them. Missing results read as not flagged |
| JournalPipeline.CrisisDraft | app/api/journal/route.js:91-97 | the crisis document carries the original text and severity `"urgent"` |
| JournalPipeline.ContentOf | app/api/journal/route.js:164-172 | there is content exactly when the first choice has a message whose content is present and non-empty, and it is that content |
| JournalPipeline.Checked | app/api/journal/route.js:194-209 | `null` fails by throwing; a well-shaped reply is kept; any other reply is replaced by the canned one |
| JournalPipeline.NormalDraft | app/api/journal/route.js:215-221 | the saved document holds the untrimmed text and the reply's fields. Its severity is the reply's when truthy, else `"none"` |
| JournalPipeline.PlanPost | app/api/journal/route.js:32-209 | a request that ends before the save gets the moderate notice or a 400, 500 or 503 with a message. A request that reaches the save carries the validated text |
| JournalPipeline.AfterValidation | app/api/journal/route.js:60-115 | after validation: a missing key gives 500 with its message, and a thrown moderation call 503; with the key set, the crisis document is saved exactly for self-harm, other flagged content gets the moderate notice, and unflagged content goes on to the completion |
| JournalPipeline.AfterModeration | app/api/journal/route.js:138-209 | after moderation: a thrown completion call and missing content each give 503 with its own message; content that decodes to `null` gives 500; any other decoded reply is saved as `NormalDraft` of itself when well shaped, of the canned reply otherwise |
| JournalPipeline.Decoded | app/api/journal/route.js:174-192 | `JSON.parse` of the content, or the canned reply when it throws; used by `AfterModeration`, `FallbackPath` and `NullContent` |
| JournalPipeline.WellShaped | app/api/journal/route.js:195 | the structural check: truthy `mood` and `reflection` and an array `suggestions`; used by `Checked`, `NormalDraft` and `FallbackPath` |
| JournalPipeline.Finish | app/api/journal/route.js:87-241 | carrying out the plan against the store; `FinishAppendsAtMostOne` and `FinishRecord` state what it appends and answers |
| JournalPipeline.HandlePost | app/api/journal/route.js:32-250 | the whole `POST` handler; `AppendOnly`, `ResponseMatchesStore` and `HandlerErrorsNamed` state its properties, and `Store.Post` is proved to do what it says |
| JournalPipeline.Attempt | app/api/journal/route.js:211-223 | the save succeeds exactly when the store is up and the document conforms. The record gets the next id and the current time |
| PipelineProperties.ValidationOrder | app/api/journal/route.js:39-58 | in any object body whose `text` is a string, presence, raw length and trimmed length are checked in this order, each with its own 400 message |
| PipelineProperties.TextBodyText | app/api/journal/route.js:36 | the body `{ "text": s }` is a non-null object whose `text` is `s` |
| PipelineProperties.NonStringTextRejected | app/api/journal/route.js:35-44 | a missing or non-string `text` gets the 400; an unreadable or `null` body gets the 500 |
| PipelineProperties.SolidTextBounds | app/api/journal/route.js:46-58 | a text that neither starts nor ends with white space passes exactly when its length is between 10 and 500 UTF-16 units |
| PipelineProperties.TrimmedTextBounds | app/api/journal/route.js:46-58 | a text that trimming leaves as it is passes exactly when its length is between 10 and 500 UTF-16 units |
| PipelineProperties.AstralTextBounds | app/api/journal/route.js:46-58 | a text of emoji passes exactly with 5 to 250 of them; more than 250 are too long |
| PipelineProperties.PaddedTextBounds | app/api/journal/route.js:46-58 | a padded text passes exactly when its core is at least 10 UTF-16 units long and the whole at most 500 |
| PipelineProperties.RejectedBeforeAnyCall | app/api/journal/route.js:32-58 | a request that fails validation gets the validation reply whatever the key and the services do, and nothing is stored |
| PipelineProperties.MissingKey | app/api/journal/route.js:61-66 | a missing API key gives 500 before any service call, and nothing is stored |
| PipelineProperties.ModerationThrows | app/api/journal/route.js:70-80 | a moderation call that throws gives 503, and nothing is stored |
| PipelineProperties.MissingModerationFields | app/api/journal/route.js:82-84 | missing results, `flagged` or `categories` are read as unset, never as an error |
| PipelineProperties.CrisisRecord | app/api/journal/route.js:91-97 | the crisis document conforms and is stored with the fixed mood, reflection, suggestions and severity `"urgent"` |
| PipelineProperties.CrisisPath | app/api/journal/route.js:87-107 | self-harm content is answered with the crisis notice. The crisis record is appended when the store is up |
| PipelineProperties.CrisisReplyIgnoresStore | app/api/journal/route.js:99-106 | the crisis reply is the same whether or not the save succeeds |
| PipelineProperties.ModeratePath | app/api/journal/route.js:110-115 | other flagged content gets the moderate notice, and nothing is stored |
| PipelineProperties.CompletionUnusable | app/api/journal/route.js:138-172 | a failed completion call, or missing or empty content, gives 503 with its own message, and nothing is stored |
| PipelineProperties.NullContent | app/api/journal/route.js:194-209 | content that decodes to `null` ends in the generic 500, and nothing is stored |
| PipelineProperties.FallbackDraft | app/api/journal/route.js:182-191 | the document built from the canned reply holds its fixed mood, reflection and suggestions with severity `"none"`, and conforms |
| PipelineProperties.FallbackRecord | app/api/journal/route.js:182-191 | the canned reply conforms and is stored as the fixed record with severity `"none"` |
| PipelineProperties.FallbackPath | app/api/journal/route.js:174-209 | content that does not parse, or that lacks a truthy mood or reflection or an array of suggestions, is saved and echoed as the canned record |
| PipelineProperties.ReplyPlan | app/api/journal/route.js:110-138 | once moderation passes, the plan depends only on the text, the completion and the decoder |
| PipelineProperties.FinishRecord | app/api/journal/route.js:211-241 | a conforming document is appended and echoed when the store is up. Otherwise the reply is 500 and nothing is stored |
| PipelineProperties.NormalPath | app/api/journal/route.js:174-241 | a well-shaped reply is saved with its fields and the untrimmed text and echoed. A failed save gives 500 and stores nothing |
| PipelineProperties.OutOfEnumSeverity | app/api/journal/route.js:215-241 | a truthy model severity other than `"none"` and `"urgent"` (another string, a number, `true`, an array or an object) makes the save fail with 500 |
| PipelineProperties.FinishAppendsAtMostOne | app/api/journal/route.js:87-241 | at most one record is appended, and it is the conforming document. An echoed record is exactly the one appended |
| PipelineProperties.AppendOnly | app/api/journal/route.js:32-250 | earlier records never change. An appended record has the next id, is stamped now, satisfies the schema, and holds a text that passed validation (at most 500 UTF-16 units, at least 10 once trimmed) |
| PipelineProperties.ResponseMatchesStore | app/api/journal/route.js:32-250 | failures are 400, 500 or 503, and neither they nor the moderate notice store anything. An echoed reflection is the record appended. The only notices are the two fixed ones |
| PipelineProperties.HandlerErrorsNamed | app/api/journal/route.js:32-250 | every error reply carries a non-empty message and a 400, 500 or 503 status |
| PipelineProperties.HappyRecord | app/api/journal/route.js:215-221 | a reply with mood `"Happy"`, three suggestions and severity `"none"` is stored with exactly those fields |
| PipelineProperties.HappyReply | app/api/journal/route.js:174-233 | that reply is saved and echoed end to end |
| PipelineProperties.UrgentRecord | app/api/journal/route.js:215-221 | a reply that says `"urgent"` is stored with that severity and the model's mood |
| PipelineProperties.UrgentFromModelReply | app/api/journal/route.js:174-233 | urgent records can come from the normal path |
| JournalApi.Store.constructor | models/Journal.js:30 | the collection starts empty and well formed |
| JournalApi.Store.Append | app/api/journal/route.js:223 | a record is appended under the next id; ids stay positions and timestamps stay ordered |
| JournalApi.Store.Save | app/api/journal/route.js:211-223 | the save does what `Attempt` describes, and the store keeps its invariant |
| JournalApi.Store.Post | app/api/journal/route.js:32-250 | the handler's reply and the new records are exactly those `HandlePost` gives |
| JournalApi.Store.Recent | app/api/journal/route.js:17-20 | the newest ten records or fewer, newest first, with descending timestamps; no record left out is newer than one listed |
| JournalApi.Store.Get | app/api/journal/route.js:13-30 | the store being down gives 500. Otherwise the newest ten records or all when fewer, the `i`-th being the `i`-th newest, with descending timestamps; no record left out is newer than one listed |
| JournalPage.ServerError | app/journal/page.js:31-33 | the thrown message is the server's error, or a generic text when it is empty |
| JournalPage.FailureAlert | app/journal/page.js:49-54 | a thrown error raises an error alert with its message, or a generic text when that is empty |
| JournalPage.Outcome | app/journal/page.js:29-54 | a non-ok reply or a failed request raises an error alert. An ok reply raises the urgent or moderate alert by severity, and is shown as the reflection otherwise. Exactly one of alert and reflection is set |
| JournalPage.SubmitEnabled | app/journal/page.js:96 | the button's enabled state, the trimmed draft non-empty and nothing loading; `SubmitEnabledIff` characterises it |
| JournalPage.SubmitEnabledIff | app/journal/page.js:96 | the button is enabled exactly when the draft has a non-white-space character and nothing is loading |
| JournalPage.ShowsResponse | app/journal/page.js:31-48 | the crisis and moderate notices become their alerts and a failure an error alert with its message. A saved reflection is shown, or raises the urgent alert when marked urgent |
| JournalPage.ShowsHandlerResponse | app/journal/page.js:29-54 | every reply the handler can give is shown as `ShowsResponse` says |
| JournalPage.JournalForm.constructor | app/journal/page.js:7-10 | the form starts empty, not loading, with no alert and no response |
| JournalPage.JournalForm.Edit | app/journal/page.js:86 | editing replaces the draft |
| JournalPage.JournalForm.Begin | app/journal/page.js:13-18 | a blank draft changes nothing. Otherwise loading starts and the alert and response are cleared |
| JournalPage.JournalForm.Complete | app/journal/page.js:20-57 | once the reply is in, loading ends and the page shows what `Outcome` says |
| JournalPage.JournalForm.HandleSubmit | app/journal/page.js:12-58 | a submission sends exactly when the draft is not blank, and then ends showing exactly one of an alert and a reflection |
| HistoryPage.MoodScoreAsWritten | app/history/page.js:39-52 | as written, a mood naming an inherited object member yields that member, not a number |
| HistoryPage.MoodScore | app/history/page.js:39-52 | the nine known moods get their listed scores and any other mood 5. Every score lies in [2, 9], inside the chart's [1, 10] axis |
| HistoryPage.InheritedMoodScore | app/history/page.js:40-51 | the moods `"constructor"` and `"toString"` score as inherited members |
| HistoryPage.MoodScoreAgrees | app/history/page.js:39-52 | for every other mood, the lookup as written gives the score |
| HistoryPage.MoodColorAsWritten | app/history/page.js:61-70 | as written, a mood naming an inherited object member yields that member, not a class list |
| HistoryPage.MoodColor | app/history/page.js:61-70 | the five listed moods get their own classes, and every other mood the gray default |
| HistoryPage.InheritedMoodColor | app/history/page.js:62-69 | the mood `"constructor"` gets an inherited member as its classes |
| HistoryPage.MoodColorAgrees | app/history/page.js:61-70 | for every other mood, the colour lookup as written gives the classes |
| HistoryPage.DatePart | app/history/page.js:24 | the date is the prefix of the timestamp before its first `T`, or all of it |
| HistoryPage.DateOfIsoTimestamp | app/history/page.js:24 | an ISO timestamp's date is its day part |
| HistoryPage.Enrich | app/history/page.js:21-25 | enrichment keeps every record and its order, and adds its mood score and date |
| HistoryPage.Reverse | app/history/page.js:178 | the reversed copy has the same length, with the elements in reverse order |
| HistoryPage.ChartData | app/history/page.js:55-59 | the chart has one point per record, in reverse order, holding its score and date |
| HistoryPage.ChartRunsOldestToNewest | app/history/page.js:55-59 | given the newest-first listing, the chart and the list run oldest to newest, and every chart point lies inside the axis |
| HistoryPage.HistoryView.constructor | app/history/page.js:7-9 | the page starts loading, with no records and no error |
| HistoryPage.HistoryView.Load | app/history/page.js:12-34 | a listed reply replaces the records with their enrichment. A non-ok reply or a failed request sets the error and keeps the records. Loading ends either way |
| HistoryPage.HistoryView.Shown | app/history/page.js:178 | the list shows the records in reverse order |
| HistoryPage.HistoryView.Chart | app/history/page.js:55-59 | the chart's points are the scores and dates of the records in list order |

## Left out

- Network, database and service I/O. The moderation reply, the completion reply, `JSON.parse`, the API key's presence, the store's availability and the clock are inputs to the model.
- The system prompt, model name, temperature and token limit: they shape only what the completion returns.
- Logging (`console.error`).
- The OpenAI client built at module load from the `OPENAI_API_KEY` variable (app/api/journal/route.js:8-11): `apiKey == false` stands for an empty key, which the check at app/api/journal/route.js:61-66 rejects. What the client library does with an unset variable at load time is outside this model.
- The JSX markup, loading spinners, icons, and the locale-formatted dates (`toLocaleDateString`).
- `Date` serialisation: the text a timestamp is sent as is a parameter (`iso`).
- Numbers are integers: decoded JSON numbers are modelled as `int`, so fractional values are not modelled.
- Concurrency: each request runs alone against the store.
- JournalApi.Store.Post: requires that the clock does not run backwards between requests (`NotBefore`). Without it, "newest first" by `createdAt` and insertion order could differ.
- JournalSchema.DecimalText: integers are always written as plain digits; JavaScript writes numbers of magnitude 10^21 and above in exponent form (`1e+21`), which is not modelled.
- HistoryPage.Enrich: scores each record with the corrected `MoodScore`, not with the lookup as written (`MoodScoreAsWritten`), so it does not carry the inherited-member results listed under "## Findings".
- JournalSchema.CastList: a `null` element in `suggestions` is treated as uncastable, while mongoose may keep it as `null`.
- Mongoose internals beyond casting, `required`, `maxlength`, `enum` and defaults: `_id` is an ObjectId in the source and the store's position here; no `__v`, hooks or indexes.
- The `await connectDB()` connection caching, the health route, the landing page, the footer, `ResponseCard` and `next.config.js`: none of them is part of this model.

## Findings

| source | as written | input that shows it | evidently intended | confidence | as-written member | corrected member |
|---|---|---|---|---|---|---|
| app/history/page.js:40-51 | the lookup `moodScores[mood]`, with 5 as its fallback, reads inherited `Object.prototype` members: a mood such as `"constructor"` yields a function, which is truthy, so the chart gets a function instead of a score | mood `"constructor"` (the mood is free text written by the chat model) | only the nine listed moods have their own score; every other mood scores 5 | not executed; medium | HistoryPage.MoodScoreAsWritten, HistoryPage.InheritedMoodScore | HistoryPage.MoodScore |
| app/history/page.js:62-69 | the lookup `colors[mood]`, with gray as its fallback, reads inherited members the same way, so the badge's class list becomes a function's text | mood `"constructor"` | only the five listed moods have their own classes; every other mood gets the gray default | not executed; medium | HistoryPage.MoodColorAsWritten, HistoryPage.InheritedMoodColor | HistoryPage.MoodColor |
