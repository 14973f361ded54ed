# isuanming fortune app: a Dafny model

This project models the core of the isuanming web app, a "Year of the Fire
Horse 2026" fortune teller, and proves properties of the model. The model
covers these parts:

- **The API route** (`src/app/api/generate-fortune/route.ts`).
  - `logUserToCSV` appends one quoted row per request to `users.csv`. It first
    writes a header row when the file does not exist yet.
  - `POST` reads the request, logs it and checks that an API key is
    configured. It then fills the prompt template, asks the generative model,
    and passes the parsed reply back.
- **The wizard page** (`src/app/page.tsx`): a state machine over five steps
  (language → gender → details → loading → report), with back and reset.
- **The cards**:
  - the details form's submit guard;
  - the loading card's rotating message index;
  - the report card's section cursor, language toggle and lucky-list fallback.
- **The report types** (`src/types/fortune.ts`).

There is one module per Dafny file. The API route is split into three of them
(`CsvLog`, `Prompt` and `FortuneRoute`):

| Module | File |
|---|---|
| `FortuneTypes` | `fortune_types.dfy` |
| `CsvLog` | `csv_log.dfy` (row format and log file) |
| `Prompt` | `prompt.dfy` |
| `FortuneRoute` | `route.dfy` |
| `Wizard` | `wizard.dfy` |
| `DetailsCard` | `details_card.dfy` |
| `LoadingCard` | `loading_card.dfy` |
| `ReportCard` | `report_card.dfy` |

Components whose fields change are classes with `modifies` clauses:

- `CsvFile` is the log file.
- `GenerativeModel` is the model client. It records every prompt and returns a scripted reply.
- `Home` is the page.
- `DetailsForm`, `LoadingMessages` and `ReportView` are the cards.

How each method's new state is stated:

- `CsvFile.WriteFile` and `CsvFile.AppendFile` take the file system's verdict
  as a parameter. Their contracts give the new contents for a success, and say
  a failure changes nothing.
- `FortuneRoute.LogUserToCsv` and `FortuneRoute.Post` state the new file as
  `CsvLog.LogStep` of the old one. The lemmas about series of logging calls
  are proved over `LogStep`.
- Most of `Home`'s handlers state the new state as a field-by-field update of
  the old one. `FinishDetailsSubmit` also uses `Wizard.FailureMessage` for
  the error it leaves.
- `LoadingMessages.Tick` is tied to `LoadingCard.TickIndex`.
- `ReportView`'s methods are tied to `ReportCard.NextIndex`,
  `ReportCard.PrevIndex` and `ReportCard.Toggle`.

What stays outside the model is passed in as parameters:

- the file system's verdict on each write;
- the timestamp;
- the API key;
- the model's reply;
- `JSON.parse`, as a function that returns `None` exactly where it would
  throw;
- how the browser's `fetch` ended.

The row reader `CsvLog.ParseRecord` is the reference reader for the logged
rows. It reads fields enclosed in double quotes, with an inner quote written
as two, as described in section 2 of RFC 4180 (rules 5 to 7). It reads only
that quoted form, so it does not accept the log's unquoted header row.

One behaviour of the page worth knowing: a 200 response whose body is JSON
`null` stores no report but still moves to the report step. That step then
renders nothing, shows no back button and offers no way to start over
(`Wizard.RunWizard`, `Wizard.Home.View`).

## Model

| member | source | states |
|---|---|---|
| CsvLog.Escape | src/app/api/generate-fortune/route.ts:11 | `name.replace(/"/g, '""')` at most doubles the length, never shortens the name, and gives the empty string only for the empty name. |
| CsvLog.CsvLine | src/app/api/generate-fortune/route.ts:11 | The row is the four values, with the name escaped, plus exactly twelve fixed characters (eight quotes, three commas, a line feed). It starts with a quote and ends with a quote and a line feed. |
| CsvLog.UnescapeEscape | src/app/api/generate-fortune/route.ts:11 | Doubling every quote in the name (`replace(/"/g, '""')`) loses nothing: collapsing the doubled quotes gives the name back. |
| CsvLog.EscapeQuoteFree | src/app/api/generate-fortune/route.ts:11 | A name without quotes is written unchanged. |
| CsvLog.ParseEscaped | src/app/api/generate-fortune/route.ts:11 | An escaped field followed by its closing quote reads back as the original text. This holds for any name, including one full of quotes. |
| CsvLog.RecordRoundTrip | src/app/api/generate-fortune/route.ts:11 | Every non-empty list of fields, written as one quoted record, reads back as exactly that list. |
| CsvLog.CsvLineIsRecord | src/app/api/generate-fortune/route.ts:11 | The logged row is the record of the four fields (timestamp, name, gender, date of birth) whenever the three unescaped fields contain no quote. |
| CsvLog.CsvLineRoundTrip | src/app/api/generate-fortune/route.ts:10-11 | Under that condition the logged row reads back as exactly those four fields. |
| CsvLog.UnescapedDobBreaksRow | src/app/api/generate-fortune/route.ts:11 | The date of birth is not escaped, so a date of birth of one quote makes the row unreadable as a record. |
| CsvLog.LogStep | src/app/api/generate-fortune/route.ts:13-20 | One logging call keeps the file's old contents as a prefix. An existing file stays and gains the row or nothing. A missing file stays missing, or is created holding the header, or the header and the row. |
| CsvLog.LogAllOnPresentFile | src/app/api/generate-fortune/route.ts:14-17 | On an existing file, any series of logging calls only appends. What it adds is some of the attempted rows, in the order of the calls. |
| CsvLog.LogAllFromAbsentFile | src/app/api/generate-fortune/route.ts:14-17 | Starting from no file, any series of calls leaves either no file, or one header followed only by attempted rows in order. The header is never written twice. |
| CsvLog.CsvFile.WriteFile | src/app/api/generate-fortune/route.ts:15 | A successful write replaces the contents; a failed one changes nothing. |
| CsvLog.CsvFile.AppendFile | src/app/api/generate-fortune/route.ts:17 | A successful append adds the data at the end, creating the file if needed; a failed one changes nothing. |
| Prompt.FillLayout | src/app/api/generate-fortune/route.ts:36-90 | The filled prompt is the template's fixed text with the name, gender and date of birth each verbatim in its own place. The route's prompt is `Fill(SystemTemplate, ...)`. `SystemTemplate` holds the constants `Opening`, `GenderLabel`, `DobLabel` and `Schema`, which reproduce the template literal's fixed text. |
| Prompt.SystemPromptDeterminesName | src/app/api/generate-fortune/route.ts:36-40 | In the route's own prompt, with the gender and date of birth fixed, different names give different prompts: the name reaches the model unaltered. |
| Prompt.FillDeterminesName | src/app/api/generate-fortune/route.ts:40 | With the gender and date of birth fixed, different names give different prompts: the name reaches the model unaltered. |
| FortuneRoute.Interpolate | src/app/api/generate-fortune/route.ts:11 | A string value is inserted into a template literal as itself. |
| FortuneRoute.RowThrows | src/app/api/generate-fortune/route.ts:11 | Building the row throws unless the name is a string and the gender and date of birth convert to strings. Three strings never throw. |
| FortuneRoute.KeyConfigured | src/app/api/generate-fortune/route.ts:30 | `!process.env.GEMINI_API_KEY` passes exactly for a key that is set and non-empty. A missing key or an empty one is refused. |
| FortuneRoute.ReplyResponse | src/app/api/generate-fortune/route.ts:92-105 | Status 200 with the parsed JSON exactly when the model answered and its text parses. Otherwise the answer is 500 with "Failed to generate fortune". |
| FortuneRoute.GenerativeModel.GenerateContent | src/app/api/generate-fortune/route.ts:92-98 | Each call records its prompt and returns the model's reply. |
| FortuneRoute.LogUserToCsv | src/app/api/generate-fortune/route.ts:9-21 | The call throws exactly when building the row throws (`RowThrows`), and then the file is untouched. Otherwise the file is changed as LogStep says for the row built from the inputs, and file system failures are swallowed. |
| FortuneRoute.Post | src/app/api/generate-fortune/route.ts:23-106 | An unreadable body, or a body whose row cannot be built (a non-string name, or a gender or date of birth that does not convert to a string), gives 500 "Failed to generate fortune" with nothing logged and no model call. Otherwise the row is logged exactly once. A missing or empty key then gives 500 "GEMINI_API_KEY is not configured" with no model call. With a key, exactly one prompt (the filled template) is sent and the answer is ReplyResponse of the reply. The status is always 200 or 500. |
| FortuneTypes.GenderName | src/app/page.tsx:35-36 | The gender choice becomes 'male' or 'female', one to one. |
| FortuneTypes.LanguageCode | src/app/page.tsx:55 | The language sent in the request is 'en' for English and 'zh' for Chinese. |
| Wizard.FallbackMessage | src/app/page.tsx:69 | The fallback shown for an error without a message is never empty, in both languages, so the banner always shows. |
| Wizard.FailureMessage | src/app/page.tsx:59-71 | The message a failed submission shows is never empty. For an error response it is the server's non-empty `error` field, else "Failed to fetch fortune". For a thrown error it is the error's message, else the language's fallback. |
| Wizard.Home.constructor | src/app/page.tsx:19-28 | The page starts on the language step: English, no gender, empty details, no report, no error. |
| Wizard.Home.View | src/app/page.tsx:89-130 | The back button shows exactly on the gender and details steps. The banner shows exactly on the details step with a non-empty error. The report card shows exactly on the report step with a report. Otherwise the report step renders nothing. |
| Wizard.Home.HandleLanguageSelect | src/app/page.tsx:30-33 | Stores the language and moves to the gender step; nothing else changes. |
| Wizard.Home.HandleGenderSelect | src/app/page.tsx:35-38 | Stores 'male' or 'female' and moves to the details step; nothing else changes. |
| Wizard.Home.HandleDetailsSubmit | src/app/page.tsx:40-57 | Stores the details, moves to loading and clears the error and the report. The posted request takes its gender and its language code from the user data of before the call. |
| Wizard.Home.FinishDetailsSubmit | src/app/page.tsx:59-72 | A delivered reply becomes the report, and the page moves to the report step. A failure goes back to the details step with FailureMessage in the user data's language. The user data is kept. |
| Wizard.Home.HandleReset | src/app/page.tsx:75-79 | Back to the language step with English, gender 'male', empty details and no report. The error is left as it was. |
| Wizard.Home.HandleBack | src/app/page.tsx:81-87 | Goes gender → language and details → gender; on any other step nothing changes. |
| Wizard.RunWizard | src/app/page.tsx:30-72 | One pass from a fresh page posts the chosen language and gender with the details. A delivered report is shown; JSON `null` shows nothing. A failure returns to the details screen with its message as the banner. |
| DetailsCard.DisabledIffNotAllowed | src/components/cards/DetailsCard.tsx:21-87 | The submit button is disabled exactly when a submission would be ignored. |
| DetailsCard.DetailsForm.constructor | src/components/cards/DetailsCard.tsx:14-16 | All three fields start empty. |
| DetailsCard.DetailsForm.SetName | src/components/cards/DetailsCard.tsx:49 | Sets the name and keeps the other fields. |
| DetailsCard.DetailsForm.SetDob | src/components/cards/DetailsCard.tsx:64 | Sets the date of birth and keeps the other fields. |
| DetailsCard.DetailsForm.SetBirthTime | src/components/cards/DetailsCard.tsx:76 | Sets the birth time and keeps the other fields. |
| DetailsCard.DetailsForm.HandleSubmit | src/components/cards/DetailsCard.tsx:19-24 | `onSubmit` is called exactly when name and date of birth are both non-empty, with the current three fields. The birth time is optional. |
| DetailsCard.DetailsForm.SubmitDisabled | src/components/cards/DetailsCard.tsx:87 | Disabled exactly when the name or the date of birth is empty. |
| LoadingCard.Messages | src/components/cards/LoadingCard.tsx:15-25 | Each language has four messages. |
| LoadingCard.TickIndex | src/components/cards/LoadingCard.tsx:29 | The next index stays in range: one further, or back to 0 after the last message. |
| LoadingCard.TicksAdvance | src/components/cards/LoadingCard.tsx:27-32 | After k firings of the timer the index has moved k places round the list (modulo its length). |
| LoadingCard.FullCycle | src/components/cards/LoadingCard.tsx:27-32 | After four firings the same message is shown again. |
| LoadingCard.LoadingMessages.constructor | src/components/cards/LoadingCard.tsx:13-25 | The card starts on the first message of its language. |
| LoadingCard.LoadingMessages.Tick | src/components/cards/LoadingCard.tsx:29 | One firing moves the index as TickIndex says and keeps it in range. |
| LoadingCard.LoadingMessages.Current | src/components/cards/LoadingCard.tsx:13-69 | The indexed message always exists and is one of the language's messages. |
| ReportCard.NextIndex | src/components/cards/ReportCard.tsx:82-86 | Next moves one section forward, except on the last section, where it stays. |
| ReportCard.PrevIndex | src/components/cards/ReportCard.tsx:88-92 | Back moves one section backward, except on the first section, where it stays. |
| ReportCard.PrevNextInverse | src/components/cards/ReportCard.tsx:82-92 | Back undoes a move forward, and forward undoes a move back. |
| ReportCard.NextTimesSaturates | src/components/cards/ReportCard.tsx:82-86 | k presses of next from section i land on section min(i + k, last). |
| ReportCard.Toggle | src/components/cards/ReportCard.tsx:94-96 | The toggle always changes the display language. |
| ReportCard.ToggleInvolution | src/components/cards/ReportCard.tsx:94-96 | Toggling twice restores the language. |
| ReportCard.Localized | src/components/cards/ReportCard.tsx:80-157 | `isEn ? en : zh`: the English text in English, the Chinese text in Chinese. |
| ReportCard.LuckyList | src/components/cards/ReportCard.tsx:163-167 | English shows the English list. Chinese shows the Chinese list when it is present, else the English list. |
| ReportCard.PillarOf | src/components/cards/ReportCard.tsx:137 | Each pillar section reads its own pillar of the report. |
| ReportCard.RenderContent | src/components/cards/ReportCard.tsx:98-220 | The overview section shows the zodiac, element, kua and overview. Each pillar section shows its score and its text. The lucky section shows the three lucky lists. Every text is in the display language. |
| ReportCard.LanguageKeepsNumbers | src/components/cards/ReportCard.tsx:98-163 | Switching the language changes only words: the same kind of content, with the same kua and scores. |
| ReportCard.NavBarAt | src/components/cards/ReportCard.tsx:262-268 | The navigation bar is hidden exactly on the last (lucky) section. Its back button is disabled exactly on the first section. |
| ReportCard.ReportView.CurrentContent | src/components/cards/ReportCard.tsx:249-293 | The card shows the overview exactly at the first section. It shows the lucky section (with the start-over button) exactly where the navigation bar is hidden. A pillar section has the bar shown with back enabled. |
| ReportCard.ReportView.constructor | src/components/cards/ReportCard.tsx:77-79 | The card opens on the overview, in the page's language. |
| ReportCard.ReportView.HandleNext | src/components/cards/ReportCard.tsx:82-86 | The cursor moves as NextIndex says; the language is kept. |
| ReportCard.ReportView.HandlePrev | src/components/cards/ReportCard.tsx:88-92 | The cursor moves as PrevIndex says; the language is kept. |
| ReportCard.ReportView.ToggleLanguage | src/components/cards/ReportCard.tsx:94-96 | The language changes as Toggle says; the cursor is kept. |

## Left out

- **Side effects that are not simulated:**
  - Real file I/O, `path.join` and `process.cwd()`.
  - `console.error`, the clock (`new Date().toISOString()`), `process.env` and the Gemini client's configuration (model name, MIME type).
  - Each of these is a parameter or an oracle object.
- **Request body:** `JSON.parse` of the request body is folded into `Unreadable` versus a destructured body. A non-string JSON value is kept only as the text a template literal would insert, or as `JUnrenderable` when that conversion throws.
- **Concurrency:** requests that interleave on `users.csv` are not modelled. Each logging call is atomic.
- **Partial writes:** a failed `writeFileSync` or `appendFileSync` is modelled as leaving the file unchanged. The model has no partial writes.
- **`fetch`:** the browser's `fetch` and the JSON decoding of its response are the `FetchOutcome` datatype. A delivered body that is JSON but not a report (other than `null`) is not represented.
- **Presentational parts** are not modelled:
  - the language and gender cards;
  - the UI primitives;
  - `CircularScore`;
  - the progress bar;
  - animations, icons and the fixed headings.
- **The loading timer:** the loading card's `setInterval`/`clearInterval` lifecycle is not modelled; `Tick` is one firing.
  - A language switch that happens while the card is loading re-creates the timer over another message list of the same length.
- **Numbers:** JSON numbers (`kua`, `score`) are modelled as unbounded integers. Floating point is not modelled.
- **Wizard.Home handlers:** each handler except `HandleBack` requires the step on which it can run. The card handlers need the step that renders their card. `FinishDetailsSubmit` needs the loading step, where its `await` leaves the page. `HandleReset` also requires a report to be present. Calls from other steps cannot happen in the page and are not modelled.
- **Route inputs:** the route never reads `language` or `birthTime`, and the logged row has four columns (timestamp, name, gender, date of birth).
- CsvLog.LogStep: its ensures state the shape of the result. The exact outcome for each pair of verdicts is given by its definition, and the series lemmas build on it.
- Prompt.SystemPrompt: has no contract of its own. Its layout is `Prompt.FillLayout` for `SystemTemplate`, because reasoning directly over the template literal's fixed text of about 1700 characters exceeds the solver's resource limit.
