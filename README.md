# Canvify.fun core, modelled in Dafny

This project models the decision logic of four scripts from the Canvify.fun AI-canvas web app and proves properties about that logic:

- `js/proxy-server.js`: the **completion relay**. A local HTTP handler speaks the local model server's `/api/tags` and `/api/generate` dialect to the browser, forwards prompts to OpenAI's chat-completions endpoint, and keeps one piece of state, the API key.
- `js/scheduler.js`: the **task scheduler**. It holds a list of task records. Its handlers create, update, delete, toggle and import tasks in place. It also has three read-only views: the deadline-sorted list, the overdue mark and the due-within-a-day reminder.
- `js/script.js`: the **canvas analyzer**. It covers:
  - the prompt written from the canvas sections;
  - the guard that refuses an all-empty canvas;
  - `formatLLMResponse`, which splits the reply at `#` headers, extracts scores with three patterns tried in order, updates the two global score maps and builds the recommendation list or the fallback;
  - the score badges;
  - the saved-canvas record and its two loaders.
- `js/chat.js`: the **chat widget**. It covers:
  - the model selector, sorted by name, with its default selection;
  - the availability check against the selected model;
  - the send guards and the in-flight flag;
  - the canvas context sent with each question;
  - the message list with the newline rewrite of `formatMessage`.

Files and modules:

| file | module | what |
|---|---|---|
| `jstext.dfy` | `JsText` | `Option`, notices, JavaScript white space, `trim`, `startsWith`, `includes`, `indexOf`, `split('\n')`, `replace(/\n/g, '<br>')`, decimal digits |
| `sorting.dfy` | `Sorting` | `Array.prototype.sort` with a comparator, as a stable insertion sort on sequences |
| `canvas.dfy` | `Canvas` | the section-name tables, `getCanvasData`, `populateCanvasFromData`, the generate-request body shared by analyzer and chat |
| `relay.dfy` | `Relay` | the relay handler: pure functions for each route, and a `Server` class holding the key |
| `scheduler.dfy` | `Scheduler` | task records, pure save/delete/toggle/view functions, and a `TaskScheduler` class whose methods change the list |
| `llmreply.dfy` | `LlmReply` | the reading of the analysis reply: splitting, header search, the score matchers, the numbered-item matcher, the overall markup |
| `analyzer.dfy` | `Analyzer` | the prompt text, the empty guard, badges, the save/load record, and a `CanvasAnalyzer` class holding the page, the score maps, the results pane and the stored canvas |
| `chat.dfy` | `Chat` | name order, replies, messages, the context text, and a `ChatWidget` class holding `MODEL`, the options, the flags, the input and the messages |

Modelling conventions:

- **Strings.** A JavaScript string is a `seq<char>` with one element per Unicode code point. JavaScript counts UTF-16 code units instead, so lengths and positions differ for characters outside the Basic Multilingual Plane (see Left out).
- **Dependencies as inputs.** Wherever the scripts depend on the outside world, that dependency becomes an input value:
  - the relay's backend call is a `BackendOutcome`, and the request the relay would send is returned in `Exchange.sent`;
  - a fetch in the browser scripts is a reply datatype (`TagsReply`, `ChatReply`, `AnalysisReply`);
  - `confirm()` answers are booleans, "now" is a millisecond integer, and the fresh task id is a parameter;
  - a parsed file or storage item is a datatype: `ImportFile`, `Parsed`, `FileChoice`.
- **Async handlers.** Each asynchronous handler is split at its `await` into a method that runs up to the request and a method that finishes with the reply:
  - `BeginAnalysis`/`FinishAnalysis` for the analyzer;
  - `BeginSend`/`FinishSend` for the chat widget.

## Model

| member | source | states |
|---|---|---|
| JsText.TrimStartFacts | js/script.js:115 | `trimStart` drops a prefix that is all white space, and what it keeps is empty or does not start with white space |
| JsText.TrimEndFacts | js/script.js:115 | `trimEnd` drops a suffix that is all white space, and what it keeps is empty or does not end with white space |
| JsText.TrimEmptyIffBlank | js/script.js:115 | `s.trim()` is empty exactly when every character of `s` is white space |
| JsText.TrimmedIffUnchanged | js/script.js:387 | trimming leaves a text unchanged exactly when neither end is white space |
| JsText.BlankSplit | js/script.js:115 | a text is all white space exactly when both parts of any split are |
| JsText.IndexOf | js/chat.js:368 | `indexOf` gives None exactly when the character is absent; otherwise it gives the first position holding it |
| JsText.Lines | js/chat.js:368 | `split('\n')` gives at least one piece and no piece holds a newline |
| JsText.JoinLines | js/chat.js:368 | joining the lines with `\n` gives the text back |
| JsText.NewlinesToBr | js/chat.js:368 | the result of `replace(/\n/g, '<br>')` contains no newline |
| JsText.NewlinesToBrNoNewline | js/chat.js:368 | text without a newline comes back unchanged |
| JsText.NewlinesToBrAppend | js/chat.js:368 | the rewrite of a concatenation is the concatenation of the rewrites |
| JsText.NewlinesToBrAt | js/chat.js:368 | the first newline becomes `<br>`, with the text before it kept and the rest rewritten |
| JsText.NewlinesToBrJoinsLines | js/chat.js:368 | the rewrite equals the text's lines joined with `<br>`: every newline is replaced and nothing else changes |
| JsText.DigitsValueOfNatToString | js/script.js:388 | `parseInt` of the decimal text of `n` is `n` |
| Sorting.Insert | js/scheduler.js:223 | inserting adds exactly the one element (multiset) |
| Sorting.InsertSorted | js/scheduler.js:223 | inserting into a sorted list under a total preorder keeps it sorted |
| Sorting.Sort | js/scheduler.js:223 | the sorted copy is a permutation of the input |
| Sorting.SortSorted | js/scheduler.js:223 | the sorted copy is in comparator order |
| Sorting.SortStable | js/scheduler.js:223 | the sort is stable: for any `p`, the elements the comparator ties with `p` come out in the order they had in the input |
| Sorting.InsertTies | js/scheduler.js:223 | inserting into a sorted sequence keeps the ties of any `p` in order, with the new element after all of its ties |
| Sorting.SortFirstIsLeast | js/chat.js:45 | the first element of the sorted copy precedes-or-ties every element; the length is kept |
| Relay.MapModel | js/proxy-server.js:104-108 | a value mentioning `gpt-4` (a string containing it, or an array holding it) is forwarded as it is; any other string or array and every falsy value become `gpt-3.5-turbo`; a truthy number, boolean or object has no `includes` and throws (None) |
| Relay.ArrayModels | js/proxy-server.js:104-108 | an array holding `"gpt-4"` is forwarded unchanged, and the empty array falls back to `gpt-3.5-turbo` |
| Relay.TruncatePrompt | js/proxy-server.js:120-123 | a prompt of at most 12000 characters is unchanged; a longer one becomes its first 12000 characters followed by the marker; the result is never longer than 12000 plus the marker |
| Relay.OutboundTemperature | js/proxy-server.js:133 | a falsy value (absent, `null`, `0`, `""`, `false`) gives 0.7; otherwise the value is read with `Number` and clamped: in range it is kept, below 0 it becomes 0, above 2 it becomes 2, and a value `Number` cannot read stays NaN (sent as `null`); a finite result always lies in [0, 2] |
| Relay.NumericTemperatures | js/proxy-server.js:133 | a number in (0, 2] is sent as given; 0 gives 0.7; a negative number gives 0; a number above 2 gives 2 |
| Relay.NumberOfNumeral | js/proxy-server.js:133 | `Number` of the decimal text of a whole number `n` is `n` |
| Relay.TemperatureFromNumeral | js/proxy-server.js:133 | a temperature sent as the decimal text of a positive whole number is that number, clamped to 2 |
| Relay.TemperatureFromText | js/proxy-server.js:133 | text that is not a number gives NaN, `true` gives 1, the empty array gives 0 and an object gives NaN |
| Relay.BuildOutbound | js/proxy-server.js:120-138 | the request goes to the completions URL with `Bearer <key>` and the model as given; its content is at most 12000 characters plus the marker, and a short prompt is sent unchanged; a finite temperature lies in [0, 2], and a falsy one becomes 0.7 |
| Relay.ReportedMessage | js/proxy-server.js:165-176 | the message taken from the backend's error body is never empty, and a JSON body with a non-empty `error.message` gives exactly that message |
| Relay.UpstreamErrorMessage | js/proxy-server.js:165-189 | fixed messages for 401, 429, 402, 400 and every status of 500 or more; otherwise the backend's `error.message`, `OpenAI API error`, or `HTTP <status>: <statusText>` for a body that is not JSON |
| Relay.FetchErrorMessage | js/proxy-server.js:215-229 | the text is one of the three network messages: the timeout text exactly for an `AbortError`, the connection text exactly for another error with code `ENOTFOUND` or `ECONNREFUSED`, the generic text otherwise |
| Relay.UpstreamResponse | js/proxy-server.js:161-229 | a non-OK status is passed through with its message; an OK body with a first message gives 200 with that message's `content` as it came (absent, `null` or not a string included); a malformed OK body gives 500 with the generic network message; an abort and ENOTFOUND/ECONNREFUSED give 500 with their own messages; a completion comes back exactly when the status is 200 |
| Relay.Generate | js/proxy-server.js:82-231 | the guards in the code's order: missing key (400), a non-string key (500, `startsWith` throws), no `sk-` prefix (400); a `null` body passes those and then throws on reading `model` (500); a truthy model without `includes` (500); a missing prompt (400). The backend is called exactly when every guard passes (`Forwardable`), and then with the truncated prompt, the mapped model (an array naming `gpt-4` included), the clamped temperature and the bearer key |
| Relay.Respond | js/proxy-server.js:12-245 | OPTIONS gives the preflight before any routing; `/api/health` reports whether the key is truthy; a non-`/api/` path gives 404 `Not Found`; `/api/tags` gives the fixed model list; an unknown `/api/` path gives 404 `Endpoint not found`; an unparseable body gives 500 `Proxy Error: …`; a `null` body on `update-key` throws on reading `apiKey` (500), and on `generate` goes through the key guards first; any other `update-key` gives success; the backend is called exactly for a forwardable `generate` |
| Relay.NextKey | js/proxy-server.js:56-64 | only a parsed `update-key` request changes the key, and it sets it to the request's `apiKey` |
| Relay.RejectionIgnoresBackend | js/proxy-server.js:87-118 | a request on which the backend is not called responds the same whatever the backend would have done |
| Relay.GenerateSeesUpdatedKey | js/proxy-server.js:56-102 | a `generate` after `update-key` with key `s` is judged against `s` (400 when empty or without `sk-`) and authorised as `Bearer s` |
| Relay.Server.constructor | js/proxy-server.js:9 | the key starts as the environment's key, `""` when unset |
| Relay.Server.Handle | js/proxy-server.js:12-245 | the response is `Respond` of the key before the request; the key afterwards is `NextKey` |
| Scheduler.FindIndex | js/scheduler.js:149 | `findIndex` gives None exactly when no task has the id; otherwise it gives the first task with it |
| Scheduler.NewTask | js/scheduler.js:136-157 | a new task carries the fresh id, the form's title, description and assignee trimmed, its deadline, priority and status as given, and created and updated times `now` |
| Scheduler.Merged | js/scheduler.js:143-150 | the spread keeps the id and `createdAt`, overwrites every form field (title, description and assignee trimmed; deadline, priority and status as given) and stamps `updatedAt` with `now` |
| Scheduler.SaveTask | js/scheduler.js:117-165 | title check (trimmed) first, then deadline; an editing target holding nothing crashes on `.createdAt` and changes nothing; otherwise the target index is updated, or a new task is appended when not editing; each outcome is an if-and-only-if on its condition |
| Scheduler.SaveNotice | js/scheduler.js:126-159 | a notification is shown unless the save throws; the two validation messages are shown as errors and the two success messages are not, each with its exact text |
| Scheduler.InvalidFormChangesNothing | js/scheduler.js:118-134 | an empty trimmed title or an empty deadline leaves the list and the editing target unchanged |
| Scheduler.CreateAppendsOne | js/scheduler.js:153-158 | creating appends exactly one task, with the fresh id, at the end, and keeps every existing task |
| Scheduler.UpdateKeepsOthers | js/scheduler.js:143-151 | editing overwrites all six form fields of the edited task (three of them trimmed), keeps its id and `createdAt`, stamps `updatedAt`, and keeps the length and every other task |
| Scheduler.FormOf | js/scheduler.js:84-89 | the form filled from a task shows all six of its fields: title, description, deadline, priority, assignee and status |
| Scheduler.FormFor | js/scheduler.js:78-100 | opening on a known task fills in its fields; otherwise the blank defaults (`medium`, `pending`) |
| Scheduler.FindIndexSameIds | js/scheduler.js:149 | two lists that agree on the ids before the first match find the same index |
| Scheduler.EditReopensTrimmedForm | js/scheduler.js:78-151 | reopening the task just edited shows the form that was saved, with title, description and assignee trimmed |
| Scheduler.CreateReopensTrimmedForm | js/scheduler.js:78-158 | reopening a task just created, by its fresh id, shows the form that was saved, with title, description and assignee trimmed |
| Scheduler.BlankFormIsRejected | js/scheduler.js:91-129 | saving the blank new-task form is always refused for the missing title |
| Scheduler.AddButtonSaveChangesNothing | js/scheduler.js:32 | with the click event as editing target, saving never creates a task and never changes the list; a valid form crashes |
| Scheduler.NewTaskSaveAppends | js/scheduler.js:147-159 | with no editing target, saving a valid form creates and appends the new task |
| Scheduler.RemoveId | js/scheduler.js:172 | the filter keeps exactly the tasks whose id differs |
| Scheduler.RemoveIdAppend | js/scheduler.js:172 | the filter works piecewise, so the kept tasks stay in their original order |
| Scheduler.RemoveIdAbsent | js/scheduler.js:172 | a list without the id is kept exactly |
| Scheduler.RemoveIdIdempotent | js/scheduler.js:170-177 | deleting twice is deleting once |
| Scheduler.ToggleTwiceIff | js/scheduler.js:185 | toggling twice restores the status exactly when it is `completed` or `pending` |
| Scheduler.ToggledStatus | js/scheduler.js:185 | the new status always differs from the old one and is `completed` or `pending` |
| Scheduler.ToggleTask | js/scheduler.js:182-190 | a `completed` task becomes `pending` and any other becomes `completed`, stamped with `now`; only the first task with the id changes; an unknown id changes nothing |
| Scheduler.DueNoLaterIsTotalPreorder | js/scheduler.js:223 | the deadline comparator is a total preorder |
| Scheduler.ByDeadline | js/scheduler.js:219-223 | the sorted copy holds the same tasks, each as often (multiset) |
| Scheduler.ByDeadlineStable | js/scheduler.js:223 | tasks tie exactly when their deadlines are equal, and tasks with equal deadlines keep their relative order in the list view |
| Scheduler.ByDeadlineSortedPermutation | js/scheduler.js:223 | the list view shows a permutation of the tasks, earliest deadline first |
| Scheduler.OverdueNotDueSoon | js/scheduler.js:339-343 | no task is both overdue (the line-232 mark) and due soon |
| Scheduler.UpcomingTasks | js/scheduler.js:339-343 | the reminder selects exactly the tasks that are not completed and have now ≤ deadline ≤ now + 24h |
| Scheduler.UpcomingTasksAppend | js/scheduler.js:339-343 | the filter works piecewise, so the reported tasks keep their list order |
| Scheduler.UpcomingTasksCount | js/scheduler.js:339-343 | each task due soon is reported as often as it occurs in the list, and no other task is reported |
| Scheduler.Titles | js/scheduler.js:346 | the titles of the tasks, one per task in order |
| Scheduler.UpcomingNotice | js/scheduler.js:345-348 | a reminder is shown exactly when some task is due soon; its text is `You have N task(s) due soon: ` with N the number of tasks due soon, followed by their titles in list order joined with `, ` |
| Scheduler.ImportNotice | js/scheduler.js:413-436 | an error notice exactly when the file is not a task array: a read error, a parse error or JSON that is not an array; no notice exactly when the import is declined |
| Scheduler.Imported | js/scheduler.js:415-426 | the list is replaced only by a confirmed array; otherwise it is unchanged |
| Scheduler.TaskScheduler.constructor | js/scheduler.js:22-24 | the stored list or `[]`, no editing target, the list view |
| Scheduler.TaskScheduler.OpenTaskModal | js/scheduler.js:78-104 | remembers the target and returns the form `FormFor` fills in |
| Scheduler.TaskScheduler.OpenFromAddButton | js/scheduler.js:32 | the Add Task button as wired: the click event becomes the editing target, with a blank form |
| Scheduler.TaskScheduler.OpenNewTaskModal | js/scheduler.js:78-100 | `openTaskModal()` with no target: the blank form and no editing target |
| Scheduler.TaskScheduler.CloseTaskModal | js/scheduler.js:109-112 | the editing target is cleared |
| Scheduler.TaskScheduler.Save | js/scheduler.js:117-165 | the list becomes `SaveTask(...)`'s; the target is cleared only when the save went through; the notice matches the outcome |
| Scheduler.TaskScheduler.Delete | js/scheduler.js:170-177 | a confirmed delete filters out the id; otherwise nothing changes |
| Scheduler.TaskScheduler.Toggle | js/scheduler.js:182-190 | the list becomes `ToggleTask(...)`'s; a status is returned exactly when a task was found, and it is the new status |
| Scheduler.TaskScheduler.ToggleView | js/scheduler.js:196-199 | the view follows the checkbox |
| Scheduler.TaskScheduler.ListView | js/scheduler.js:219-223 | a sorted permutation of the tasks is returned and the list is not touched |
| Scheduler.TaskScheduler.CheckUpcoming | js/scheduler.js:335-349 | no reminder exactly when no task is due soon |
| Scheduler.TaskScheduler.Import | js/scheduler.js:413-436 | the list and the notice as `Imported` and `ImportNotice` give them |
| Canvas.ReadableName | js/script.js:227 | the table's readable name for a known id, the id itself otherwise |
| Canvas.NameTablesAreInverse | js/script.js:255-268 | the id-to-name table of the prompt and the name-to-id table of the badges are inverse |
| Canvas.CanvasEntries | js/script.js:559-573 | one entry per section in page order, with the section's textarea value |
| Canvas.EntryData | js/script.js:564-569 | a section with a textarea stores `{textarea: value}`, one without stores `{}` |
| Canvas.ToData | js/script.js:559-573 | every section id is a key and every key is a section id |
| Canvas.ToDataAt | js/script.js:559-573 | with distinct ids, each id holds its own section's entry |
| Canvas.ToDataOfPage | js/script.js:559-573 | the data read from a page holds each section's own entry |
| Canvas.Coerce | js/script.js:723-735 | a stored value keeps the control's kind: text stays text, a checkbox takes truthiness |
| Canvas.PopulateControls | js/script.js:720-735 | only keys present in the data are assigned; every other control is left as it was |
| Canvas.Populate | js/script.js:716-737 | each section looks up `data[id] || {}`; a section with no data is unchanged |
| Canvas.PopulateOwnEntry | js/script.js:716-737 | writing a section's own entry back changes nothing |
| Canvas.PopulateWithOwnData | js/script.js:559-737 | populating a page with the data read from it gives the page back |
| LlmReply.SpacesEnd | js/script.js:355 | a greedy `\s*` stops at the first character that is not white space |
| LlmReply.DigitsEnd | js/script.js:369 | a greedy `\d+` covers only digits and stops at the first non-digit |
| LlmReply.SegmentEnd | js/script.js:370 | a greedy `[^\n:]+` stops at the first newline or colon |
| LlmReply.LineEnd | js/script.js:450 | a greedy `[^\n]*` stops at the first newline |
| LlmReply.HeaderEnd | js/script.js:355 | a match reads white space, then `#`, then at least one white-space character, and the last run is taken as far as it goes |
| LlmReply.HeaderEndIsTheMatch | js/script.js:355 | any `\s*#\s+` match at a position is the one `HeaderEnd` finds there, so `HeaderEnd` finds nothing only where there is no match |
| LlmReply.NextHeader | js/script.js:355 | the split point is the leftmost header match |
| LlmReply.SplitSections | js/script.js:355 | `split(/\s*#\s+/)` gives at least one piece |
| LlmReply.HeaderSeparators | js/script.js:355 | one dropped separator between each two pieces |
| LlmReply.SplitSectionsRejoin | js/script.js:355 | the pieces with the dropped separators put back between them give the reply again |
| LlmReply.SeparatorsAreHeaders | js/script.js:355 | every dropped separator is a whole `\s*#\s+` match |
| LlmReply.PiecesHaveNoHeader | js/script.js:355 | no piece holds a header match at any position |
| LlmReply.SplitWithoutHeader | js/script.js:355 | a reply without any header is one piece |
| LlmReply.FindHeaded | js/script.js:358-360 | `find` gives an element that passes the header test |
| LlmReply.FindHeadedIsFirst | js/script.js:358-360 | it is the first such element, and nothing is given only when no element passes |
| LlmReply.DigitsPercentAt | js/script.js:369 | `(\d+)%` consumes at least one character |
| LlmReply.DigitsPercentAtReads | js/script.js:369 | what `(\d+)%` reads is a non-empty digit run followed by `%`, and the number is the run's decimal value |
| LlmReply.DigitsPercentAtFinds | js/script.js:369 | digits up to a `%` are always read, as their decimal value |
| LlmReply.PercentAt | js/script.js:369-370 | `\s*(\d+)%` consumes at least one character |
| LlmReply.PercentAtSkipsSpaces | js/script.js:369-370 | `\s*(\d+)%` reads the digits right after the whole white-space run |
| LlmReply.ScoredColon | js/script.js:369 | the lazy group ends at a colon at or after its start |
| LlmReply.DotEnd | js/script.js:369 | `.` reaches up to the first line terminator |
| LlmReply.ScoredColonIsFirst | js/script.js:369 | the lazy group ends at the first colon before the line ends that a percentage follows, and the number is the one read after it; with no such colon there is no match |
| LlmReply.HyphenPercentAt | js/script.js:371 | `\s*-\s*(\d+)%` consumes at least one character |
| LlmReply.HyphenPercentAtReads | js/script.js:371 | `\s*-` is the white-space run and a hyphen right after it, then the percentage is read |
| LlmReply.ScoredHyphen | js/script.js:371 | the greedy group backs off to the longest prefix that a `- N%` follows |
| LlmReply.ScoreMatchAt | js/script.js:368-388 | a match of each pattern, with its group trimmed and parsed, ends after its start |
| LlmReply.NextScore | js/script.js:385 | `exec` from `lastIndex` gives a match that ends after `lastIndex` |
| LlmReply.NextScoreIsLeftmost | js/script.js:385 | `exec` gives the leftmost match at or after `lastIndex`, and nothing exactly when no position matches |
| LlmReply.AllScores | js/script.js:385-386 | at most one score per character of the text, and none exactly when the first `exec` fails |
| LlmReply.PatternScores | js/script.js:378-411 | one list of scores per pattern, each what that pattern's `exec` loop finds |
| LlmReply.FirstNonEmpty | js/script.js:378-414 | the loop over patterns gives nothing or one of the patterns' lists |
| LlmReply.NoScoresIffNoneFound | js/script.js:378-417 | no scores come out exactly when every pattern found none |
| LlmReply.FirstFoundWins | js/script.js:378-414 | the first pattern that found something supplies all the scores |
| LlmReply.ExtractScoresFirstPatternWins | js/script.js:378-414 | the dashed list's scores if any; else the colon pairs' if any; else the hyphen pairs' |
| LlmReply.ExtractScores | js/script.js:378-414 | no scores exactly when every pattern finds none; otherwise the list that one of the patterns found |
| LlmReply.NamesOf | js/script.js:391 | the names a list of scores mentions, no more and no fewer |
| LlmReply.ApplyScores | js/script.js:391-392 | the stored keys are the old keys plus the parsed names; untouched names keep their scores |
| LlmReply.ApplyScoresLastWins | js/script.js:391-392 | the last score a name gets is the one stored |
| LlmReply.ItemStart | js/script.js:450 | `[^\n]+` starts at the last position the backtracking `\s*` can give back that is not a newline; there is no start exactly when every candidate is a newline or the end of the text |
| LlmReply.ItemAt | js/script.js:450-456 | a numbered-item match starts at a digit and ends at a newline or at the end of the text |
| LlmReply.ItemParses | js/script.js:450-456 | a line `k. text`, ending the text or followed by a newline, is read back as `text`, without its number |
| LlmReply.AllItems | js/script.js:450 | at most one item per character of the text |
| LlmReply.AllItemsSkip | js/script.js:450 | characters that are not digits start no item |
| LlmReply.AllItemsOfList | js/script.js:450-456 | numbered lines one per line are read back as their texts, in order, without their numbers |
| LlmReply.ListItems | js/script.js:453-459 | no items give no markup |
| LlmReply.ListItemsAppend | js/script.js:453-459 | each item becomes `<li>item</li>`, in order: the markup of a list is that of its parts one after the other |
| LlmReply.StripOverallHeader | js/script.js:462 | the result is a suffix of the text; without the header (in any ASCII case) the text is unchanged; with it, the header and the white space after it are removed, and what is left is empty or starts with a character that is not white space |
| LlmReply.OverallHtml | js/script.js:446-467 | the markup always opens the overall-recommendations box; what goes in it is given by the two lemmas below |
| LlmReply.OverallHtmlOfList | js/script.js:446-459 | a section holding a numbered list after a header without digits is shown as `<ol>` of the items, in order, without their numbers |
| LlmReply.OverallHtmlOfProse | js/script.js:460-466 | a section without digits is shown as its text without the header, trimmed, with newlines turned into `<br>` |
| LlmReply.SectionHeaded | js/script.js:442-444 | the section found starts, once trimmed, with the upper-case or the title-case header |
| LlmReply.SectionHeadedIsFirst | js/script.js:355-360 | there is no section exactly when no piece of the split is headed; otherwise it is the first headed piece |
| LlmReply.DigitsEndAt | js/script.js:369 | a complete digit run ends where its digits end |
| LlmReply.ScoredColonAt | js/script.js:369 | the lazy group stops at the first colon on the line that a percentage follows, passing over earlier colons that none follows |
| LlmReply.PercentAtNumber | js/script.js:369 | a space, the decimal text of `n` and `%` are read as `n` |
| LlmReply.DashedMatchOf | js/script.js:369 | the dashed match once its group and its number are known |
| LlmReply.OneSpace | js/script.js:369 | one space before a character that is not white space is all `\s*` takes |
| LlmReply.DashedColon | js/script.js:369 | the lazy group of `- Name: N%` ends at the colon after the name |
| LlmReply.DashedScoreAt | js/script.js:369-388 | a line laid out as `- Name: N%` is matched as name `Name`, score `N` |
| LlmReply.ScoreLine | js/script.js:503-504 | the length of a score line in the prompt's format |
| LlmReply.ScoreLineLayout | js/script.js:503-504 | where the parts of a score line sit |
| LlmReply.ScoreLineParses | js/script.js:369-388 | a score line in the format the analysis prompt asks for is read back as that name and that number, whatever follows |
| LlmReply.OverallIsNotFallback | js/script.js:446-472 | the overall markup is never the fallback text |
| LlmReply.FallbackIffNoOverall | js/script.js:442-472 | the fixed fallback is returned exactly when the reply has no overall-recommendations section |
| LlmReply.ResponseHtml | js/script.js:441-472 | the markup is the fallback or an overall-recommendations box |
| LlmReply.ScoresOf | js/script.js:358-414 | scores are found only when the reply has a quality-scores section |
| Analyzer.AllEmptyIffAllBlank | js/script.js:114-117 | the canvas counts as empty exactly when every textarea is missing or all white space |
| Analyzer.LlmCanvasText | js/script.js:226-240 | the prompt text is empty exactly for a canvas without sections, and each section adds at least its heading and blank line |
| Analyzer.LlmCanvasTextAppend | js/script.js:226-240 | the prompt text of a canvas is the text of its first part followed by that of the rest |
| Analyzer.BlankTextIsMarked | js/script.js:231-235 | whitespace-only text is sent as `[EMPTY SECTION - NO CONTENT]` |
| Analyzer.FormatCanvasForLlm | js/script.js:206-243 | per section, in order: `## name`, then the text or the empty marker, then a blank line |
| Analyzer.ReplyText | js/script.js:555 | an empty or absent response becomes the fixed text; any other response is kept |
| Analyzer.ScoreClass | js/script.js:286-292 | `high` exactly for 70 or more, `medium` exactly for 40 to 69, `low` exactly below 40 |
| Analyzer.ScoreForId | js/script.js:271-274 | an id without a readable name gets no score, and any score a section gets is one of the parsed scores |
| Analyzer.ScoreForIdByName | js/script.js:271-274 | a section gets score `v` exactly when some parsed name with score `v` maps to its id |
| Analyzer.CardFor | js/script.js:271-341 | a scored section shows its score and class; every other section shows `0%` `low` |
| Analyzer.Cards | js/script.js:270-342 | one badge per section, in page order |
| Analyzer.UnknownNameIgnored | js/script.js:273-274 | a score under a name with no section id changes no badge |
| Analyzer.HasTextareaOfEntry | js/script.js:169-181 | a basic check passes exactly when the section's textarea is non-empty |
| Analyzer.BasicCheckAt | js/script.js:169-181 | the same, for the data read from the page |
| Analyzer.BasicCheckAbsent | js/script.js:175-181 | a check on an id the page lacks (`problem`, `ethical-considerations`) always fails |
| Analyzer.BasicCheck | js/script.js:169-181 | a present textarea gives the tick line with the passing text; otherwise the warning line |
| Analyzer.FailurePane | js/script.js:162-187 | the failure pane starts with the recommendations heading and is never the fallback text |
| Analyzer.FailurePaneChecks | js/script.js:162-187 | the failure pane is the warning line followed by the three basic checks, value proposition, problem and ethical considerations, and nothing after them |
| Analyzer.AfterLoad | js/script.js:647-662 | data with `sections` is the new format and its scores are loaded if present; other data is the old format and the scores stay |
| Analyzer.Reparse | js/script.js:647-655 | a saved record read back is the new format, and its scores are present |
| Analyzer.LoadedNotice | js/script.js:655-701 | loading ends in a success notice whose text names the file or browser storage and ends in ` with scores!` exactly for the new format, whether or not it holds scores |
| Analyzer.SaveThenLoad | js/script.js:576-662 | loading a saved canvas gives back the page and the scores it was saved with |
| Analyzer.OldFormatKeepsScores | js/script.js:658-661 | an old-format file leaves the scores alone |
| Analyzer.CanvasAnalyzer.constructor | js/script.js:9-13 | empty score maps and a `0%` badge on every section |
| Analyzer.CanvasAnalyzer.CollectScores | js/script.js:374-414 | the loop over patterns and `exec` matches stores exactly the first matching pattern's scores, in the run's map and in the current scores |
| Analyzer.CanvasAnalyzer.ReadScores | js/script.js:358-424 | the current scores are added to, never cleared; the previous scores are replaced only when something was parsed |
| Analyzer.CanvasAnalyzer.KeepRunScores | js/script.js:474-477 | the previous scores become this run's exactly when the run parsed a score |
| Analyzer.CanvasAnalyzer.FormatLlmResponse | js/script.js:348-480 | returns `ResponseHtml` and updates both maps as `ReadScores` does |
| Analyzer.CanvasAnalyzer.DisplayScoresOnCards | js/script.js:248-343 | the badges become `Cards` of the current scores |
| Analyzer.CanvasAnalyzer.ShowFailure | js/script.js:153-187 | scores cleared, badges reset to `0%`, the basic checks shown |
| Analyzer.CanvasAnalyzer.ShowReply | js/script.js:128-149 | the recommendations pane, the updated maps and the badges of the updated scores |
| Analyzer.CanvasAnalyzer.BeginAnalysis | js/script.js:101-124 | a request is made exactly when some section has non-blank text, and it carries the section text; otherwise the empty warning |
| Analyzer.CanvasAnalyzer.FinishAnalysis | js/script.js:127-188 | a failure shows the basic checks with cleared scores; a reply shows the recommendations and updates the maps and badges |
| Analyzer.CanvasAnalyzer.Save | js/script.js:576-617 | the record stored is the page's data, the current scores and the time; a storage error stores nothing and reports |
| Analyzer.CanvasAnalyzer.ApplyLoaded | js/script.js:647-662 | the page and scores become `AfterLoad`'s; badges are redrawn only when scores were loaded |
| Analyzer.CanvasAnalyzer.LoadFromFile | js/script.js:634-676 | a parsed file is applied with its notice; no file, a read error or a parse error changes nothing and reports |
| Analyzer.CanvasAnalyzer.LoadFromStorage | js/script.js:680-711 | a parsed stored item is applied with its notice; nothing stored, or a parse error, changes nothing and reports |
| Analyzer.ReplyMarkup | js/script.js:441-472 | the markup is `ResponseHtml` |
| Analyzer.FormatOverall | js/script.js:446-467 | the markup built piece by piece is `OverallHtml`, so numbered items come out as `<li>`s without their numbers (`OverallHtmlOfList`) |
| Analyzer.NoScoresNoKeys | js/script.js:475-477 | a run stores some key exactly when it parsed a score |
| Chat.NameLeTotal | js/chat.js:45 | any two names are ordered one way or the other |
| Chat.NameLeTransitive | js/chat.js:45 | the name order is transitive |
| Chat.NameLeIsTotalPreorder | js/chat.js:45 | the name comparator is a total preorder |
| Chat.FirstModelIsLeast | js/chat.js:45-58 | the first sorted model is one of the models and precedes-or-ties every one |
| Chat.ChoicesOf | js/chat.js:48-53 | one option per model, in sorted order |
| Chat.ReplyMessage | js/chat.js:277-303 | the reply text; the apology with `Failed to get response from Ollama` for a non-OK status; the connection error when the message includes `Failed to fetch`; otherwise the apology with the error's message |
| Chat.Shown | js/chat.js:312-329 | an assistant message shows no newline |
| Chat.ThinkingCountAppend | js/chat.js:335-361 | the count of thinking indicators adds up over concatenation |
| Chat.WithoutThinking | js/chat.js:356-361 | removing the indicator leaves none, and keeps every other message |
| Chat.ContextTextAppend | js/chat.js:448-462 | the context of a canvas is the context of its first part followed by that of the rest |
| Chat.ContextText | js/chat.js:448-462 | the context is empty exactly for a canvas without sections, and each section adds at least its heading and blank line |
| Chat.BlankTextDiffersFromAnalysis | js/chat.js:453-457 | whitespace-only text is shown as itself in the chat context, but sent as the empty marker in the analysis prompt |
| Chat.FormatCanvasContext | js/chat.js:428-465 | per section, in order: `## name`, then the text or `[Empty]` when the text is falsy, then a blank line |
| Chat.ChatWidget.constructor | js/chat.js:18-77 | no model, no options, unavailable, not waiting, closed, no messages |
| Chat.ChatWidget.AddAiMessage | js/chat.js:323-329 | appends one assistant message |
| Chat.ChatWidget.PopulateModels | js/chat.js:24-94 | options in sorted order, with the first sorted model selected and no model ordered before it; a single "No models available" option for an empty list; a single error option on failure |
| Chat.ChatWidget.CheckStatus | js/chat.js:166-210 | available exactly when the tags list holds the selected model; otherwise unavailable, with the offline help added when the chat is open and shows at most one message |
| Chat.ChatWidget.ToggleChat | js/chat.js:152-161 | the chat opens or closes |
| Chat.ChatWidget.ClearChat | js/chat.js:118-131 | only the cleared notice is left |
| Chat.ChatWidget.CheckConnection | js/chat.js:96-100 | appends the checking notice |
| Chat.ChatWidget.ShowWelcome | js/chat.js:143-146 | appends the welcome message |
| Chat.ChatWidget.BeginSend | js/chat.js:215-273 | nothing changes for a blank input or while waiting; otherwise the trimmed message is echoed and the input cleared; when unavailable, the notice follows and no request is made; when available, the thinking indicator, the in-flight flag, and a request carrying the model, the canvas context and the message. A request is made exactly when this call starts the in-flight state |
| Chat.ChatWidget.Echo | js/chat.js:221-224 | the user message is appended and the input cleared |
| Chat.ChatWidget.StartRequest | js/chat.js:233-273 | the indicator is shown, the flag is set and the request is built |
| Chat.ChatWidget.FinishSend | js/chat.js:277-306 | the indicator is removed and the reply message added; the flag is cleared whatever happened; availability drops only on a fetch failure |
| Chat.AiMessagesShowNoNewline | js/chat.js:366-368 | no assistant message in the list shows a newline |

Every class keeps an invariant that its methods preserve:

- `CanvasAnalyzer.Valid` holds distinct section ids and one badge per section.
- `ChatWidget.Valid` holds that at most one thinking indicator is shown, and none unless a request is in flight.

### Behaviour of the code worth noting

- **Relay validation order.** The relay checks the key (present, then the `sk-` prefix) before it looks at the prompt, and it maps the model between the two checks.
- **Relay status codes.** An unparseable body gives 500 `Proxy Error: …`. A timeout and a connection failure both give 500.
- **Relay routes.** `/api/tags` always returns the fixed list of three models and never forwards. The key route is `/api/update-key`, its field is `apiKey`, and the health field is `hasApiKey`.
- **Temperature.** A temperature of 0 is falsy in `temperature || 0.7`, so it becomes 0.7. A non-number temperature goes through `Number`: `"1.5"` is 1.5, `true` is 1, and text that is not a number is NaN, which `JSON.stringify` writes as `null`.
- **Null body.** A body of `null` parses. On `/api/generate` the key guards run first, and only reading `model` throws.
- **Default model.** `populateModelDropdown` sets `MODEL` to the first sorted model only when `MODEL` is empty. It then dispatches the selector's `change` event, whose listener sets `MODEL` to the selector's value, and that value is the first option whenever no option was marked selected. So after a successful population, `MODEL` is always the first sorted name (`PopulateModels`).

## Findings

| source | as written | input that shows it | evidently intended | confidence | as-written member | corrected member |
|---|---|---|---|---|---|---|
| js/scheduler.js:32 | `addTaskBtn` registers `openTaskModal` itself as its click listener, so `taskId` is the click event and `editingTaskId` becomes that truthy event; `saveTask` then reads `tasks.find(t => t.id === editingTaskId).createdAt` on `undefined` and throws | click "Add Task", fill in a title and a deadline, click Save: the list is unchanged and no notification is shown | the button opens the modal for a new task (`openTaskModal()` with no argument), and saving appends the task | not executed | Scheduler.AddButtonSaveChangesNothing | Scheduler.NewTaskSaveAppends |

The handler methods mirror the two halves. `Scheduler.TaskScheduler.OpenFromAddButton` models the button as wired. `Scheduler.TaskScheduler.OpenNewTaskModal` models the intended call.

## Left out

- I/O and the outside world are not modelled: the HTTP server, `listen` and the port-in-use exit, body chunk streaming, `node-fetch`, the 30-second abort timer, DOM element creation, CSS, scrolling, focus, the notification and animation timers, console logging, and the PDF export. They hold no decision logic. Their results enter as input datatypes.
- `JSON.parse`/`JSON.stringify`, `localStorage`, `FileReader` and `confirm()` are not modelled. A parse is a datatype of success or failure with its message, and a confirmation is a boolean.
- Dates are not modelled: date parsing and locale formatting, the calendar grid, `daysUntilDeadline` with its float division and `Math.ceil`, and the hourly `setInterval`. Deadlines and "now" are integer milliseconds.
- `generateTaskId` (`Date.now`, `Math.random`) is not modelled. The fresh id is a parameter.
- Comparing `localeCompare`: the model name order `NameLe` is code-point order, not the locale's collation.
- Regular expressions are replaced by hand-written matchers of the same greedy and lazy shape, and any difference from the regex engine is not modelled. The `/i` header strip folds ASCII letters only.
- `ScoreMatchAt`: matches are computed, but the proofs establish only their bounds and the dashed `- Name: N%` layout. The colon and hyphen formats have no round-trip lemma.
- `Analyzer.CanvasAnalyzer.ReadScores`: `parseInt` is modelled exactly on digit runs, but no number-precision limit is modelled.
- Only the first step of `formatMessage`, the newline rewrite, is modelled. The later markdown rewrites (bold, italic, code, lists, headings) are not.
- Non-string JSON values are modelled only in the relay (`JsonValue`). Canvas fields are text or booleans. Task fields have the declared types. A `scores` object is a map to naturals.
- Duplicate section ids on a page are excluded by `DistinctIds` wherever a lemma needs each id to hold its own section's data.
- Chat replies without a `response` field (where `addAIMessage(undefined)` throws inside `formatMessage`) are not modelled. `ChatReplied` always carries text.
- The analyzer's outer `catch`, reached only by an exception before the request, is not modelled.
- `Chat.ChatWidget.PopulateModels`: the models' other fields and the thinking indicator's id are not modelled.
- The status re-checks that `toggleChat`, the change listener, the check-connection button, and the send paths start are separate `CheckStatus` calls, not part of the calling method. The interleaving of the async handlers is not modelled.
- The prompts are the `Prompt` datatype. `PromptText` gives their text, but nothing is proved about it.
- `Scheduler.TaskScheduler.ListView`: the rendered markup of the list view is not modelled, and neither is the overdue label text.
- The relay's headers are modelled only as the CORS and content-type lists, not as an HTTP header map.
- Relay.TruncatePrompt: lengths are counted in code points, not UTF-16 code units, so a prompt with characters outside the Basic Multilingual Plane is cut at a different place than `prompt.length`/`substring` cut it.
- Relay.OutboundTemperature: `Number` is modelled for signed decimal text only; text with an exponent, a `0x`/`0o`/`0b` prefix or `Infinity` reads as NaN here where JavaScript reads a number. JSON numbers that overflow to `Infinity` are not modelled.
- Chat.SaidText: the fixed texts are a table; nothing is proved about them beyond what `Shown` and `ReplyMessage` state.
- LlmReply.ApplyScores: score maps are Dafny maps, not JavaScript objects. In JavaScript, `currentScores['__proto__'] = n` stores no key, so a parsed name `__proto__` is neither stored nor counted by `Object.keys`. The model stores it as an ordinary name.
- Analyzer.CanvasAnalyzer.KeepRunScores: for the same reason, a run whose only parsed name is `__proto__` keeps the previous scores in JavaScript, where the model replaces them.
- Analyzer.ScoreForId: the name table is a Dafny map. In JavaScript, `sectionNameToId` is a plain object, so a parsed name that is an `Object.prototype` member (`constructor`, `toString`, `hasOwnProperty` and the like) finds an inherited function, which is truthy. `document.querySelector` then throws on the resulting selector (js/script.js:273-277). That ends an analysis in the failure pane with all badges at `0%` (js/script.js:153-187), and a file load in "Error parsing JSON file" (js/script.js:663-666). The model gives such a name no section and shows the reply.
- Analyzer.CardFor: the same inherited names are ignored here, where JavaScript throws.
- Analyzer.UnknownNameIgnored: holds for names outside the table, but not for inherited `Object.prototype` names, on which JavaScript throws instead.
- Canvas.ReadableName: for an id that is an inherited `Object.prototype` name, JavaScript's `sectionNames[id]` is a function, and the heading is that function's source text. The page's section ids are none of these names.
- Canvas.CanvasEntries: `Object.entries` lists integer-like keys first. The model lists sections in page order, which agrees because no section id on the page is integer-like.
- Relay.ReportedMessage: `error.message` is taken as text. A truthy non-string value there is sent back as that JSON value in JavaScript, which the model does not represent.
