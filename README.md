# Smart Farm core, modelled in Dafny

This project models the core of the Smart Farm application. It is a farm-management back end (Express with a
relational store) and a web front end. The modelled parts are:

- **Plant batches** (`plant_batch_controller.dfy`). `calculateIrrigationStatus` gives the next due day, the days
  overdue and one of three tiers: on time, overdue, critical. Also modelled: the filtered batch listing, the batch
  detail, creating a batch, and changing a batch's status with its history row.
- **Irrigation** (`irrigation_controller.dfy`). Recording an irrigation event, planned or completed. Completing one,
  which moves the batch's last irrigation date. The overdue list, sorted most overdue first.
- **Dashboard** (`dashboard_controller.dfy`). The irrigation counters of the statistics endpoint. The alert feed:
  irrigation alerts, then status alerts, stably sorted by severity and cut to 20.
- **Chat back end** (`chat_controller.dfy`). The guard in front of the database for SQL written by the language
  model: SELECT only, and a word-boundary test for seven dangerous keywords with a `K_`/`_K` escape clause. Also the
  dispatch on the classifier's route.
- **Import** (`import_controller.dfy`). `parseLocalDateTime`, and the record loop of the JSON import:
  - find-or-create a field, a plant type and a batch;
  - then record an irrigation, a note or a status change;
  - count the successes and log the failures with their 0-based index;
  - close the import job.
- **Dashboard page** (`dashboard_page.dfy`). The client-side status filter over the alerts, the statistics shown
  under it, the greeting by hour and the five alerts listed.
- **Chat page** (`chat_page.dfy`). The small Markdown renderer: headings, bullets and `**bold**` split by the regular
  expression `(\*\*.*?\*\*)`. The `sendMessage` state machine, as a class holding `messages`, `input` and `isLoading`.

Supporting modules:

- `store.dfy`: the store, as class `Store.Db` with one sequence per table; a row's id is its index.
- `local_days.dfy`: day numbers and JavaScript's `new Date(y, m, d)`.
- `sorting.dfy`: JavaScript's stable `Array.prototype.sort` with a numeric key, as a stable insertion sort.
- `seqs.dfy`, `decimal.dfy`, `wrappers.dfy`: sequences, decimal digits and `Option`/`Reply`.

Some things come from outside the program: the current day and hour, what the language model answers, what the
database returns and what the browser's `fetch` produced. They are parameters.

## Model

| member | source | states |
|---|---|---|
| `PlantBatchController.CalculateIrrigationStatus` | backend/src/controllers/plantBatchController.ts:264-303 | A batch never irrigated is critical with no due date. Otherwise the due day is the last irrigation plus the frequency, days overdue is the positive part of today minus the due day, and the tier is on time iff 0 days, overdue iff 1 to 2, critical iff more than 2. |
| `PlantBatchController.TierBoundaries` | backend/src/controllers/plantBatchController.ts:280-300 | Day by day around the due day: on time up to the due day, overdue one and two days after, critical from the third day. |
| `PlantBatchController.TierMonotone` | backend/src/controllers/plantBatchController.ts:272-300 | As days pass without watering, neither the tier nor the days overdue ever goes down. |
| `PlantBatchController.GetPlantBatches` | backend/src/controllers/plantBatchController.ts:18-60 | An id is listed iff its batch is not soft-deleted and passes every filter given. The list never holds a deleted batch and is ordered newest first. |
| `PlantBatchController.GetPlantBatchById` | backend/src/controllers/plantBatchController.ts:63-116 | An unknown or soft-deleted id is 404. Otherwise the reply holds the batch and the irrigation status computed from its plant type's frequency. |
| `PlantBatchController.CreatePlantBatch` | backend/src/controllers/plantBatchController.ts:119-168 | A missing value is 400 and a dangling reference or unreadable date is 500, both with the store unchanged. Success happens iff all values are present and valid. It appends one healthy batch, and an 'Initial planting' history row only when a user is given. The store stays well formed. |
| `PlantBatchController.UpdatePlantBatchStatus` | backend/src/controllers/plantBatchController.ts:198-242 | A missing status or user is 400 and an unknown id is 404, with nothing written. Otherwise only that batch's status changes, and one history row records the new and the previous status. |
| `IrrigationController.EventStatusFor` | backend/src/controllers/irrigationController.ts:53-54 | An event is completed iff it has an executed date or the status 'completed'; otherwise it is planned. |
| `IrrigationController.ExecutedDayFor` | backend/src/controllers/irrigationController.ts:55 | The executed day is the given date, or today for a completed event without one, and absent exactly for a planned event. |
| `IrrigationController.CreateIrrigationEvent` | backend/src/controllers/irrigationController.ts:33-85 | A missing batch, scheduled date or user is 400, with nothing written. Success happens iff the references and dates are valid. It appends one event with the derived status. The batch's last irrigation moves to the executed day iff the event is completed. |
| `IrrigationController.CompleteIrrigation` | backend/src/controllers/irrigationController.ts:88-116 | Fails (500, nothing written) iff the event is unknown or the date unreadable. Otherwise the event becomes completed with the given day or today, and its batch's last irrigation becomes that day. |
| `IrrigationController.OverdueEntryOf` | backend/src/controllers/irrigationController.ts:145-171 | A batch is listed iff it was never irrigated (999 days, critical) or is at least one day late. Its severity is critical iff more than 2 days late. |
| `IrrigationController.OverdueCandidates` | backend/src/controllers/irrigationController.ts:143-171 | The map-and-filter keeps exactly the entries of the batches that need water. |
| `IrrigationController.OverdueList` | backend/src/controllers/irrigationController.ts:143-172 | The sorted list is a permutation of the candidates, ordered by days overdue, most first. |
| `IrrigationController.OverdueListEntries` | backend/src/controllers/irrigationController.ts:124-171 | Every listed entry comes from a queried batch and is that batch's own entry. |
| `IrrigationController.OverdueListComplete` | backend/src/controllers/irrigationController.ts:145-171 | Every queried batch that needs water appears in the list. |
| `IrrigationController.OverdueListMembers` | backend/src/controllers/irrigationController.ts:143-171 | The list holds exactly the entries of the queried batches that need water: each entry is its batch's own, and each such batch has its entry listed. |
| `IrrigationController.GetOverdueIrrigation` | backend/src/controllers/irrigationController.ts:119-179 | Every entry is the joined row of a batch that is not soft-deleted and, when a user is given, lies in a live field of that user; that batch needs water, and the entry is the one the map step makes for it. Every such batch that needs water is listed, and no batch twice. The list is ordered by days overdue, most first. |
| `IrrigationController.OverdueListOnePerBatch` | backend/src/controllers/irrigationController.ts:143-172 | When the queried batches have distinct ids, no two entries of the list are for the same batch: the map step gives one entry per row, and sorting only reorders them. |
| `Store.ScopedBatchesMembers` | backend/src/controllers/irrigationController.ts:124-136 | The queried rows are exactly the joined rows of the batches the `where` clause admits, one per batch, in increasing id order. |
| `IrrigationController.NeverIrrigatedFirst` | backend/src/controllers/irrigationController.ts:145-172 | Never-irrigated batches come first, provided no irrigated batch is 999 or more days late. |
| `IrrigationController.OverdueTiesKeepStoreOrder` | backend/src/controllers/irrigationController.ts:172 | Entries with equal days overdue keep the order the store returned them in, because the sort is stable. |
| `DashboardController.BucketsPartition` | backend/src/controllers/dashboardController.ts:90-111 | Each batch adds to at most one counter: the three buckets share out the batches. |
| `DashboardController.CountIrrigation` | backend/src/controllers/dashboardController.ts:87-111 | The loop's counters are the numbers of overdue and of critical batches, and together never exceed the number of batches. |
| `DashboardController.BucketAgreement` | backend/src/controllers/dashboardController.ts:90-111 | The counting loop, the overdue list and the batch detail classify every batch alike. |
| `DashboardController.CandidatesAppend` | backend/src/controllers/irrigationController.ts:143-171 | The overdue candidates of a grown batch list are the old candidates plus the new batch's entry, if any. |
| `DashboardController.CountersAgreeWithOverdueList` | backend/src/controllers/dashboardController.ts:87-111 | The dashboard's overdue and critical counters equal the numbers of overdue and of critical entries in the overdue irrigation list. |
| `DashboardController.CandidateCounts` | backend/src/controllers/dashboardController.ts:90-111 | The same agreement, holding already before sorting. |
| `DashboardController.GetDashboardStats` | backend/src/controllers/dashboardController.ts:5-160 | A missing user is 400, and any other user succeeds. It reports, over the user's live batches: their number, the two counters, a total equal to their sum (never above the number of batches), and the count of batches that are not healthy. |
| `DashboardController.Rank` | backend/src/controllers/dashboardController.ts:269 | The severity rank is 0 exactly for critical, 1 exactly for warning and 2 exactly for info. |
| `DashboardController.IrrigationAlertOf` | backend/src/controllers/dashboardController.ts:192-236 | A batch raises an irrigation alert iff it needs water. The alert is critical iff it was never irrigated or is more than 2 days late, and otherwise a warning. It names the batch and its field. A never-irrigated batch's alert has no days overdue and says it has never been irrigated. Any other alert carries the days overdue (at least 1) and says `<batch> in <field> is <n> days overdue for irrigation`. |
| `DashboardController.IrrigationAlertsAgreeWithCounters` | backend/src/controllers/dashboardController.ts:192-236 | There are as many critical irrigation alerts as the critical counter, as many warnings as the overdue counter, and none is info. |
| `DashboardController.StatusAlertsPerBatch` | backend/src/controllers/dashboardController.ts:256-266 | One status alert per problem batch, in order. It is critical iff the status is 'critical' or 'diseased', else a warning. |
| `DashboardController.StatusAlertsNoInfo` | backend/src/controllers/dashboardController.ts:256-266 | No status alert is info. |
| `DashboardController.PushIrrigationAlerts` | backend/src/controllers/dashboardController.ts:192-236 | The first push loop yields exactly the irrigation alerts of the batches, in batch order. |
| `DashboardController.PushStatusAlerts` | backend/src/controllers/dashboardController.ts:256-266 | The second push loop appends exactly the status alerts of the problem batches. |
| `DashboardController.GetRecentAlerts` | backend/src/controllers/dashboardController.ts:163-277 | A missing user is 400, and any other user succeeds. The reply is the first 20 of the feed, stably sorted by severity. |
| `DashboardController.SortedFeedOrder` | backend/src/controllers/dashboardController.ts:269-270 | Sorting irrigation alerts followed by status alerts, none info, gives this order: critical irrigation, critical status, irrigation warnings, status warnings. |
| `DashboardController.RecentAlertsOrder` | backend/src/controllers/dashboardController.ts:171-272 | The sorted feed of the endpoint has that four-group order, each group in push order. |
| `DashboardController.RecentAlertsResponse` | backend/src/controllers/dashboardController.ts:268-272 | The response holds min(20, n) of the n alerts, with every critical alert before every warning. |
| `Sorting.SortBy` | backend/src/controllers/dashboardController.ts:270 | The comparator sort returns a permutation of its input, ordered by the key. |
| `Sorting.SortByIsStable` | backend/src/controllers/irrigationController.ts:172 | For every key value, the elements with that key keep their input order. |
| `Sorting.SortByThreeGroups` | backend/src/controllers/dashboardController.ts:269-270 | With keys in 0..2, the sorted sequence is the key-0 elements, then key 1, then key 2, each in input order. |
| `ChatController.TrimStart` | backend/src/controllers/chatController.ts:137 | The result is the suffix of the query that starts at its first non-whitespace character. |
| `ChatController.TrimEnd` | backend/src/controllers/chatController.ts:137 | The result is the prefix that ends at the last non-whitespace character. |
| `ChatController.FirstBlocked` | backend/src/controllers/chatController.ts:144-151 | The keyword loop stops at the first keyword, in list order, that blocks. If there is none, no keyword blocks. |
| `ChatController.SqlGuard` | backend/src/controllers/chatController.ts:136-151 | A query passes iff its trimmed upper-case text starts with SELECT and no keyword blocks. A keyword blocks when it occurs standalone and neither `K_` nor `_K` occurs. Otherwise the error is 'Only SELECT queries are allowed' or names the first blocking keyword. |
| `ChatController.GuardNamesFirstKeyword` | backend/src/controllers/chatController.ts:145-150 | When keyword i blocks and none before it does, the error names keyword i. |
| `ChatController.MissingCharacter` | backend/src/controllers/chatController.ts:147-148 | A keyword containing a character the query lacks neither occurs in it nor blocks. |
| `ChatController.ExecuteSqlQueryAsWritten` | backend/src/controllers/chatController.ts:134-159 | As written: the database is reached iff the guard with its escape clause passes. The guard's error is returned otherwise. Rows are returned as data, and a database error becomes a failure carrying its message. |
| `ChatController.ExecuteSqlQuery` | backend/src/controllers/chatController.ts:134-159 | The database is reached iff the intended guard passes. The guard's error is returned otherwise. Rows are returned as data, and a database error becomes a failure carrying its message. |
| `ChatController.OnlyEmbedded` | backend/src/controllers/chatController.ts:147 | A keyword whose every candidate occurrence is not followed by its second letter, or runs into a word character, has no standalone occurrence. |
| `ChatController.DeletedAtColumnAllowed` | backend/src/controllers/chatController.ts:142-148 | A query reading the `deleted_at` column passes both the guard as written and the intended one. |
| `ChatController.ClassifierMessages` | backend/src/controllers/chatController.ts:181-185 | The classifier sees at most the last five history messages, in order, then the user's message. |
| `ChatController.LanguageName` | backend/src/controllers/chatController.ts:237-238 | 'az' becomes Azerbaijani, 'en' or nothing becomes English, and any other code stays as it is. |
| `ChatController.ChatWithAI` | backend/src/controllers/chatController.ts:162-317 | A missing message is 400. A missing key or a failed classifier call is 500. Once classified, route 0 always answers the classifier's text or the off-topic text. Routes 1 and 2 without SQL always ask to rephrase. Their SQL reaches the database iff the intended guard passes. When it does and rows come back, route 1 answers with the model's text, the SQL and the rows, or 500 if the answer call failed; route 2 answers with the chart, the SQL and the rows, or 500 if the chart call failed. Any other route always gives the fallback text, with no SQL run. Conversely, a query answer or a chart only ever carries the executed SQL and the rows. |
| `ChatController.FailedQueryReported` | backend/src/controllers/chatController.ts:222-233 | A refused or failed query is answered as text carrying the error, on the classifier's route. |
| `ChatController.EscapeClauseAdmitsDelete` | backend/src/controllers/chatController.ts:144-153 | As written, a query holding a standalone DELETE statement and `_DELETE` anywhere passes the guard, and `executeSqlQuery` as written sends it to the database. |
| `ChatController.StrictSqlGuard` | backend/src/controllers/chatController.ts:136-151 | The intended guard: a query passes only if it starts with SELECT and holds no standalone dangerous keyword, whatever else it contains. |
| `ChatController.StrictRunAgrees` | backend/src/controllers/chatController.ts:134-159 | Any query the intended run sends to the database, the run as written sends too, with the same result. |
| `ChatController.StrictGuardNarrower` | backend/src/controllers/chatController.ts:136-151 | The intended guard only narrows what passes. A query it admits passes the guard as written, and a query the written guard refuses it refuses too. A non-SELECT query gets the same error from both. |
| `ChatController.StrictRefusesDelete` | backend/src/controllers/chatController.ts:144-150 | The intended guard refuses any SELECT query with a standalone DELETE (and no standalone DROP), naming DELETE. |
| `ChatController.StrictGuardRefusesEscapedDelete` | backend/src/controllers/chatController.ts:144-150 | The intended guard refuses the query that the guard as written lets through. |
| `ImportController.ParseLocalDate` | backend/src/controllers/importController.ts:15-21 | A text without '-' is the Invalid Date. Any day produced lies within JavaScript's date range. |
| `ImportController.ParseDateText` | backend/src/controllers/importController.ts:15-21 | Reading back the `YYYY-MM-DD` text of a calendar day with a four-digit year gives that day. |
| `LocalDays.MakeLocalDayInYear` | backend/src/controllers/importController.ts:20 | For a four-digit year and a month index within the year, the JavaScript date is that calendar day. |
| `ImportController.FieldFor` | backend/src/controllers/importController.ts:59-74 | After find-or-create, the row is the first live field of that user and name. The tables are unchanged iff one existed; otherwise exactly one field is appended. |
| `ImportController.PlantTypeFor` | backend/src/controllers/importController.ts:80-93 | The same for plant types by name; a new type is watered every 7 days. |
| `ImportController.BatchFor` | backend/src/controllers/importController.ts:96-114 | The same for live batches of that field, type and name. A new batch is healthy and planted on the record's day, and the store refuses it iff that day is the Invalid Date. |
| `ImportController.IrrigationStep` | backend/src/controllers/importController.ts:119-151 | It fails iff the day is invalid or the batch already has an event on that day (a duplicate, nothing written). Otherwise it adds one completed, imported event and moves the batch's last irrigation to the day. |
| `ImportController.NoteStep` | backend/src/controllers/importController.ts:153-166 | Exactly one note is added on the day: 'disease' iff the record is a problem, with the default text when the record has none. |
| `ImportController.StatusStep` | backend/src/controllers/importController.ts:168-191 | An unchanged status writes nothing. Otherwise the batch takes the status and one history row records it with the previous status. An Invalid Date fails after the batch was updated. |
| `ImportController.EventStep` | backend/src/controllers/importController.ts:118-192 | The switch adds at most one event, note or history row, touches no field, type or job, and never reports missing fields. |
| `ImportController.ImportStep` | backend/src/controllers/importController.ts:52-192 | A record fails as missing fields iff it lacks date, field name or event type, and then writes nothing. A record naming no plant only finds or creates its field. The job table is never touched. |
| `ImportController.ImportStepAddsAtMostOne` | backend/src/controllers/importController.ts:58-192 | One record adds at most one row to each table. |
| `ImportController.IrrigationLeavesEvent` | backend/src/controllers/importController.ts:119-151 | After the irrigation case on a valid day, the batch has an event that day, and no look-up key changed. |
| `ImportController.RepeatedIrrigationIsDuplicate` | backend/src/controllers/importController.ts:119-148 | Importing the same complete irrigation record twice: the second time finds the same rows, writes nothing and fails as a duplicate. |
| `ImportController.ImportAll` | backend/src/controllers/importController.ts:49-203 | Successes plus failures equal the number of records. Every log entry names its own record by a valid index, and the log is in record order. |
| `ImportController.AdvanceLog` | backend/src/controllers/importController.ts:194-202 | One more record keeps that accounting. |
| `ImportController.Advance` | backend/src/controllers/importController.ts:194-202 | A record that went through adds one success. A failed one adds one log entry with its index, the record and the error. |
| `ImportController.ImportAllNext` | backend/src/controllers/importController.ts:49-203 | Each iteration of the loop is one more step of the run. |
| `ImportController.StepAtPrefix` | backend/src/controllers/importController.ts:49-203 | Later records do not change what earlier records did. |
| `ImportController.ImportAllFailuresFailed` | backend/src/controllers/importController.ts:195-201 | Every log entry is a record whose step failed, with that step's error. |
| `ImportController.LoggedIndices` | backend/src/controllers/importController.ts:198 | The logged indices, one per entry, in order. |
| `ImportController.LoggedLast` | backend/src/controllers/importController.ts:194-202 | The last record adds its index to the log iff its step failed. |
| `ImportController.ImportAllFailuresLogged` | backend/src/controllers/importController.ts:194-202 | A record is in the error log iff its step failed. |
| `ImportController.ErrorMessage` | backend/src/controllers/importController.ts:55 | The loop's own errors carry a message with the 1-based record number; a store error has no modelled text. |
| `ImportController.MessageNumbersFromOne` | backend/src/controllers/importController.ts:148 | The message begins with 'Record n: ', where n is the 0-based index plus one. |
| `ImportController.FinishedJob` | backend/src/controllers/importController.ts:205-215 | The job is 'completed' iff no record failed, and never still 'processing'. |
| `ImportController.FindOrCreateField` | backend/src/controllers/importController.ts:59-74 | In place, the store and id become what `FieldFor` gives. |
| `ImportController.FindOrCreatePlantType` | backend/src/controllers/importController.ts:80-93 | In place, the store and id become what `PlantTypeFor` gives. |
| `ImportController.FindOrCreateBatch` | backend/src/controllers/importController.ts:96-114 | In place, the store and id become what `BatchFor` gives; a refused batch writes nothing. |
| `ImportController.RecordEvent` | backend/src/controllers/importController.ts:118-192 | In place, the store and error become what `EventStep` gives. |
| `ImportController.ImportRecordInto` | backend/src/controllers/importController.ts:52-202 | In place, the store and error become what `ImportStep` gives. |
| `ImportController.ImportRecords` | backend/src/controllers/importController.ts:45-203 | The loop leaves the store, success count and error log equal to the run `ImportAll` describes. |
| `ImportController.RunImport` | backend/src/controllers/importController.ts:34-221 | Past the checks: one `processing` job is added, the store ends as the run `ImportAll` describes from that state, and that job is closed with the run's counters and log. The summary carries the job id, the totals and the first 10 errors. |
| `ImportController.ImportData` | backend/src/controllers/importController.ts:23-228 | A missing user or records is 400, with nothing written. Otherwise there is one job, closed with the run's counters and log. The reply has the job id, the totals (successes plus failures equal the total) and at most the first 10 errors. |
| `DashboardPage.KeepsAlert` | frontend/app/page.tsx:56-65 | An alert is kept iff the filter is 'all', or 'critical' with a critical alert, or 'at_risk' with a warning. |
| `DashboardPage.FilteredAlerts` | frontend/app/page.tsx:56-65 | The kept alerts are a subsequence of the feed, holding exactly the alerts the filter keeps. |
| `DashboardPage.FilteredAlertsByFilter` | frontend/app/page.tsx:56-65 | 'all' keeps the feed, 'critical' exactly the critical alerts, 'at_risk' exactly the warnings, and any other value nothing. |
| `DashboardPage.InfoAlertsOnlyUnderAll` | frontend/app/page.tsx:57-64 | An info alert is shown only under 'all'. |
| `DashboardPage.FilteredStats` | frontend/app/page.tsx:68-74 | The stats are absent iff none arrived. The problem count is the number of filtered alerts. The total is the server's under 'all', and otherwise the count of the first group with the filter's status, or 0. |
| `DashboardPage.FilteredStatsOfGroup` | frontend/app/page.tsx:70-72 | With one group per status, a filter naming a group shows that group's count. |
| `DashboardPage.Greeting` | frontend/app/page.tsx:77-82 | Morning iff before 12, afternoon iff 12 to 17, evening iff 18 or later. |
| `DashboardPage.GreetingAdvances` | frontend/app/page.tsx:77-82 | Through the day the greeting only moves forward. |
| `DashboardPage.ShownAlerts` | frontend/app/page.tsx:361 | The first min(5, n) filtered alerts, as a prefix of the filtered list. |
| `ChatPage.CloseFrom` | frontend/app/chat/page.tsx:58 | The lazy `.*?\*\*` ends at the first `**` with no line terminator before it. |
| `ChatPage.MatchAt` | frontend/app/chat/page.tsx:58 | A match is at least four characters and a bold match piece. |
| `ChatPage.FirstMatchFrom` | frontend/app/chat/page.tsx:58 | The global regex starts at the leftmost position where a match begins. |
| `ChatPage.BoldSplit` | frontend/app/chat/page.tsx:58 | The split has an odd number of pieces, alternating text and matches, and every odd piece is a bold match. |
| `ChatPage.BoldSplitLossless` | frontend/app/chat/page.tsx:58 | The pieces concatenated give back the line. |
| `ChatPage.RenderPart` | frontend/app/chat/page.tsx:59-63 | A part is bold iff it starts and ends with `**`. Bold shows the text between the markers (nothing for a part under four characters); plain shows the part as it is. |
| `ChatPage.RenderParts` | frontend/app/chat/page.tsx:59-64 | Each part is rendered in place. |
| `ChatPage.BoldMatchesShownBold` | frontend/app/chat/page.tsx:58-63 | Every match is shown bold, and writing it back gives the match. |
| `ChatPage.RenderPartsKeepText` | frontend/app/chat/page.tsx:58-64 | Without a lone `**` or `***` part, the rendered parts written back as Markdown give the line. |
| `ChatPage.LoneMarkersVanish` | frontend/app/chat/page.tsx:58-63 | A line holding only `**` is shown as an empty bold element. |
| `ChatPage.HeadingPrefixesExclusive` | frontend/app/chat/page.tsx:43-51 | The three heading prefixes exclude one another. |
| `ChatPage.RenderLine` | frontend/app/chat/page.tsx:41-71 | A heading of level 3, 2 or 1 iff the line has that prefix, showing the rest. A bullet iff it starts with '- ' or '• ' and is not a heading. Otherwise a span, with a newline iff the line is not the last. |
| `ChatPage.RenderMarkdown` | frontend/app/chat/page.tsx:37-72 | One block per line of the split, in order; only the last span goes without a newline. |
| `ChatPage.PlainLineKeepsText` | frontend/app/chat/page.tsx:54-70 | A plain line without lone markers is rendered without losing a character. |
| `ChatPage.RenderedLinesAreTheText` | frontend/app/chat/page.tsx:39 | The rendered lines joined with newlines give back the answer. |
| `ChatPage.TrimmedText` | frontend/app/chat/page.tsx:87 | `trim` leaves a piece of the input with no whitespace at either end, and nothing for all-whitespace input. |
| `ChatPage.TextToSend` | frontend/app/chat/page.tsx:87 | A suggestion is sent as it is. Typed input is sent as the part of it without whitespace at its ends, and an all-whitespace input sends nothing. |
| `ChatPage.HistoryOf` | frontend/app/chat/page.tsx:108-111 | The history is the last min(10, n) messages, in order, reduced to role and content. |
| `ChatPage.AssistantMessage` | frontend/app/chat/page.tsx:117-141 | The added message is never empty. An error status shows the server's error or 'Failed to get response'; a failed request shows its own message; both go inside the fixed wording. A text answer shows its content or the apology. A chart carries its HTML with the apology as text. |
| `ChatPage.ClassifierSeesLastFive` | frontend/app/chat/page.tsx:108-111 | Together with the back end, the classifier sees the last five messages of the conversation, then the one being sent. |
| `ChatPage.ChatSession.constructor` | frontend/app/chat/page.tsx:30-32 | A new page has no messages, an empty input and is not loading. |
| `ChatPage.ChatSession.Send` | frontend/app/chat/page.tsx:86-113 | Nothing happens, and no request is made, iff the text is empty or an answer is awaited. Otherwise the request carries the text and the last ten earlier messages. The user's message is appended, the input cleared and the page marked as loading. |
| `ChatPage.ChatSession.Receive` | frontend/app/chat/page.tsx:115-148 | The answer or error message is appended and loading ends; the input is left as it is. |
| `ChatPage.ChatSession.SendMessage` | frontend/app/chat/page.tsx:86-149 | A whole send adds exactly the user's message and then the reply, and leaves the page ready for the next message. When nothing can be sent, nothing changes. |

## Left out

- Time zones and daylight saving are not modelled. Dates are whole local days and "today" is a parameter. A DST change between the due day and today makes the source's `Math.floor` one day short, and the model does not show this.
- The time of day that `parseLocalDateTime` stamps on imported dates is dropped, and the duplicate-irrigation check compares days. The scheduled date is stored as a date column. Whether the check's look-up also drops the time of day depends on how the database client binds a date parameter, and that is not modelled.
- `toUpperCase` is modelled on ASCII letters only, not the full Unicode case mapping.
- `Number` on a date part is modelled on plain digit strings and the empty string. Signs, spaces, decimals and exponents read as NaN (`None`).
- The grouping by field, the field names and `notes_last_7_days` of the statistics endpoint are not modelled. `plants_by_status` is not modelled on the back end; the page takes it as given.
- The `include`d relations of the batch detail are not modelled: status history, events and notes.
- Users and their foreign keys are not modelled. A user is a non-empty string, and a field belongs to a user by that string.
- `created_at` ordering is taken to be insertion order, and `findFirst` returns the first match in store order. A `findMany` without `orderBy` returns an unspecified order; the model takes store order. This covers the batch queries of `getRecentAlerts` (whose `take: 50` and `take: 20` keep the first rows in that order) and of `getOverdueIrrigation` and `getDashboardStats`.
- The language model, the database pool and the browser's `fetch` are not modelled. What they return is a parameter.
- Prompt texts, the database schema text and the chat suggestions endpoint are not modelled.
- A classifier answer that is not valid JSON makes `JSON.parse` throw (backend/src/controllers/chatController.ts:190), and the handler answers 500 (lines 310-316). The model treats it as a failed classifier call (`classification` is `None`).
- Neither `createPlantBatch` nor the import checks `irrigation_frequency_days`, and the model leaves the frequency unconstrained.
- In the import, an empty `note` is stored as absent. A `null` element of `records` is not modelled; it would make the source throw before the required-field check.
- A failure to create or update the import job, which would make `importData` answer 500, is not modelled.
- The message text of an error thrown by the store during an import (`StoreRejected`) is not modelled.
- Message ids, timestamps, the toast, focus and scrolling of the chat page are not modelled.
- The chat page's `sendMessage` runs in two halves, `Send` and `Receive`. No other event is interleaved while a request is in flight, except what `SendMessage` states about `input`.
- `ChatController.DeletedAtColumnAllowed`: stated for one query, `SELECT DELETED_AT FROM T`, not for every query that uses the column.
- `ChatController.ExecuteSqlQuery`: uses the intended guard `ChatController.StrictSqlGuard`, not the escape clause of the code, per the finding below. So `ChatController.ChatWithAI` uses it too. The guard as written is `ChatController.SqlGuard`, and the run as written is `ChatController.ExecuteSqlQueryAsWritten`.

## Findings

| source | as written | input that shows it | evidently intended | confidence | as-written member | corrected member |
|---|---|---|---|---|---|---|
| backend/src/controllers/chatController.ts:144-151 | A keyword blocks only if the query contains neither `K_` nor `_K` anywhere. So one `_DELETE` (in a comment, say) waives the DELETE check for the whole query. | `SELECT 1; DELETE FROM T; -- _DELETE` passes the guard and reaches the database. | A standalone dangerous keyword is always refused; identifiers such as `deleted_at` are still allowed. | not executed | `ChatController.EscapeClauseAdmitsDelete` | `ChatController.StrictGuardRefusesEscapedDelete` |
