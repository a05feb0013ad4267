# EmploAI core, modelled in Dafny

EmploAI is a web app for running a team of AI "employees". A user creates
employees with an expertise and a gender. The user chats with them and the
replies stream back from a chat function. The user also creates tasks,
verifies them and watches a few dashboard counters. This project models the
logic of that app that can be stated exactly, and proves what it promises.

The logic covered:

- the two event-stream decoders of the chat pages, with their send actions;
- the priority board's lane grouping;
- the chat gateway's prompt assembly and request shaping;
- the task verifier and task history screens;
- the employee table screens (create dialog, grid with soft delete, manager card, dashboard counters, employee card);
- the audit and OpenAI functions and the two small client libraries that call functions.

Each source file is one module:

| module | file | form |
|---|---|---|
| `BufferedSse`, `EmployeeChat` | src/pages/Employee.tsx | imperative: the read loop and the inner line loop are `while` loops over a text buffer; the page is a class |
| `ChunkSse`, `MessagingPage` | src/pages/AIMessaging.tsx | imperative: a loop over chunks and a loop over the pieces of each chunk; the page is a class |
| `PriorityBoard` | src/components/PriorityBoard.tsx | mixed: the push loop and an in-place sort of each lane are methods; the comparator is a function |
| `ChatGateway` | supabase/functions/chat/index.ts | mixed: the prompt grown by `+=` and the detail list grown by `push` are methods; lookup and mapping are functions |
| `TaskVerifier`, `TaskHistory`, `CreateEmployeeDialog`, `EmployeeCard` | the screens of the same names | mixed: a class holds the screen's state; payloads and display mappings are functions |
| `EmployeeGrid` | src/components/EmployeeGrid.tsx | imperative: the soft delete updates one row of an `array` in place |
| `ManagerCard`, `DashboardInsights` | the components of the same names | pure |
| `AuditFunction`, `OpenAiFunction` | supabase/functions/audit/index.ts, supabase/functions/openai/index.ts | pure request/response mapping |
| `AiClient`, `AuditClient` | src/lib/ai.ts, src/lib/audit.ts | pure request construction |

Shared modules:

- `Base` holds `Option` and the JavaScript string operations the code uses: `trim`, `startsWith`, `endsWith`, `indexOf`, `split("\n")`, `toLowerCase` and `includes`. It also holds a left-to-right `Filter`.
- `Rows` holds the table rows and the closed enums of the database types.
- `Sorting` holds a stable insertion sort, as a function and as an in-place array method, with the ordering and permutation lemmas.
- `Queries` holds database reads. Each is a filter, then a stable sort, then a `limit`, over an in-memory sequence of rows.
- `Transcript` holds the chat messages and the placeholder update shared by both chat pages.

Everything outside the program becomes a parameter:

- `JSON.parse` of a `data: ` payload, followed by reading `choices[0].delta.content`, is a function parameter `parse`.
- Database results and errors, `fetch` results, generated ids and the clock are parameters. Times are integers.
- A toast is recorded by its description text in a `toasts` field.
- A row written to a table is returned, or recorded in a field such as `persisted`.
- A rejected `fetch` is a response alternative carrying the error's message.

Four behaviours of the code that the model keeps as they are:

- the priority board matches priorities exactly: `"high"` or `"p1"` goes to no lane;
- the audit function answers 500 with the database's message when the insert fails;
- the OpenAI function always asks for a non-streaming completion;
- the audit client rethrows a network failure, while a non-OK answer is only logged.

## Model

| member | source | states |
|---|---|---|
| `Base.ErrorText` | src/components/EmployeeGrid.tsx:42 | `error.message \|\| fallback`: a non-empty message is shown as is, an empty one shows exactly the fallback, and the text shown is never empty when the fallback is not |
| `Base.TrimEmptyIff` | src/components/CreateEmployeeDialog.tsx:52 | `trim()` gives `""` exactly for strings made only of JavaScript white space |
| `Base.TrimEdges` | src/components/CreateEmployeeDialog.tsx:65 | a non-empty trimmed name neither starts nor ends with white space |
| `Sorting.SortInPlace` | src/components/PriorityBoard.tsx:67-74 | the in-place array sort leaves the array equal to the stable sort of its old contents |
| `Sorting.SortPermutes` | src/components/PriorityBoard.tsx:67-74 | sorting only reorders: the result is a permutation of the input |
| `Sorting.SortSorted` | src/components/PriorityBoard.tsx:67-74 | under a consistent comparator the result is in order |
| `Sorting.SortKeepsSorted` | src/components/PriorityBoard.tsx:67-74 | a sequence already in order is left exactly as it is |
| `Sorting.SortStable` | src/components/PriorityBoard.tsx:67-74 | the sort is stable: ordering by a key, ascending or descending, keeps the elements that share a key value in their input order |
| `Sorting.SortIdempotent` | src/components/PriorityBoard.tsx:67-74 | sorting twice gives the same order as sorting once |
| `Sorting.KeyOrderConsistent` | src/components/ManagerCard.tsx:37 | ordering by a key, ascending or descending, is a consistent comparator |
| `Sorting.SortDescending` | src/components/EmployeeGrid.tsx:35 | `ORDER BY key DESC` keeps every row and lists the largest keys first |
| `Sorting.SortAscending` | src/components/ManagerCard.tsx:37 | `ORDER BY key ASC` keeps every row and lists the smallest keys first |
| `Queries.Take` | src/components/TaskHistory.tsx:79 | `.limit(n)` gives a prefix of the rows: all of them when fewer than n, otherwise exactly n |
| `Queries.OwnTasksSpec` | src/components/PriorityBoard.tsx:35-39 | the user's task list holds exactly the rows the user created, each as often as stored, newest first |
| `Queries.NewestHeadsList` | src/pages/TaskVerifier.tsx:57-58 | a task strictly newer than every other task of its creator is first in that creator's list |
| `Transcript.ShowContentAgain` | src/pages/Employee.tsx:207-211 | replacing the placeholder's content with the new accumulated text keeps every other message unchanged |
| `BufferedSse.DecodeStream` | src/pages/Employee.tsx:184-218 | the outer read loop returns the reply `Decode` defines for the chunks; the placeholder shows the whole reply and no other message changes |
| `BufferedSse.DrainLines` | src/pages/Employee.tsx:191-217 | the inner line loop on one buffer ends in the buffer and reply that one `Drain` step defines, with the placeholder kept up to date |
| `BufferedSse.DrainStep` | src/pages/Employee.tsx:192-216 | one complete line: skipped lines and deltas go on with the rest of the buffer; `[DONE]` stops after the line; a failed parse puts the line and `"\n"` back in front of the buffer |
| `BufferedSse.FeedOne` | src/pages/Employee.tsx:188-191 | one chunk is appended to the buffer, and the buffer is then drained |
| `BufferedSse.ClassifyIgnoresCR` | src/pages/Employee.tsx:195-199 | the line decision is the same whether or not the one trailing `\r` is cut first |
| `BufferedSse.StartsWithStripCR` | src/pages/Employee.tsx:195-197 | cutting a trailing `\r` never changes whether a line starts with `:` or `data: ` |
| `BufferedSse.TrimStripCR` | src/pages/Employee.tsx:195-199 | cutting a trailing `\r` never changes the trimmed payload |
| `BufferedSse.LinesUnlines` | src/pages/Employee.tsx:191-193 | cutting at each first `\n` gives back exactly the lines that were joined, whatever follows them |
| `BufferedSse.DrainConsumes` | src/pages/Employee.tsx:191-217 | when every payload parses, a drain consumes whole lines from the front and adds exactly their text; it stops with complete lines left only after `[DONE]` |
| `BufferedSse.FeedCollects` | src/pages/Employee.tsx:184-218 | when every payload parses and nothing follows `[DONE]`, the reply grows by exactly the text of the remaining complete lines |
| `BufferedSse.DecodeCollects` | src/pages/Employee.tsx:184-218 | under the same conditions, the reply is the in-order text of the deltas of all complete lines of the stream |
| `BufferedSse.DecodeCompleteLines` | src/pages/Employee.tsx:184-218 | a final fragment with no `\n` is never read |
| `BufferedSse.DecodeIgnoresChunking` | src/pages/Employee.tsx:184-218 | two chunkings of the same stream give the same reply |
| `BufferedSse.MalformedStalls` | src/pages/Employee.tsx:213-216 | a complete line that fails to parse is put back and read again at every later chunk, so nothing after it is added |
| `BufferedSse.DoneHoldsBackRest` | src/pages/Employee.tsx:184-200 | `[DONE]` ends only the current buffer pass: the lines after it are kept and read when the next chunk arrives, even an empty one |
| `EmployeeChat.Outgoing` | src/pages/Employee.tsx:151-154 | the request transcript is the prior messages, role and content, followed by the user's message |
| `EmployeeChat.EmployeePage.constructor` | src/pages/Employee.tsx:121-126 | the page starts with the loaded transcript, an empty input, nothing sent and nothing persisted |
| `EmployeeChat.EmployeePage.SetInput` | src/pages/Employee.tsx:122-125 | typing changes only the input |
| `EmployeeChat.EmployeePage.HandleSend` | src/pages/Employee.tsx:121-234 | a no-op without trimmed text, conversation or employee. Otherwise the input is cleared and the trimmed message is stored first. A failed store shows only its error. Otherwise the request is prior messages plus the message, and the reply is decoded and stored as one assistant row. A non-OK or bodyless response stores no assistant row and shows "Failed to get AI response"; a rejected `fetch` stores none and shows its own message |
| `EmployeeChat.EmployeePage.Converse` | src/pages/Employee.tsx:139-224 | the user row and message are added, then the request is made, then the placeholder is streamed and the assistant row stored with the decoded reply, even an empty one |
| `ChunkSse.DecodeStream` | src/pages/AIMessaging.tsx:114-145 | the read loop returns the reply `Decode` defines for the chunks; the placeholder shows the whole reply and no other message changes |
| `ChunkSse.DecodeChunk` | src/pages/AIMessaging.tsx:119-144 | one chunk is split on `\n` on its own, and its pieces' texts are added in order |
| `ChunkSse.ChunkJoin` | src/pages/AIMessaging.tsx:119-120 | the text on the two sides of a `\n` inside a chunk is decoded independently |
| `ChunkSse.DecodeAppend` | src/pages/AIMessaging.tsx:114-145 | with no buffer carried over, the reply to two runs of chunks is the two replies joined |
| `ChunkSse.DoneAddsNothing` | src/pages/AIMessaging.tsx:125 | a `data: [DONE]` line adds no text |
| `ChunkSse.DoneSkipped` | src/pages/AIMessaging.tsx:125 | after `data: [DONE]` the following pieces of the chunk are still decoded |
| `ChunkSse.MalformedSkipped` | src/pages/AIMessaging.tsx:140-142 | a `data: ` piece that fails to parse is dropped and decoding goes on |
| `ChunkSse.SplitLineLost` | src/pages/AIMessaging.tsx:119-124 | a `data:` line split across two chunks contributes nothing, though the joined line would be decoded |
| `MessagingPage.AsTurns` | src/pages/AIMessaging.tsx:87-90 | role `"user"` stays `"user"` and every other role becomes `"assistant"`; contents and order are kept |
| `MessagingPage.AsTurnsAppend` | src/pages/AIMessaging.tsx:87-90 | the role mapping works message by message, so it distributes over concatenation |
| `MessagingPage.Find` | src/pages/AIMessaging.tsx:76 | `find` gives the first employee with the id, and nothing exactly when no employee has it |
| `MessagingPage.ExpertiseFor` | src/pages/AIMessaging.tsx:91 | the selected employee's expertise, or `"Technology"` when there is no such employee or its expertise is empty |
| `MessagingPage.AIMessagingPage.constructor` | src/pages/AIMessaging.tsx:61-71 | the page starts with its employees, nothing selected, no messages and nothing sent |
| `MessagingPage.AIMessagingPage.HandleSend` | src/pages/AIMessaging.tsx:61-157 | a no-op without trimmed text, a selected employee, or while sending. Otherwise the untrimmed message is appended before the request and stays on failure. The request maps roles, falls back to Technology and sends empty memory. Nothing is persisted |
| `MessagingPage.AIMessagingPage.Receive` | src/pages/AIMessaging.tsx:97-153 | a non-OK response or a rejected `fetch` adds only the fixed error toast; otherwise the placeholder is added and shows the decoded reply |
| `PriorityBoard.LaneOfExact` | src/components/PriorityBoard.tsx:62-66 | a task goes to lane P1, P2 or P3 exactly when its priority is that string, compared case-sensitively; null goes to the `null` lane |
| `PriorityBoard.PushAppends` | src/components/PriorityBoard.tsx:63-66 | the grouping step appends the task to its own lane and leaves the other lanes alone |
| `PriorityBoard.PushAll` | src/components/PriorityBoard.tsx:63-66 | after the loop each lane holds the tasks of that priority, in input order |
| `PriorityBoard.SortLane` | src/components/PriorityBoard.tsx:68-73 | one lane's array is sorted in place by the board's comparator |
| `PriorityBoard.GroupLanes` | src/components/PriorityBoard.tsx:61-76 | the grouping then the sort of each lane gives the board's lanes |
| `PriorityBoard.Rank` | src/components/PriorityBoard.tsx:28 | `priorityOrder[p \|\| "P3"] ?? 2` is 0 exactly for `"P1"`, 1 exactly for `"P2"`, and 2 for every other priority, null included, except inherited property names (see Left out) |
| `PriorityBoard.CompareConsistent` | src/components/PriorityBoard.tsx:68-73 | rank ascending, then creation time descending, is a consistent comparator |
| `PriorityBoard.SameLaneCompare` | src/components/PriorityBoard.tsx:69-72 | two tasks of one lane share a rank, so they are compared by creation time |
| `PriorityBoard.LaneContents` | src/components/PriorityBoard.tsx:62-74 | each lane is a permutation of the tasks of that priority, and a task is in a lane exactly when its priority names it |
| `PriorityBoard.AtMostOneLane` | src/components/PriorityBoard.tsx:62-66 | no task is in two lanes |
| `PriorityBoard.UnrankedHidden` | src/components/PriorityBoard.tsx:142-144 | a task whose priority is not exactly P1, P2 or P3 is in none of the three rendered lanes |
| `PriorityBoard.LaneOrder` | src/components/PriorityBoard.tsx:67-74 | within a lane, tasks are newest first, and sorting the lane again changes nothing |
| `PriorityBoard.InLaneSnoc` | src/components/PriorityBoard.tsx:63-66 | adding a task to the input adds it at the end of its own lane only |
| `PriorityBoard.Board.FetchTasks` | src/components/PriorityBoard.tsx:34-42 | a successful read replaces the list with the user's tasks, newest first, whatever their status; a failed read keeps the old list; loading always ends |
| `PriorityBoard.InheritedKeyThrows` | src/components/PriorityBoard.tsx:64-65 | as written, an inherited key such as `"toString"` makes the step throw; the corrected step skips the task |
| `PriorityBoard.PushAgrees` | src/components/PriorityBoard.tsx:64-65 | for every other priority the corrected step is the step as written |
| `ChatGateway.PersonaFor` | supabase/functions/chat/index.ts:310-311 | a known expertise key selects its own persona; any other key, or none, selects Technology |
| `ChatGateway.PersonaLookup` | supabase/functions/chat/index.ts:310-311 | every persona is found under its own key |
| `ChatGateway.PushDetail` | supabase/functions/chat/index.ts:316-324 | a truthy field adds its heading line to the detail list; a missing or empty one adds nothing |
| `ChatGateway.CollectCompanyDetails` | supabase/functions/chat/index.ts:315-324 | the nine pushes give one line per truthy field, in the fixed field order |
| `ChatGateway.AppendCompany` | supabase/functions/chat/index.ts:314-329 | the company block is appended only when company details were sent with some truthy field |
| `ChatGateway.CompanyBlockPresent` | supabase/functions/chat/index.ts:314-329 | the company block is there exactly when at least one of the nine fields is truthy |
| `ChatGateway.RosterLines` | supabase/functions/chat/index.ts:333-336 | one roster line per employee, in order, as name, expertise, level, role and offer-letter suffix |
| `ChatGateway.MemoryLines` | supabase/functions/chat/index.ts:342-344 | one line per memory item, prefixed with `[name]: ` when the item has an employee name |
| `ChatGateway.OptionalBlocks` | supabase/functions/chat/index.ts:332-346 | the roster and knowledge blocks are there exactly when their lists are non-empty |
| `ChatGateway.BuildSystemPrompt` | supabase/functions/chat/index.ts:310-349 | the `+=` sequence gives the persona, then the company, roster and knowledge blocks, then the formatting instruction |
| `ChatGateway.PromptFrame` | supabase/functions/chat/index.ts:310-349 | the prompt always starts with the selected persona text and ends with the formatting instruction |
| `ChatGateway.AnyMessageAsks` | supabase/functions/chat/index.ts:352-370 | any one message, not only the last, that mentions an image phrase turns image mode on |
| `ChatGateway.NonTextNeverAsks` | supabase/functions/chat/index.ts:354-369 | a message whose content is not a string never changes image mode |
| `ChatGateway.MentionsImageIgnoresCase` | supabase/functions/chat/index.ts:355-366 | the phrases are matched on the lowercased text, so case does not matter |
| `ChatGateway.GatewayBody` | supabase/functions/chat/index.ts:372-381 | the system message comes first, then the client's messages unchanged, with streaming on; the image model and the modalities are set exactly in image mode |
| `ChatGateway.MapReply` | supabase/functions/chat/index.ts:392-415 | OK passes the stream through; 429 and 402 keep their status and message; any other failure becomes 500 "AI gateway error"; a rejected `fetch` gets 500 with its message |
| `ChatGateway.Handle` | supabase/functions/chat/index.ts:292-422 | OPTIONS gets the preflight. An unreadable body gets 500 with the exception's message. Missing messages or a missing key get 500 with their message and no gateway call. Otherwise the gateway gets the assembled prompt and the reply is mapped |
| `TaskVerifier.VerdictUpdate` | src/pages/TaskVerifier.tsx:66-69 | approve writes completed with the current time; reject writes pending with no completion time; the notes are not part of it |
| `TaskVerifier.ApplyUpdate` | src/pages/TaskVerifier.tsx:64-70 | only the rows whose id is the task's id take the new status and completion time; every other row is unchanged |
| `TaskVerifier.WrittenRowsConsistent` | src/pages/TaskVerifier.tsx:66-70 | every written row has a completion time exactly when its status is completed |
| `TaskVerifier.PanelsExact` | src/pages/TaskVerifier.tsx:119-232 | the panels hold exactly the pending and exactly the completed tasks; no task is in both, and other statuses are in neither |
| `TaskVerifier.VerdictMovesTask` | src/pages/TaskVerifier.tsx:63-87 | after a verdict and the refetch, the task is in the completed panel when approved and in the pending panel when rejected |
| `TaskVerifier.VerifierPage.constructor` | src/pages/TaskVerifier.tsx:28-31 | the page starts with no tasks, no selection and empty notes |
| `TaskVerifier.VerifierPage.FetchTasks` | src/pages/TaskVerifier.tsx:47-61 | a successful read replaces the list with the user's tasks, newest first; a failed read keeps it |
| `TaskVerifier.VerifierPage.Select` | src/pages/TaskVerifier.tsx:131 | selecting a task changes only the selection |
| `TaskVerifier.VerifierPage.SetNotes` | src/pages/TaskVerifier.tsx:186 | typing notes changes only the notes |
| `TaskVerifier.VerifierPage.HandleVerify` | src/pages/TaskVerifier.tsx:63-87 | on error only the failure toast is added. On success, the update is written and the verdict toast shown; the selection and notes are cleared; with a user the list is read again |
| `TaskHistory.CreatePayload` | src/components/TaskHistory.tsx:102-109 | the insert is pending, created by the user, copies title, description and priority, and has no assignee exactly when the assignee string is empty |
| `TaskHistory.RecentTasksSpec` | src/components/TaskHistory.tsx:67-79 | the card lists the ten newest of the user's own tasks, or all of them when there are fewer, newest first; no own task left out is newer than a listed one |
| `TaskHistory.CreatedTaskFirst` | src/components/TaskHistory.tsx:99-131 | a task created after all the user's others heads the list read after creation |
| `TaskHistory.StatusBadgeCases` | src/components/TaskHistory.tsx:144-151 | completed maps to default, pending to secondary, in_progress and every unknown status to outline |
| `TaskHistory.PriorityColorCases` | src/components/TaskHistory.tsx:153-160 | high, medium and low map to red, yellow and green, case-sensitively; everything else, `"P1"` included, is gray |
| `TaskHistory.HistoryCard.constructor` | src/components/TaskHistory.tsx:49-60 | the card starts loading, with no tasks, the dialog closed and the blank form |
| `TaskHistory.HistoryCard.FetchTasks` | src/components/TaskHistory.tsx:67-85 | a successful read replaces the list with the recent tasks; a failed read keeps it; loading ends |
| `TaskHistory.HistoryCard.Edit` | src/components/TaskHistory.tsx:166-220 | typing into the form or toggling the dialog changes only the form and the dialog |
| `TaskHistory.HistoryCard.HandleCreateTask` | src/components/TaskHistory.tsx:99-131 | no check is made before the insert. On error only the failure toast is added, and the form and dialog are kept. On success the row is stored, the dialog closes, the form resets to the blank form and the list is read again |
| `CreateEmployeeDialog.OptionsAreEnums` | src/components/CreateEmployeeDialog.tsx:23-36 | the six expertise choices and the three gender choices are exactly the stored enum values |
| `CreateEmployeeDialog.BlankNameRefused` | src/components/CreateEmployeeDialog.tsx:52-65 | a white-space-only name is refused, and an accepted name trims to a non-empty name without surrounding white space |
| `CreateEmployeeDialog.Dialog.constructor` | src/components/CreateEmployeeDialog.tsx:44-48 | the dialog starts with empty fields and not loading |
| `CreateEmployeeDialog.Dialog.Fill` | src/components/CreateEmployeeDialog.tsx:109-130 | filling the fields changes only the fields |
| `CreateEmployeeDialog.Dialog.HandleCreate` | src/components/CreateEmployeeDialog.tsx:51-91 | an incomplete form gets "Please fill in all fields" and no insert. Otherwise the insert has the user id, trimmed name, gender and expertise only. Success resets the fields and closes the dialog; an error keeps them and shows the error text |
| `EmployeeGrid.SoftDeleted` | src/components/EmployeeGrid.tsx:56-59 | the rows with the id get a deletion time; no row is removed and every other row is unchanged |
| `EmployeeGrid.SoftDelete` | src/components/EmployeeGrid.tsx:56-59 | the in-place update leaves the table equal to `SoftDeleted` of its old contents |
| `EmployeeGrid.ListingExact` | src/components/EmployeeGrid.tsx:30-35 | the listing holds exactly the user's rows with no deletion time, each as often as stored, newest first |
| `EmployeeGrid.DeleteHidesOnlyThatEmployee` | src/components/EmployeeGrid.tsx:54-68 | after a soft delete, the deleted employee is not listed, and every other listed employee still is |
| `EmployeeGrid.Grid.constructor` | src/components/EmployeeGrid.tsx:24-26 | the grid starts loading, with no employees |
| `EmployeeGrid.Grid.FetchEmployees` | src/components/EmployeeGrid.tsx:28-48 | a successful read replaces the list with the listing; an error keeps it and shows the error text; loading ends |
| `EmployeeGrid.Grid.HandleDelete` | src/components/EmployeeGrid.tsx:54-76 | an error leaves the table and list and shows the error text. Otherwise the row is soft-deleted, "removed" is shown and the list is read again |
| `ManagerCard.ManagerChosen` | src/components/ManagerCard.tsx:31-42 | no manager exactly when the user has no live manager row; otherwise the chosen one is a live manager of the user created no later than any other |
| `ManagerCard.DeletedManagerNotChosen` | src/components/ManagerCard.tsx:36-38 | a manager removed by the grid's soft delete is never the one shown |
| `DashboardInsights.FailedCountsZero` | src/components/DashboardInsights.tsx:11-32 | a failed count is 0, so when every query fails the stats stay as they started |
| `DashboardInsights.TaskCountsExact` | src/components/DashboardInsights.tsx:23-24 | tasks are counted by exact status and creator; a task with another status or creator changes neither count, and the two counts never exceed the tasks |
| `DashboardInsights.CountsDisjoint` | src/components/DashboardInsights.tsx:23-24 | the completed and pending counts never overlap |
| `DashboardInsights.AsWrittenMissesConversation` | src/components/DashboardInsights.tsx:22 | as written, a conversation with one of the user's employees is not counted |
| `DashboardInsights.OwnConversationCounted` | src/components/DashboardInsights.tsx:22 | with the corrected filter, the same conversation raises the count by one |
| `DashboardInsights.ActiveConversationsExample` | src/components/DashboardInsights.tsx:22 | one user, one employee, one conversation with that employee: 0 as written, 1 corrected |
| `EmployeeCard.GenderLabel` | src/components/EmployeeCard.tsx:36-40 | "Male" exactly for `"male"`, "Female" exactly for `"female"`, "Other" for every other value |
| `EmployeeCard.StoredGenderLabels` | src/components/EmployeeCard.tsx:36-40 | the stored genders show as Male, Female and Other (neutral) |
| `EmployeeCard.Card.constructor` | src/components/EmployeeCard.tsx:42-44 | the card starts with the dialog closed and no delete call |
| `EmployeeCard.Card.AskRemove` | src/components/EmployeeCard.tsx:82 | the remove button opens the dialog and calls nothing |
| `EmployeeCard.Card.Confirm` | src/components/EmployeeCard.tsx:102-106 | confirming calls `onDelete` once with this employee's id, then closes the dialog |
| `EmployeeCard.Card.Cancel` | src/components/EmployeeCard.tsx:92-101 | cancelling closes the dialog and calls nothing |
| `AuditFunction.Handle` | supabase/functions/audit/index.ts:20-45 | OPTIONS gets 200. An unparsable body gets 500 with its message. A missing required field gets 400 "invalid event". A valid event without url or key gets 500 "missing service config". A row is inserted exactly for a valid event with configuration. An insert error gets 500 with its message; success gets 200 with the time |
| `AuditFunction.RowCopiesEvent` | supabase/functions/audit/index.ts:35-36 | the row copies the event: its time or the current time, organisation and details or null, and both hashes null |
| `AuditFunction.MissingConfigRefused` | supabase/functions/audit/index.ts:25-32 | for any missing or empty url or service key, a valid event gets 500 "missing service config" and nothing is inserted, whatever the insert would have done; an invalid event still gets 400 first |
| `AuditClient.Posted` | src/lib/audit.ts:18 | the posted event keeps every field and fills in the current time only when none was given |
| `AuditClient.AppendAudit` | src/lib/audit.ts:13-24 | a non-OK answer is only logged; a network failure is rethrown |
| `AuditClient.AuditTaskViewed` | src/lib/audit.ts:26-28 | the event is actor = user, entity "task" with the task id, action "view", stamped with the current time |
| `AuditClient.ClientEventStored` | src/lib/audit.ts:13-24 | a client event with non-empty fields is accepted by the audit function, and its row keeps the client's fields and time |
| `AuditClient.TaskViewedValid` | src/lib/audit.ts:26-28 | a viewed-task event from a signed-in user always passes the function's validation |
| `OpenAiFunction.FailureStatus` | supabase/functions/openai/index.ts:47 | `upstream.status \|\| 502` is never 0 and keeps any non-zero status |
| `OpenAiFunction.Handle` | supabase/functions/openai/index.ts:10-62 | OPTIONS gets 200. A missing key gets 500 before any call. Non-array messages get 400. An unreadable body gets 500 with its message. Otherwise the upstream call never streams. A failure passes the upstream status and detail on; a rejected `fetch` gets 500 with its message; success returns the content |
| `OpenAiFunction.RequestDefaults` | supabase/functions/openai/index.ts:22-41 | the model defaults to gpt-4o-mini and the temperature to 0.7; given values are sent as they are |
| `OpenAiFunction.SuccessContent` | supabase/functions/openai/index.ts:44-55 | success returns the completion text, or `""` when there is none; status 0 becomes 502 |
| `AiClient.CallAI` | src/lib/ai.ts:1-35 | both routes send the publishable key as `apikey`, the bearer token, the messages and the abort signal; the OpenAI body is used exactly for provider "openai" |
| `AiClient.Routes` | src/lib/ai.ts:9-34 | "openai" goes to the OpenAI function with the fixed model and temperature. Every other provider goes to the chat function, with expertise defaulting to Technology and memory to empty |
| `AiClient.BearerFallback` | src/lib/ai.ts:16-17 | the bearer token is the session token when it is non-empty, the publishable key otherwise |

## Left out

- Network, storage and auth I/O are not performed. Every Supabase call, `fetch` and `reader.read` is replaced by its result, given as a parameter.
  - The realtime channel of the priority board (src/components/PriorityBoard.tsx:47-58) is left out; it only triggers `fetchTasks` again.
  - A `reader.read` that fails mid-stream is not modelled.
- Promise concurrency is not modelled. That covers `Promise.all` in the dashboard and the refetches that are not awaited. Each refetch is taken to complete before the next user action.
- `JSON.parse` is a function parameter. `TextDecoder` is the identity on strings, and times are integers. The `RangeError` that `toISOString` throws on a time out of range is not modelled.
- The persona prompt bodies, and the guidance paragraphs closing each prompt block, are stand-in constants. Only their selection and their order are modelled.
- `Base.ToLower` folds ASCII letters only. `toLowerCase` also folds other Unicode letters.
- `ORDER BY` ties: the model keeps table order between rows with equal times. The database gives no order for ties.
- The page reload after an employee is created (`window.location.reload`) is left out.
- The employee dropdown of the task history card (`fetchEmployees`, src/components/TaskHistory.tsx:87-97) is left out. Its result is only displayed.
- The memory query of the employee page is a parameter. Its rows are carried as their text.
- The `details` object of an audit event is carried as opaque text.
- In `handleSend` of the messaging page, two `Date.now()` ids can collide. The two ids are given as parameters, so the collision is not modelled.
- `null` and `undefined` are one `None`. A destructuring default such as `expertise = 'Technology'` replaces only `undefined`; the model treats an explicit `null` the same as a missing value.
- TaskHistory.StatusBadge: a status that names a property inherited from `Object.prototype` (such as `"constructor"`) yields that inherited value in JavaScript. The model gives outline.
- PriorityBoard.Rank: a priority that names a property inherited from `Object.prototype` (such as `"toString"`) makes `priorityOrder[p]` that inherited value in JavaScript, and the comparison then gives NaN. The model gives rank 2. Such a task never reaches a lane: the grouping as written throws on it and `PriorityBoard.GroupLanes` skips it.
- TaskHistory.PriorityColor: an inherited property name such as `"constructor"` yields that inherited value in JavaScript. The model gives gray.
- ChatGateway.PersonaFor: an expertise that names an inherited property of `EXPERTISE_PROMPTS` selects Technology in the model. JavaScript would use the inherited value.
- AuditFunction.Handle: the success time and the row time are taken from one clock reading. The source reads the clock twice.
- supabase/functions/events/index.ts, src/hooks/use-sse.ts and src/lib/utils.ts are not part of this model. They are timer-driven streams, browser wiring, and floating-point scoring.

## Findings

| source | as written | input that shows it | evidently intended | confidence | as-written member | corrected member |
|---|---|---|---|---|---|---|
| src/components/PriorityBoard.tsx:62-65 | `grouped[p]?.push(t)` also looks up keys inherited from `Object.prototype`, and calls `push` on what it finds | a task whose priority is `"toString"`: `grouped["toString"]` is a function, `push` is undefined, and the `useMemo` throws | tasks whose priority is not a lane are skipped, like `"high"` | not executed | `PriorityBoard.InheritedKeyThrows` | `PriorityBoard.GroupLanes` |
| src/components/DashboardInsights.tsx:22 | conversations are counted when their `employee_id` equals the user's id | user `u1` with employee `e1`, and one conversation with `employee_id = "e1"`: the count is 0 | count the conversations held with the user's employees | not executed | `DashboardInsights.ActiveConversationsExample` | `DashboardInsights.OwnConversationCounted` |
