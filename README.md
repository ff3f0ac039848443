# Code Insight Archive: a verified model of its core

Code Insight Archive is a browser for the chat histories of AI coding tools
(Cursor, Augment Code, Cline, RooCode). This project models its core in
Dafny and proves properties of that model. The core has three parts.

- **The backend functions.**
  - The MySQL connection pool of the `mysql-query` function: a bounded list
    of pooled clients, reused when idle and healthy, and swept by a health
    check.
  - The `migrate_all` batch engine of the `migrate-mysql-data` function: it
    copies projects, conversations and messages page by page into the
    destination tables, mapping each row to a record.
  - The same function's `get_stats` report.
- **The migration page** (`DataMigration`): the client-side driver. It loops
  over the tables and calls `migrate_batch` batch by batch, keeps the running
  totals, isolates per-batch failures, tracks progress, and supports pause and
  resume. It also computes the overall percentage.
- **The archive's viewing helpers.**
  - The MySQL data browser's pagination, back navigation and search guard.
  - The archive-wide search.
  - The conversation list's tool filter, toggle and grouping.
  - The data service's mappings, assembly, search and lookup by id.
  - The main page's navigation state.
  - The project card's platform colours.
  - The per-project tool statistics and the distinct-platform count.

## Modules

| file | module | models |
|---|---|---|
| `connection_pool.dfy` | `ConnectionPool` | `supabase/functions/mysql-query/index.ts` |
| `batch_migration.dfy` | `BatchMigration` | `supabase/functions/migrate-mysql-data/index.ts` |
| `data_migration.dfy` | `DataMigration` | `src/components/DataMigration.tsx` |
| `data_viewer.dfy` | `DataViewer` | `src/components/MySQLDataViewer.tsx` |
| `search_results.dfy` | `SearchResults` | `src/components/SearchResults.tsx` |
| `conversation_list.dfy` | `ConversationList` | `src/components/ConversationList.tsx` |
| `project_service.dfy` | `ProjectService` | `src/services/projectService.ts` |
| `index_page.dfy` | `IndexPage` | `src/pages/Index.tsx` |
| `project_card.dfy` | `ProjectCard` | `src/components/ProjectCard.tsx` |
| `project_list.dfy` | `ProjectList` | `src/components/ProjectList.tsx` |
| `stats_cards.dfy` | `StatsCards` | `src/components/StatsCards.tsx` |
| `archive_data.dfy` | `Archive` | the archive's project / conversation / message records |
| `text.dfy`, `seqs.dfy`, `wrappers.dfy` | `Text`, `Seqs`, `Wrappers` | lower-casing, substring, trimming, truncation; filter and map; `Option` and `Result` |

### How the model is built

**Stateful code is imperative Dafny.**
- The pool is a class, `ConnectionPool.MySQLConnectionPool`. It owns a
  `connections` sequence and a counter of allocated clients, so each new
  client is fresh.
- The migration page is a class, `DataMigration.MigrationPanel`. It holds
  `stats`, `migrationStatus` and `progress`.
- Each loop of the source is a `while` loop, proved against a function that
  describes it:
  - the pool sweep is `SweepList`, proved against `Sweep`;
  - each table's copy loop is `CopyTable`, proved against `Copy`;
  - the client's batch loop is `MigrateTable`, proved against `RunTable`;
  - the search walk is `CollectResults`, proved against `Search`;
  - the grouping is `GroupByTool`, proved against `OfTool` and `DistinctTools`;
  - the assembly is `GetProjectsWithConversations`;
  - the two tool counters are `ToolStats` and `DistinctPlatformCount`;
  - the main page's total is `TotalConversations`.
- Lemmas then prove what the source promises about those functions.

**Outside inputs are parameters** (oracles):
- the clock is `now`;
- whether a connect succeeds is `connectOk`;
- the liveness probe is `probe`;
- whether a page read or a page's insert raises is `readFails` or `insertFails` (together `Faults`);
- the outcome of the `COUNT(*)` queries is a `Result`, an error when one of them raises;
- the `migrate_batch` call is `batch`;
- every query of the data service is the answer it gives.

**Source tables are sequences.** `LIMIT n OFFSET o` is modelled as slicing.

**JavaScript values.**
- `a || b` and `String(v || '')` are modelled on a small value type,
  `JsValue` (undefined, null, booleans, integers and strings), with
  JavaScript's falsiness: undefined, null, false, 0 and the empty string are
  falsy.
- `crypto.randomUUID()` is a `Fresh` identifier.
- `new Date().toISOString()` is a `Now` stamp.

### Behaviour of the code worth knowing

- **Pause.** The batch loop's guard (`src/components/DataMigration.tsx:193`)
  reads the `migrationStatus` captured when `startMigration` began. So Pause
  during a run does not stop the running loop; the loop goes on until each
  table is done. `StartMigration` passes the status captured at its start.
  `DataMigration.PausedRunDoesNothing` shows that a run whose captured
  status is 'paused' skips its batches. The page never reaches that case:
  the Start button is rendered only when no run is going and the status is
  not 'paused' (`src/components/DataMigration.tsx:426`).
- **`migrate_batch` and `clear_data`.** The client calls these two actions
  (`src/components/DataMigration.tsx:119` and `:143`).
  `supabase/functions/migrate-mysql-data/index.ts` has no branch for either
  and answers both with "Invalid action" (lines 210-211). So `batch` is an
  oracle. `DataMigration.AllBatchesThrow` states what a run does when every
  call fails, which is what this server makes happen. The server's own
  paged loop is `migrate_all`; `BatchMigration.TwentyFiveProjects` works
  through 25 projects in pages of 10 on it.
- **Batch sizes.** The client's batch for messages is 20
  (`src/components/DataMigration.tsx:59`) and the server's is 50
  (`supabase/functions/migrate-mysql-data/index.ts:170`); each module keeps
  its own.

## Model

| member | source | states |
|---|---|---|
| ConnectionPool.FindAvailable | supabase/functions/mysql-query/index.ts:45-47 | the index found is the first entry that is not in use and is healthy; none is found exactly when no entry is available |
| ConnectionPool.FindClient | supabase/functions/mysql-query/index.ts:71 | the index found is the first entry holding that client; none is found exactly when no entry holds it |
| ConnectionPool.MySQLConnectionPool.constructor | supabase/functions/mysql-query/index.ts:29-40 | a new pool is empty, satisfies the pool invariant, and has its health-check timer running |
| ConnectionPool.MySQLConnectionPool.GetConnection | supabase/functions/mysql-query/index.ts:43-67 | it reuses the first available entry, marking only that entry in use with lastUsed = now; otherwise, below 5 entries, it creates a connection; otherwise it returns Exhausted and changes nothing; the pool never exceeds 5 entries |
| ConnectionPool.MySQLConnectionPool.CreateConnection | supabase/functions/mysql-query/index.ts:80-102 | on success it appends exactly one entry, holding a fresh client, in use and healthy; on connect failure it returns the error and leaves the list unchanged |
| ConnectionPool.MySQLConnectionPool.ReleaseConnection | supabase/functions/mysql-query/index.ts:70-77 | the entry holding the client gets inUse = false and lastUsed = now, and no other entry changes; an unknown client changes nothing |
| ConnectionPool.MySQLConnectionPool.HealthCheck | supabase/functions/mysql-query/index.ts:105-141 | the new list is the sweep of the old one, and the pool invariant still holds |
| ConnectionPool.SweepList | supabase/functions/mysql-query/index.ts:106-140 | the backward index loop with its splices computes exactly the sweep of the list |
| ConnectionPool.VisitEntry | supabase/functions/mysql-query/index.ts:109-139 | one step of the loop: an entry idle for longer than 5 minutes is spliced out; another idle entry is kept as healthy if the probe succeeds and spliced out if it fails; an entry in use is left as it is |
| ConnectionPool.SweepOnlyKeepsLive | supabase/functions/mysql-query/index.ts:112-139 | the sweep never grows the list; every kept entry is in use, or is idle, unexpired, probed successfully and healthy; every kept entry comes from an original one |
| ConnectionPool.SweepRemovesExpired | supabase/functions/mysql-query/index.ts:112-121 | no kept entry has an idle time strictly greater than the idle timeout |
| ConnectionPool.SweepKeepsInUse | supabase/functions/mysql-query/index.ts:123-124 | the entries in use survive the sweep unchanged and in order |
| ConnectionPool.SweepIgnoresBusyProbes | supabase/functions/mysql-query/index.ts:124 | the sweep never probes an entry in use: probes that agree on the idle entries give the same result |
| ConnectionPool.SweepKeepsInvariant | supabase/functions/mysql-query/index.ts:112-139 | a sweep keeps the pool invariant: at most 5 entries, distinct allocated clients, all healthy (entries are created healthy at line 93) |
| ConnectionPool.CountsBounded | supabase/functions/mysql-query/index.ts:153-165 | inUse + available is at most total, and unhealthy is at most total |
| ConnectionPool.CountsAllHealthy | supabase/functions/mysql-query/index.ts:153-165 | when every entry is healthy, nothing is unhealthy and inUse + available equals total |
| ConnectionPool.MySQLConnectionPool.GetAvailableCount | supabase/functions/mysql-query/index.ts:153-155 | the available count is at most the size; in a valid pool it is the size minus the entries in use |
| ConnectionPool.MySQLConnectionPool.GetPoolStatus | supabase/functions/mysql-query/index.ts:158-165 | total is the list length and inUse the number of entries in use, with inUse + available at most total; in a valid pool unhealthy = 0 and inUse + available = total |
| ConnectionPool.MySQLConnectionPool.CloseAll | supabase/functions/mysql-query/index.ts:168-185 | the timer is stopped and the list is empty |
| ConnectionPool.ExhaustionScenario | supabase/functions/mysql-query/index.ts:43-77 | with five connections checked out, a sixth request is Exhausted; after one release the next request reuses the released client, and the pool stays at 5 |
| BatchMigration.TextField | supabase/functions/migrate-mysql-data/index.ts:111-114 | `String(v \|\| '')`: every falsy value gives the empty string; a string is kept; a non-zero number gives its decimal digits |
| BatchMigration.CounterField | supabase/functions/migrate-mysql-data/index.ts:149 | `v \|\| 0`: a falsy counter becomes 0; any other value is kept (also message_order at line 183) |
| BatchMigration.StampField | supabase/functions/migrate-mysql-data/index.ts:115-116 | a falsy timestamp becomes now; any other value is copied (also lines 150-151 and 185) |
| BatchMigration.MapProject | supabase/functions/migrate-mysql-data/index.ts:109-117 | the id is always fresh; the four text fields come from TextField; both timestamps default to now |
| BatchMigration.ConversationId | supabase/functions/migrate-mysql-data/index.ts:143 | a truthy source id is kept as its string; only a falsy id gets a fresh one |
| BatchMigration.MapConversation | supabase/functions/migrate-mysql-data/index.ts:142-152 | keeps the id; the text fields come from TextField; created_at and last_interacted_at are copied unchanged; message_count defaults to 0; both stamps default to now |
| BatchMigration.MapMessage | supabase/functions/migrate-mysql-data/index.ts:176-186 | the id is fresh; the id, role and content fields come from TextField; timestamp and workspace_files are copied unchanged; message_order defaults to 0; created_at defaults to now |
| BatchMigration.IdentityPolicy | supabase/functions/migrate-mysql-data/index.ts:143 | projects and messages always get fresh ids; a conversation with a non-empty string id keeps exactly that id (project ids at line 110, message ids at line 177) |
| Seqs.Map | supabase/functions/migrate-mysql-data/index.ts:109-117 | the mapped page has one record per row, in order, each the map of its row (also lines 142 and 176) |
| BatchMigration.Page | supabase/functions/migrate-mysql-data/index.ts:106 | `LIMIT n OFFSET o` is the slice of the table from o, at most n rows long, and empty from the table's end on (also lines 139 and 173) |
| BatchMigration.PageOffsetsShape | supabase/functions/migrate-mysql-data/index.ts:105-127 | the pages are read at 0, b, 2b, ..., each below the counted total and holding at least one row |
| BatchMigration.ReadOffsetsExtendPages | supabase/functions/migrate-mysql-data/index.ts:105-107 | the SELECTs one loop issues are its non-empty pages in order and at most one more, an empty page read below the counted total that ends the loop |
| BatchMigration.CopiedRowsArePages | supabase/functions/migrate-mysql-data/index.ts:105-131 | the rows one loop reads are the concatenation of its pages, in the order the offsets take them |
| BatchMigration.CopiedRowsSlice | supabase/functions/migrate-mysql-data/index.ts:105-126 | the rows read are one contiguous run of the table from offset 0; they never pass the table's end and they reach at least the smaller of the counted total and the table's length |
| BatchMigration.CopiedRowsComplete | supabase/functions/migrate-mysql-data/index.ts:105-131 | when the counted total is the table's length, the loop reads every row exactly once |
| BatchMigration.CopyFailsIff | supabase/functions/migrate-mysql-data/index.ts:105-123 | a copy loop raises exactly when one of the page reads it issues raises or the insert of one of the non-empty pages it reads fails |
| BatchMigration.CopyInsertsCopiedRows | supabase/functions/migrate-mysql-data/index.ts:105-126 | when no read or insert raises, the loop inserts the mapped rows it read; in any case it never inserts more records than rows read |
| BatchMigration.CopyTable | supabase/functions/migrate-mysql-data/index.ts:101-131 | the while loop inserts exactly the records of the copy description; it returns an error exactly when a page read or an insert raised, and otherwise the number of records inserted (the sum of the page lengths) |
| BatchMigration.MigrateAll | supabase/functions/migrate-mysql-data/index.ts:86-208 | a raising COUNT(*) query aborts before any insert; otherwise projects, then conversations, then messages, with batch sizes 10, 15 and 50; the first page read or insert that raises aborts the run and leaves what was inserted; the counts are returned only when all three loops finish, and they are the numbers of records inserted |
| BatchMigration.CopyComplete | supabase/functions/migrate-mysql-data/index.ts:105-131 | a loop in which no read or insert raises, with the counted total equal to the table's length, inserts every row once, in order, through the map |
| BatchMigration.MigrateAllComplete | supabase/functions/migrate-mysql-data/index.ts:86-208 | when no read or insert raises, and with counts equal to the table lengths, every row of every table is copied once, in order, through its map |
| BatchMigration.TwentyFiveProjects | supabase/functions/migrate-mysql-data/index.ts:101-131 | 25 projects in batches of 10 are read at offsets 0, 10 and 20, as pages of 10, 10 and 5 rows; when no read or insert raises all 25 are inserted, in order, through the project map |
| BatchMigration.CountOrZero | supabase/functions/migrate-mysql-data/index.ts:79-81 | `count \|\| 0`: a missing count is 0; a present one is kept |
| BatchMigration.GetStats | supabase/functions/migrate-mysql-data/index.ts:61-84 | a raising source COUNT(*) query fails the report; otherwise the source counts are copied as returned and each destination count defaults to 0 when missing |
| BatchMigration.EmptyDestinationStats | supabase/functions/migrate-mysql-data/index.ts:61-84 | an empty destination reports zero whether its counts come back as 0 or missing; a failing source count fails the report whatever the destination says |
| DataMigration.Tables | src/components/DataMigration.tsx:163-176 | three tables, in the order projects, conversations, messages, with their source totals and batch sizes 10, 15 and 20 (BATCH_SIZES at lines 56-60) |
| DataMigration.CeilDiv | src/components/DataMigration.tsx:176 | `Math.ceil(total / batchSize)`: the fewest batches that cover the total |
| DataMigration.CallOffsetsShape | src/components/DataMigration.tsx:189-216 | a table's loop calls `migrateBatch` at 0, b, 2b, ..., each below the table's total; every call before the last reported success without `completed`; a run that began paused makes no call |
| DataMigration.RunTableAccounts | src/components/DataMigration.tsx:193-225 | over a table's calls: tableMigrated and totalMigrated grow by the sum of `migrated`; totalErrors grows by the reported errors plus one for each batch that threw; batchIndex counts the successful batches |
| DataMigration.RunTablesVisitsAll | src/components/DataMigration.tsx:172-227 | every table's loop runs, whatever earlier batches did: a thrown batch ends only its own table, and the progress record ends at the last table |
| DataMigration.AllBatchesThrow | src/components/DataMigration.tsx:221-225 | when every `migrateBatch` call throws, nothing is migrated and each non-empty table charges exactly one error (`migrateBatch` rethrows at lines 140-151) |
| DataMigration.PausedRunDoesNothing | src/components/DataMigration.tsx:193 | the loop guard reads the status captured when the run began: a run whose captured status is 'paused' attempts no batch (a case the page never reaches, since Start is hidden while paused, line 426) |
| DataMigration.OverallProgress | src/components/DataMigration.tsx:287-297 | with no stats, or a source total of 0, the percentage is 0; otherwise it is the rounded share of finished tables plus the current table's fraction; it is never negative, and at most 100 while the table index is in range and migrated does not exceed totalItems |
| DataMigration.FractionBounds | src/components/DataMigration.tsx:292-296 | the exact value rounded lies between 0 and 100 under the same conditions |
| DataMigration.ProgressMonotone | src/components/DataMigration.tsx:292-296 | within one table, more migrated items never lower the percentage |
| DataMigration.ProgressAtTableStart | src/components/DataMigration.tsx:287-297 | at the start of table 0, 1 and 2 of three, the percentage is 0, 33 and 67 (the table start resets migratedItems at lines 178-187) |
| DataMigration.MigrationPanel.constructor | src/components/DataMigration.tsx:38-52 | no stats, status idle, and the initial progress record (3 tables, everything else 0 or false) |
| DataMigration.MigrationPanel.GetOverallProgress | src/components/DataMigration.tsx:287-297 | the panel's percentage is never negative, and at most 100 while the table index is below 3 and migrated does not exceed totalItems |
| DataMigration.MigrationPanel.StartMigration | src/components/DataMigration.tsx:154-249 | with no stats nothing happens; otherwise the tables run in order with the status captured at the start; the run always ends 'completed' with isRunning false and the totals of the table loops; the stats are refreshed after clearing and after the run whenever the fetch succeeds |
| DataMigration.MigrationPanel.MigrateTable | src/components/DataMigration.tsx:173-226 | starting a table resets migratedItems and currentBatch to 0 and sets totalItems and totalBatches; the while loop leaves the progress and totals that the table-loop description gives |
| DataMigration.MigrationPanel.PauseMigration | src/components/DataMigration.tsx:251-254 | the status becomes 'paused', with isPaused true and isRunning false; nothing else changes |
| DataMigration.MigrationPanel.ResumeMigration | src/components/DataMigration.tsx:256-259 | the status becomes 'migrating', with isPaused false and isRunning true; nothing else changes |
| DataViewer.LoadAt | src/components/MySQLDataViewer.tsx:202-224 | a page move loads the current view's list, keyed by the selected project or conversation |
| DataViewer.NextPage | src/components/MySQLDataViewer.tsx:202-213 | it loads offset + limit exactly when that is below the total, so a loaded offset is always below the total; otherwise it does nothing |
| DataViewer.PrevPage | src/components/MySQLDataViewer.tsx:215-224 | it always loads max(0, offset - limit), never past the current offset |
| DataViewer.ApplyLoad | src/components/MySQLDataViewer.tsx:96-163 | a successful load replaces that view's list and moves the pagination to the loaded offset and the server's total; conversations and messages also set the selection and the view; a failed load changes nothing |
| DataViewer.NextThenPrev | src/components/MySQLDataViewer.tsx:202-224 | going forward a page and then back loads the original offset again, in the same view and with the same selection |
| DataViewer.NextDisabledIffNoLoad | src/components/MySQLDataViewer.tsx:473 | the Next button is disabled exactly when `nextPage` would do nothing (`nextPage` guard at lines 203-204) |
| DataViewer.PrevDisabledIffSameOffset | src/components/MySQLDataViewer.tsx:464 | with a positive limit, the Previous button is disabled exactly when `prevPage` would reload the current offset (`prevPage` offset at line 216) |
| DataViewer.DisplayRange | src/components/MySQLDataViewer.tsx:458 | the shown range runs from offset + 1 to min(offset + limit, total), and it is nonempty at an offset below the total |
| DataViewer.GoBack | src/components/MySQLDataViewer.tsx:226-235 | messages go to conversations, clearing the messages; conversations go to projects, clearing the conversations and the selected project; the projects view is unchanged |
| DataViewer.GoBackTwice | src/components/MySQLDataViewer.tsx:226-235 | from messages, two steps back reach the projects view with both child lists and the project selection cleared, and nothing else changed |
| DataViewer.HandleSearch | src/components/MySQLDataViewer.tsx:165-200 | a blank or whitespace-only term, or a failed search, changes nothing; a successful search replaces only the current view's list and resets the offset to 0, with the result count as total |
| DataViewer.SearchDisablesPrev | src/components/MySQLDataViewer.tsx:184 | after a successful search the Previous button is disabled (the Previous button at line 464) |
| Text.TruncateText | src/components/MySQLDataViewer.tsx:241-244 | text no longer than the maximum is unchanged; longer text becomes its first max characters followed by "..." |
| Text.TrimEmptyIffBlank | src/components/MySQLDataViewer.tsx:166 | `trim()` gives the empty string exactly when the text is empty or all whitespace |
| SearchResults.CollectResults | src/components/SearchResults.tsx:33-90 | the nested `forEach` walk returns exactly the results of the search description for the lower-cased query, and no more than the number of projects, conversations and messages together |
| SearchResults.CollectProject | src/components/SearchResults.tsx:37-87 | one project appends its own result when it matches, then those of its conversations |
| SearchResults.CollectConversations | src/components/SearchResults.tsx:52-86 | the conversations' walk appends, for each conversation in order, its part of the results |
| SearchResults.CollectConversation | src/components/SearchResults.tsx:53-85 | a conversation appends its own result when its title matches, then its messages' results |
| SearchResults.CollectMessages | src/components/SearchResults.tsx:67-85 | the messages' walk appends one result for each matching message, in order |
| SearchResults.Search | src/components/SearchResults.tsx:33-90 | the number of results is at most the number of projects plus conversations plus messages |
| SearchResults.ProjectHitsExact | src/components/SearchResults.tsx:39-48 | the project results are, in order, exactly those of the projects whose name or description contains the term |
| SearchResults.ConversationResultsExact | src/components/SearchResults.tsx:52-64 | the conversation results are, in order, exactly one per conversation whose title contains the term, project by project; no other conversation yields one |
| SearchResults.MessageResultsExact | src/components/SearchResults.tsx:67-84 | the message results are, in order, exactly one per message whose content contains the term, conversation by conversation; no other message yields one |
| SearchResults.ConversationHitsExact | src/components/SearchResults.tsx:52-84 | under one project, the conversation results are those of its matching conversations and the message results those of their matching messages, in order |
| SearchResults.ConversationPartExact | src/components/SearchResults.tsx:53-84 | one conversation contributes its own result exactly when its title matches, followed by the results of its matching messages |
| SearchResults.MessageHitsExact | src/components/SearchResults.tsx:67-84 | within one conversation, the message results are exactly those of its matching messages, one each, in order |
| SearchResults.MessageHitsCarryOwners | src/components/SearchResults.tsx:73-78 | every result under a conversation is a message result carrying the owning project's id and that conversation's id |
| SearchResults.MessagePreview | src/components/SearchResults.tsx:69-71 | a message result shows the whole message when it has at most 150 characters, otherwise its first 150 characters followed by "..." |
| SearchResults.ConversationHitsCarryOwners | src/components/SearchResults.tsx:52-86 | every result below a project is a conversation or message result, carrying the owning project's id and a conversation id |
| SearchResults.EmptyQueryMatchesAll | src/components/SearchResults.tsx:33-90 | an empty query yields one result per project, conversation and message |
| SearchResults.ProjectFoundInAnyCase | src/components/SearchResults.tsx:35-49 | a project whose name or description contains the query, typed in any letter case, gets its project result |
| SearchResults.ConversationFoundInAnyCase | src/components/SearchResults.tsx:52-64 | a conversation whose title contains the query, typed in any letter case, gets its conversation result |
| SearchResults.MessageFoundInAnyCase | src/components/SearchResults.tsx:67-84 | a message whose content contains the query, typed in any letter case, gets its message result under its conversation and project |
| Text.ContainsLower | src/components/SearchResults.tsx:39-40 | text that includes a string still includes it once both are lower-cased, as `toLowerCase().includes` compares them |
| ConversationList.FilteredConversations | src/components/ConversationList.tsx:34-39 | with no tool selected the list is unchanged; otherwise it keeps exactly the conversations of a selected tool |
| ConversationList.FilteredConcat | src/components/ConversationList.tsx:38 | the filter keeps relative order: filtering a concatenation filters each part |
| ConversationList.ToggleTool | src/components/ConversationList.tsx:50-55 | the selection changes by exactly the toggled tool: an absent tool is appended at the end; a present one is removed, every occurrence, by the order-keeping removal, shortening the selection |
| ConversationList.WithoutKeepsOthers | src/components/ConversationList.tsx:52 | removing a tool works entry by entry and distributes over concatenation, so the other entries keep their order and their repetitions |
| ConversationList.ToggleTwice | src/components/ConversationList.tsx:51-53 | toggling an absent tool twice restores the original selection |
| ConversationList.GroupByTool | src/components/ConversationList.tsx:57-66 | the keys, in insertion order, are the distinct tools that occur; each tool's group is that tool's conversations in their original order |
| ConversationList.DistinctToolsExact | src/components/ConversationList.tsx:60-62 | a tool is a key exactly when some conversation has it, and no key repeats |
| ConversationList.InOwnGroup | src/components/ConversationList.tsx:63 | every conversation lands in its own tool's group |
| ConversationList.GroupsPartition | src/components/ConversationList.tsx:57-66 | the group sizes add up to the number of filtered conversations |
| ProjectService.MapProject | src/services/projectService.ts:19-23 | the description is the path when it is non-empty, else 'No description', so it is never empty; lastUpdated is updated_at |
| ProjectService.MapConversation | src/services/projectService.ts:41-46 | the title is the name, or 'Untitled Conversation' when that is empty; the tool is always 'cursor'; createdAt is created_at unless it is null or empty, else created_timestamp |
| ProjectService.MapRows | src/services/projectService.ts:13-23 | an error propagates; no data maps to the empty list; otherwise every row is mapped, in order (also lines 41 and 62) |
| ProjectService.GetProjects | src/services/projectService.ts:7-24 | fails exactly when the query fails; every project has a non-empty description |
| ProjectService.GetProjectConversations | src/services/projectService.ts:27-47 | fails exactly when the query fails; every conversation is a 'cursor' one with a non-empty title |
| ProjectService.GetConversationMessages | src/services/projectService.ts:50-63 | an error propagates; otherwise the rows are returned as they are, with no data giving the empty list |
| ProjectService.GetProjectsWithConversations | src/services/projectService.ts:66-80 | one entry per project, in order, each with that project's conversations; it fails exactly when some conversations query fails, and then with the error of the first one that fails |
| ProjectService.SearchProjects | src/services/projectService.ts:83-92 | keeps exactly the projects whose name, or one of whose conversations' names, contains the query, ignoring case; an error propagates |
| ProjectService.SearchKeepsOrder | src/services/projectService.ts:86 | the search keeps the original order: searching a concatenation searches each part |
| ProjectService.EmptySearchKeepsAll | src/services/projectService.ts:86-91 | an empty query keeps every project |
| ProjectService.GetProjectById | src/services/projectService.ts:95-117 | a failed or empty project query gives null; otherwise the mapped project with its conversations, where a failing conversations query still propagates |
| ProjectService.LookupAgreesWithList | src/services/projectService.ts:111-116 | the lookup by id maps its project exactly as the project list does (the list mapping at lines 19-23) |
| IndexPage.ProjectSelect | src/pages/Index.tsx:20-23 | selects the project and shows conversations; nothing else changes |
| IndexPage.ConversationSelect | src/pages/Index.tsx:25-28 | selects the conversation and shows messages; nothing else changes |
| IndexPage.Search | src/pages/Index.tsx:30-37 | stores the query; the view is 'search' when the trimmed query is non-empty, else 'projects'; the selections stay |
| IndexPage.BackToProjects | src/pages/Index.tsx:39-43 | shows projects and clears both selections |
| IndexPage.BackToConversations | src/pages/Index.tsx:45-48 | shows conversations and clears only the conversation selection |
| IndexPage.SelectThenBack | src/pages/Index.tsx:25-48 | selecting a conversation and going back leaves the conversations view with no conversation selected |
| IndexPage.BackToProjectsForgets | src/pages/Index.tsx:20-43 | going back to projects forgets any selections made before |
| IndexPage.RunCoherent | src/pages/Index.tsx:20-48 | every sequence of handler calls keeps this rule: the messages view is shown only with a conversation selected |
| IndexPage.TotalConversations | src/pages/Index.tsx:138 | the `reduce` loop gives the sum of each project's number of conversations |
| IndexPage.ConversationTotalConcat | src/pages/Index.tsx:138 | the total over two lists of projects is the sum of their totals |
| ProjectCard.BadgeStylesOfLower | src/components/ProjectCard.tsx:47-61 | every case of the badge switch picks the badge of the colour family of that lower-cased name |
| ProjectCard.BorderAccentOfLower | src/components/ProjectCard.tsx:67-81 | every case of the border switch picks the accent of the same family |
| ProjectCard.SameFamily | src/components/ProjectCard.tsx:45-82 | the badge style and the border accent of a platform always come from the same colour family |
| ProjectCard.CaseInsensitive | src/components/ProjectCard.tsx:45-82 | platforms equal up to case get the same badge and the same border (both switches lower-case at lines 46 and 66) |
| ProjectCard.LowerCasedSame | src/components/ProjectCard.tsx:46 | lower-casing a platform before classifying it changes nothing (and line 66) |
| ProjectCard.CursorAliases | src/components/ProjectCard.tsx:48-50 | 'cursor' and 'Cursor-AI' are blue (border at lines 68-70) |
| ProjectCard.AugmentAliases | src/components/ProjectCard.tsx:51-54 | 'AugmentCode', 'augment-code' and 'AUGMENT_CODE' are green (border at lines 71-74) |
| ProjectCard.OtherFamilies | src/components/ProjectCard.tsx:55-60 | 'Cline' is purple and 'RooCode' orange; an unlisted or empty platform is gray (border at lines 75-80) |
| ProjectCard.OthersAreGray | src/components/ProjectCard.tsx:59-60 | every platform whose lower-cased name is none of the listed names gets the gray badge and the gray border (border at lines 79-80) |
| ProjectList.ToolKey | src/components/ProjectList.tsx:26 | the key is the platform, or 'unknown' when that is empty, so it is never empty |
| ProjectList.EmptyIsUnknown | src/components/ProjectList.tsx:26 | an empty platform and the literal 'unknown' are counted under the same key |
| ProjectList.ToolStats | src/components/ProjectList.tsx:22-30 | no conversations give an empty map; otherwise exactly one key, the project's platform key, whose count is the number of conversations |
| StatsCards.DistinctPlatformCount | src/components/StatsCards.tsx:28-35 | the `forEach` loop counts the distinct keys `platform \|\| 'unknown'` among the projects |
| StatsCards.PlatformKeysExact | src/components/StatsCards.tsx:30-32 | a key is counted exactly when some project has it |
| StatsCards.ZeroIffEmpty | src/components/StatsCards.tsx:28-34 | the count is 0 exactly when there are no projects |
| StatsCards.AtMostOnePerProject | src/components/StatsCards.tsx:30-33 | the count is at most the number of projects |
| StatsCards.UnknownCollapses | src/components/StatsCards.tsx:31 | renaming an empty platform to 'unknown' leaves the set of keys unchanged |

`Text.TruncateText` is the one `truncateText` of `MySQLDataViewer.tsx`
(lines 241-244) and of `ProjectCard.tsx` (lines 39-42). It is also the
150-character message preview of `SearchResults.tsx` (lines 69-71).

## Left out

- HTTP plumbing: the `serve` handlers, CORS, JSON parsing, the SQL and REST actions of the query function, and the error response bodies. Only the pool and the migration loops and maps are modelled. Each MySQL and Supabase call the model keeps is a parameter: what it returns, and whether it raises where the code lets it raise (the `COUNT(*)` queries, the page reads and the bulk inserts of `migrate_all`; the `COUNT(*)` queries of `get_stats`).
- Timers: the `setInterval` health-check driver is modelled as a `healthCheckRunning` flag. The inter-batch sleeps (50 and 100 ms on the server, 100 to 200 ms on the client) are left out, because sleeping changes no state the model keeps.
- ConnectionPool.MySQLConnectionPool.GetConnection: the recursive retry after 100 ms is one `Exhausted` outcome, because waiting only helps once a concurrent caller releases or the sweep runs; a caller that retries calls `GetConnection` again.
- Concurrency on the module-level pool singleton and its lazy creation are left out; calls are sequential.
- Closing a client (`client.close()`) and its swallowed errors are left out, because they change no pool state.
- Row order: the `migrate_all` queries have no ORDER BY. The model takes each table as one fixed sequence and pages as slices of it. So it does not capture a database that returns rows in a different order from one page query to the next.
- BatchMigration.MigrateAll: the error thrown is a fixed label ("read error" or "insertion error", or the one a failing count carries), not the driver's or the destination's error object. The `message` text of the success result is left out.
- `crypto.randomUUID()` and `new Date().toISOString()` are the markers `Fresh` and `Now`, not values, so two fresh ids are not proved to differ.
- BatchMigration.TextField: column values are undefined, null, booleans, integers or strings. Fractions, NaN, dates and objects are left out, because they are not what the text columns hold.
- DataMigration: `clear_data` and `migrate_batch` exist only as the client calls them. The client sends `batchOffset`/`batchLimit`, which the server never reads. `migrateBatch` is the oracle `batch`; `clearData` is its outcome `clearOk`; the `getStats` refreshes are the parameters `refreshAfterClear` and `refreshAfterRun`.
- DataMigration.MigrationPanel.StartMigration: the outer `catch` that sets 'error' is left out, because nothing outside the per-batch `try` of the model can throw.
- The `checkConnections`, `loadStats` and connection-status badge of the migration page and the data browser are left out, as is each component's `loading` flag.
- Toasts, React rendering, Markdown, Mermaid and `highlightText` are left out.
- Floating point: `getOverallProgress` is computed on exact reals, with `Math.round` as the floor of x + 1/2.
- DataMigration.OverallProgress requires totalTables > 0, which always holds: it is 3 from the start and nothing changes it. JavaScript's division by zero is left out.
- Case and whitespace: `toLowerCase` changes only ASCII letters, and `trim` removes only ASCII whitespace (space, tab, newline, carriage return, form feed, vertical tab). Lengths count characters, not UTF-16 code units.
- Dates: every `formatDate`, `toLocaleString` and the "active this month" count are left out.
- ProjectList.ToolStats and StatsCards.DistinctPlatformCount: `toolCounts` is a plain JavaScript object, and the model makes it a Dafny map. A platform that names an `Object.prototype` member (`__proto__`, `constructor`, `toString` and the like) reads an inherited value on its first lookup, so the object either ignores the assignment or stores a string rather than a count. Such keys are outside the model, which treats every platform string as an ordinary key.
- ConversationList.GroupByTool returns the insertion order of the object's keys as `keyOrder`, because a Dafny map has no order.
- The presentational or data-only files are left out: MessageDetail, MermaidChart, NavigationHeader, ConversationCard, SearchBar, the Migration page and the mock data. The archive records follow the mock data's interfaces.
