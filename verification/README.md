# A verified model of the test-tracking server's core

The system is a small test-management service. It has three parts:

- **A store of test suites and test cases** (`src/database.js`). Suites and
  cases are rows with fresh ids. Updates are partial patches: only
  whitelisted fields are kept, and a patch with no whitelisted field is
  refused. Every mutation of a case bumps the owning suite's `updated_at`.
  Queries filter by optional criteria. The summary counts cases by status
  and priority and rounds two percentages.
- **A JSON-RPC tool server that reads newline-delimited messages from
  stdin** (`src/mcp-server.js`). It covers:
  - the framing loop over a growing input buffer;
  - the method dispatch (`initialize`, `tools/list`, `tools/call`) and the
    tool dispatch, with its error-wrapping rule;
  - the four input validators;
  - the `update_test_case` tool, which builds its update object from the
    arguments that are defined.
- **A schema-version migration runner** (`src/migrations.js`). It has
  `hasColumn`, `ensureSchemaVersionTable`, the one migration (three guarded
  `ALTER TABLE`s, a title backfill, two tables and two indexes) and the
  `runMigrations` loop.

## Modules

- `values.dfy` (`Values`) holds the shared value types:
  - `Option` and `Result`;
  - the SQL column value `Value`;
  - the JavaScript value `JsValue`, with its truthiness and property lookup;
  - the errors the server throws, as an `Error` datatype. Message text is
    not modelled.
- `validation.dfy` (`Validation`) holds `String.prototype.trim` and the four
  validators, as pure functions that return `Pass` or `Fail(error)`.
- `dispatch.dfy` (`Dispatch`) holds `handleMessage` and `handleToolCall` as
  functions that return `Returned(response)` or `Threw(error)`.
  - A tool's work is a parameter, `run`.
  - `JSON.parse` is a parameter, `parse`.
- `framing.dfy` (`Framing`) holds the framing loop in two forms:
  - `Drain`, one round of the loop, as a recursive function. It is stated
    for any `Handler`, a function that says for one raw line whether it is
    skipped and otherwise how its dispatch ended. `LineHandler(dispatch)` is
    the server's handler: trim the line, skip it if blank, dispatch it
    otherwise.
  - `Server.OnData`, the `while` loop itself, as a method on a class that
    owns `inputBuffer`.
- `store.dfy` (`TestStore`) is the store: a class `Store` whose fields are
  the two tables (maps from id to row), the last ids given out and an
  abstract clock. The queries are functions over the tables.
- `tools.dfy` (`Tools`) covers the `update_test_case` tool: argument
  checking, building the update object, binding values as SQL parameters,
  and the call into the store.
- `migrations.dfy` (`Migrations`) holds the schema as a map from table name
  to table (its columns and rows) plus a set of index names. The migration
  and the runner appear both as functions of the schema and as methods on a
  class `Database`.
- `scenarios.dfy` (`StoreScenarios`) holds two concrete runs of the store:
  the suite life cycle, and the summary of one passed and one failed case.

Modelling choices:

- **Timestamps.** `CURRENT_TIMESTAMP` is an abstract clock. It advances on
  every mutating call that reaches an `UPDATE` or `INSERT`, and the rows
  written are stamped with its new value.
- **Ids.** Ids are never reused: a new id is one above the largest ever
  given out. This is the behaviour of an `AUTOINCREMENT` key. `schema.sql`
  is not part of this model, so it is a choice rather than something the
  code shows; with a plain `INTEGER PRIMARY KEY`, SQLite may reuse the id of
  a deleted last row.
- **Default status.** `addTestCase` does not write a status, so a new case's
  status is the column default. The model takes it to be 'pending', because
  `src/database.test.js:164` and `src/database.test.js:172` expect a case
  that was never updated to count as pending.
- **Update objects.** An update object is the sequence of its
  `Object.entries`, in order; when a field repeats, the last entry wins.
- **Framing.** The whole framing loop sits in a single `try`. The first line
  whose parse or dispatch throws is answered with an error carrying a null
  id, and the loop then stops. Complete lines after that one stay in the
  buffer until the next chunk arrives. So "no newline is left in the
  buffer" holds only for a round in which no line threw, and the model
  proves it in exactly that form (`DrainLeavesNoNewline`).

## Model

| member | source | states |
|---|---|---|
| Validation.Trim | src/mcp-server.js:27 | the result is the middle part of the string with only whitespace cut from either end, and it neither starts nor ends with whitespace |
| Validation.TrimEmpty | src/mcp-server.js:296 | `trim` leaves the empty string exactly when every character is JavaScript whitespace |
| Validation.ValidateStatus | src/mcp-server.js:275-280 | passes exactly the falsy values and the five statuses; any other value fails with an invalid-status error |
| Validation.ValidatePriority | src/mcp-server.js:282-287 | passes exactly the falsy values and the four priorities; any other value fails with an invalid-priority error |
| Validation.ValidateId | src/mcp-server.js:289-293 | passes exactly the numbers that are positive integers; otherwise fails naming the field |
| Validation.ValidateString | src/mcp-server.js:295-302 | required: passes exactly strings with a non-whitespace character; optional: passes exactly undefined, null and strings |
| Dispatch.HandleInitialize | src/mcp-server.js:60-75 | the reply carries the request id, protocol version 2024-11-05, and server name mcp-testing-server at version 1.0.0 |
| Dispatch.CatalogueMatchesSwitch | src/mcp-server.js:77-245 | a name is in the catalogue exactly when the tool switch has a case for it, and no name is listed twice |
| Dispatch.HandleToolsList | src/mcp-server.js:77-204 | the reply carries the request id and lists eight distinct tools, exactly the names the tool switch accepts |
| Dispatch.Params | src/mcp-server.js:43 | the message's `params` when it has one, `{}` when it is undefined; never undefined |
| Dispatch.HandleToolCall | src/mcp-server.js:206-272 | throws only when params cannot be destructured; otherwise replies with the request id: an unknown tool and any tool failure become code -32000 errors, and a tool result becomes its text reply |
| Dispatch.HandleMessage | src/mcp-server.js:42-58 | initialize is answered with exactly the initialize reply and tools/list with exactly the eight-tool catalogue; tools/call is handed to the tool dispatch with params defaulting to `{}`; any other method throws an unknown-method error; every reply carries the message id |
| Dispatch.ToolCallNeverThrows | src/mcp-server.js:42-58 | a tools/call message whose params are absent or an object always gets a reply with its own id |
| Dispatch.HandleLine | src/mcp-server.js:31-32 | a line that does not parse throws; a parsed line is handled by the method dispatch |
| Framing.IndexOf | src/mcp-server.js:26 | -1 exactly when the character is absent, else a position holding it |
| Framing.IndexOfFirst | src/mcp-server.js:26 | the position found is the first: the character does not occur before it |
| Framing.Cut | src/mcp-server.js:26-28 | no cut exactly when the buffer has no newline; otherwise the buffer is the line, a newline and the rest, and the line holds no newline |
| Framing.LineHandlerSkipsBlank | src/mcp-server.js:27-32 | a line is skipped exactly when it is all whitespace; any other line is dispatched as its trimmed text |
| Framing.LineReply | src/mcp-server.js:27-37 | a blank line gets no reply and does not throw; any other line gets its dispatch's response, or the null-id error when the dispatch throws, and throws exactly then |
| Framing.Drain | src/mcp-server.js:26-35 | a round consumes no line exactly when the buffer has no newline; a failed round consumed at least the failing line; what is left is no longer than the buffer (`DrainSplits` gives the exact split) |
| Framing.UnparsableLineStopsRound | src/mcp-server.js:27-37 | under the server's own dispatch a non-blank line that does not parse is consumed, answered with a null-id error, and ends the round with the rest left in the buffer |
| Framing.DrainSplits | src/mcp-server.js:22-35 | the consumed lines, each followed by a newline, then the remaining buffer, give back the old buffer plus the chunk |
| Framing.DrainLinesAreWhole | src/mcp-server.js:26-28 | no consumed line contains a newline |
| Framing.DrainLeavesNoNewline | src/mcp-server.js:26-35 | when no line threw, the remaining buffer holds no newline |
| Framing.DrainReplies | src/mcp-server.js:27-34 | blank lines produce no reply; every other consumed line produces exactly its own dispatch's reply, in order |
| Framing.DrainFailsOnLastLine | src/mcp-server.js:20-38 | the round fails exactly when the last consumed line threw |
| Framing.DrainStopsAtFailure | src/mcp-server.js:20-38 | no consumed line before the last one threw: the loop stops at the first line that throws |
| Framing.Server.constructor | src/mcp-server.js:8 | the input buffer starts empty |
| Framing.Server.OnData | src/mcp-server.js:19-39 | the responses sent and the new buffer are those of one round of the framing loop over the old buffer plus the chunk |
| TestStore.Allowed | src/database.js:175-180 | keeps exactly the entries whose field is whitelisted, and no more entries than the update has |
| TestStore.CollectAllowed | src/database.js:131-136 | the loop building the SET clause keeps exactly the whitelisted entries, in order |
| TestStore.AllowedKeepsAll | src/database.js:175-180 | an update whose fields are all whitelisted passes the whitelist whole |
| TestStore.PatchValueIn | src/database.js:175-191 | an update writes a field exactly when it has an entry for it, and the value written is one it was given |
| TestStore.AllowedPatchValue | src/database.js:131-136 | whitelisting passes the values of allowed fields through and drops every other field |
| TestStore.ApplyToSuiteColumns | src/database.js:142-146 | patched suite columns take the update's values; every other column, the id and the stamp are unchanged |
| TestStore.ApplyToCaseColumns | src/database.js:186-190 | patched case columns take the update's values; every other column, the ids and the stamp are unchanged |
| TestStore.Touch | src/database.js:165 | only the named suite's `updated_at` changes, and only when the suite exists |
| TestStore.StatusCountsWithin | src/database.js:99-104 | the per-status counts of a suite add up to at most its number of cases |
| TestStore.PriorityCountsWithin | src/database.js:260-263 | the per-priority counts of a suite add up to at most its number of cases |
| TestStore.GetTestSuites | src/database.js:97-119 | lists exactly the suites whose project equals a truthy filter (all suites when the filter is falsy), each with its case count and its exact number of passed, failed, pending, blocked and skipped cases |
| TestStore.GetTestSuite | src/database.js:121-124 | a suite exactly when the id is present, and then the stored row |
| TestStore.Occurs | src/database.js:225-229 | the search term occurs in the text exactly when some offset matches it |
| TestStore.GetTestCases | src/database.js:201-234 | returns exactly the cases meeting every truthy criterion, unchanged; the search matches a substring of description or notes |
| TestStore.NoCriteriaSelectsAll | src/database.js:201-234 | with no truthy criterion every case is returned |
| TestStore.StatusCriterionNarrows | src/database.js:210-213 | adding a status criterion can only remove cases from the result |
| TestStore.RoundedPercent | src/database.js:271-273 | 0 when the total is 0; otherwise round-half-up of 100·part/total; at most 100 when part ≤ total |
| TestStore.GetTestSummary | src/database.js:251-276 | total and every status count (passed, failed, pending, blocked, skipped) and priority count (critical, high, medium, low) are the suite's exact counts; both percentages are 0 on an empty suite, otherwise rounded, and lie in 0..100 |
| TestStore.Store.CreateTestSuite | src/database.js:88-95 | a fresh id larger than every existing one; `getTestSuite(id)` then returns exactly the new suite; the cases are unchanged |
| TestStore.Store.UpdateTestSuite | src/database.js:126-148 | with no whitelisted field, a no-valid-fields error and no change at all; otherwise the result is whether the id exists, and only that suite changes: its whitelisted columns are patched and it is stamped |
| TestStore.Store.DeleteTestSuite | src/database.js:150-154 | the result is whether the suite existed; afterwards `getTestSuite(id)` returns nothing and the cases are unchanged |
| TestStore.Store.AddTestCase | src/database.js:157-168 | a fresh id; a pending case with priority 'medium' and category null by default; the suite's `updated_at` strictly increases |
| TestStore.Store.UpdateTestCase | src/database.js:170-199 | with no whitelisted field, a no-valid-fields error and no change at all; otherwise the result is whether the id exists, the case's whitelisted columns are patched, and the case and its suite are stamped only when the case exists |
| TestStore.Store.DeleteTestCase | src/database.js:236-249 | the result is whether the case existed; it is removed; its suite is stamped only when it existed |
| StoreScenarios.SuiteLifecycle | src/database.test.js:60-87 | a created suite reads back; an update of name and project reads back with the description kept; after deletion nothing is found |
| StoreScenarios.SummaryOfPassedAndFailed | src/database.test.js:175-193 | the summary that `getTestSummary` (src/database.js:251-273) computes for two cases, one passed and high, one failed and critical: counts 2, 1, 1, 1, 1 and percentages 100 and 50 |
| StoreScenarios.MarkStatus | src/database.js:170-199 | updating only the status of an existing case changes that case's status and stamp and no other case |
| StoreScenarios.SummaryOfTwoCases | src/database.test.js:176-194 | the same two cases built through the store's own operations give that summary |
| Tools.PutMembers | src/mcp-server.js:366-370 | setting a defined argument adds exactly its entry; an undefined one adds nothing |
| Tools.UpdateFieldsDistinct | src/mcp-server.js:365-370 | the update object never has a field twice |
| Tools.UpdateFieldsMembers | src/mcp-server.js:365-370 | the update object holds exactly the defined arguments, all whitelisted, and is empty exactly when all five are undefined |
| Tools.BuildUpdates | src/mcp-server.js:365-370 | the five guarded assignments build the update object of the defined arguments, in source order |
| Tools.CheckUpdateArgs | src/mcp-server.js:355-363 | passes exactly when the args destructure and all six checks pass; otherwise the error is the first failing check's, in source order (id, status, priority, notes, category, description); passing implies a positive-integer id and bindable arguments |
| Tools.ToValue | src/database.js:175-193 | undefined and null bind as NULL, a boolean as the number 1 or 0, a number as itself and a string as TEXT |
| Tools.CaseId | src/mcp-server.js:358 | the id of validated arguments is a positive integer equal to the `id` argument |
| Tools.UpdateFieldsPatchValue | src/mcp-server.js:365-370 | each field the bound update object writes carries its argument's bound value, or nothing when undefined |
| Tools.UpdatePatchAllowed | src/mcp-server.js:365-372 | the update object passes the store's whitelist unchanged, and is empty exactly when no argument is defined |
| Tools.BoundFieldsColumns | src/mcp-server.js:365-372 | applying the bound update object sets each column to its bound argument when defined and leaves it otherwise; ids and stamp unchanged |
| Tools.UpdatedColumns | src/mcp-server.js:365-372 | after the update each column is its bound argument if defined, otherwise unchanged; ids unchanged |
| Tools.UpdateTestCaseTool | src/mcp-server.js:354-380 | a validation failure or an empty update is an error with the store untouched; otherwise an existing case is updated column by column and its suite stamped, and a missing id is a not-found error with both tables unchanged; the id counters never change |
| Migrations.SomeNamed | src/migrations.js:3 | true exactly when some column has the name |
| Migrations.HasColumn | src/migrations.js:1-4 | true exactly when the table exists and has the column |
| Migrations.AddColumn | src/migrations.js:25 | one new last column, NULL in every row, every other cell unchanged |
| Migrations.EnsureColumnEffect | src/migrations.js:24-26 | the guarded ALTER adds the name to the column set and changes no cell |
| Migrations.WithNewColumnsEffect | src/migrations.js:24-34 | the three guarded ALTERs make the column set the old one plus title, tags and completed_at, changing no cell |
| Migrations.FillTitles | src/migrations.js:36 | every row gets its description as title when its title is NULL, and is otherwise untouched |
| Migrations.FillTitlesTwice | src/migrations.js:36 | the backfill is idempotent |
| Migrations.FinishFirstMigrationEffect | src/migrations.js:36-62 | a missing description column fails before any change; on success tasks is backfilled, both tables exist and both indexes exist |
| Migrations.FirstMigration | src/migrations.js:23-63 | a missing tasks table fails and changes nothing; a tasks table without description fails with that column's error; on success tasks, dependencies and history exist with both indexes |
| Migrations.FirstMigrationColumns | src/migrations.js:23-35 | a missing tasks table fails and changes nothing; otherwise the column set becomes the old one plus title, tags and completed_at |
| Migrations.FirstMigrationBackfill | src/migrations.js:36 | after a successful migration NULL titles become the description and every other cell is unchanged |
| Migrations.FirstMigrationIdempotent | src/migrations.js:23-63 | running the migration again on its own result changes nothing |
| Migrations.RunFrom | src/migrations.js:69-74 | the loop never goes below its start version, and it stops below the number of migrations exactly when it stopped on an error |
| Migrations.RunFromSucceeds | src/migrations.js:66-75 | a run without error ends at max(start version, number of migrations), having applied exactly the migrations from the start version up, in order |
| Migrations.RunFromApplied | src/migrations.js:69-74 | every run applies only migrations at or above the start version, one each, in increasing order |
| Migrations.RunFromTwice | src/migrations.js:69 | running the loop again from where a successful run stopped applies nothing |
| Migrations.Written | src/migrations.js:72 | each applied migration writes a version exactly one above its index |
| Migrations.Database.EnsureSchemaVersionTable | src/migrations.js:6-20 | with no row, inserts and returns 0; otherwise returns the stored version and changes nothing |
| Migrations.Database.AlterAddColumn | src/migrations.js:25 | a missing table or a column the table already has is an error and changes nothing; otherwise the column is added |
| Migrations.Database.EnsureColumnStep | src/migrations.js:24-26 | a missing table is an error and changes nothing; otherwise the column is added exactly when the table lacks it |
| Migrations.Database.AddTaskColumnsStep | src/migrations.js:24-34 | the three guarded ALTERs have exactly the effect of `AddTaskColumns` |
| Migrations.Database.FinishFirstMigrationStep | src/migrations.js:36-62 | the backfill, the two CREATE TABLEs and the two CREATE INDEXes have exactly the effect of `FinishFirstMigration` |
| Migrations.Database.RunFirstMigration | src/migrations.js:23-63 | the migration's statements have exactly the effect of `FirstMigration`, stopping at the first error |
| Migrations.Database.ApplyNext | src/migrations.js:70-73 | one turn of the loop: the migration's effect is that of `Migration`; on success every version row holds the next version and the number of rows is unchanged, and the migration and the version written are recorded; on failure no version is written |
| Migrations.Database.RunMigrations | src/migrations.js:66-75 | the schema, error and stored version are those of `RunFrom` from the stored version; each applied migration is recorded and writes its version plus one |
| Migrations.RunTwice | src/migrations.js:66-75 | a second run right after a successful one applies nothing, writes nothing and leaves the schema as the first run left it |

## Left out

- The project/task dependency engine (cycle check, blocked and actionable tasks, field history) is exercised by tests and web routes but is not implemented in `src/database.js`, so it is not part of this model.
- `src/web-server.js`, `src/config.js` and `scripts/mcp-smoke-test.js` (HTTP routing, configuration, a child-process smoke test) are not part of this model.
- SQLite plumbing: `init`, reading `schema.sql`, the promisified `run`/`get`/`all`, `close`. The tables are in-memory maps.
- `schema.sql` is not part of this model, so column defaults, CHECK constraints and foreign keys are unknown. The model assumes two things about them. First, a new case's status defaults to 'pending' (see above) and every other column `addTestCase` does not write, such as `notes`, starts NULL. Second, there is no foreign-key constraint on `suite_id`. `src/database.js` turns on `PRAGMA foreign_keys`, so such a constraint would make `addTestCase` on a missing suite throw, and would make deleting a suite that still has cases either throw or cascade. In the model, adding a case to a missing suite succeeds, and deleting a suite leaves its cases in place.
- `CURRENT_TIMESTAMP` has second resolution; the model's clock is a counter, so ties between rows written in the same second are not modelled.
- The `ORDER BY ... DESC` orderings of `getTestSuites` and `getTestCases` are not modelled: both results are maps keyed by id.
- TestStore.RoundedPercent: floating-point `Math.round(x / total * 100)` is modelled as exact round-half-up on integers; float error near a half is not captured.
- TestStore.GetTestCases: SQL `LIKE` matching is modelled as plain case-sensitive substring matching; `LIKE`'s ASCII case-insensitivity and the `%`/`_` wildcards in the search term are not captured.
- NaN and infinities are not representable in `JsValue` numbers (reals), so validator behaviour on them is not modelled.
- The other seven tools (`create_test_suite`, `list_test_suites`, `add_test_case`, `get_test_cases`, `get_test_summary`, `delete_test_case`, `delete_test_suite`) appear only through the `run` parameter of the tool dispatch; their bodies are not modelled.
- The tool catalogue's input schemas and the `capabilities` object of the initialize reply are not modelled; only tool names and protocol data are.
- `sendResponse`/`sendError` write to stdout; the model returns the responses instead. Error messages are `Error` values rather than formatted strings.
- Tools.SuccessPayload: the message prints the id in decimal, which matches JavaScript's number printing only below 10^21.
- The `data` handler is `async`: a second chunk can arrive while an `await` inside the loop is pending, and the two handlers then interleave on the shared buffer. The model runs each chunk's round to completion.
- `JSON.parse` and the tools' own work are parameters of the dispatch and are not modelled further.
- Framing.Server.OnData: each chunk arrives as a `string`, but the source calls `chunk.toString()` on each `Buffer` separately. A UTF-8 character split across two chunks therefore decodes as U+FFFD replacement characters in the source; the model does not capture this. JavaScript strings are also sequences of UTF-16 code units, and a lone surrogate cannot be a Dafny `char`, so such input is not modelled either.
- Framing.Server.OnData: the dispatch is a fixed function of the line, so state is not threaded from one line to the next. A tool call that changes the store does not change how later lines are answered in the model.
- Tools.ToValue: booleans binding as 1 and 0, `undefined` as NULL, is an assumption about the `sqlite3` driver, whose code is not part of this model.
- Migrations.HasColumn: compares column names case-sensitively, as the source does. SQLite column names are case-insensitive, so the model does not capture that an ALTER of `Title` on a table with `title` fails.
- Migrations.Migration: a negative stored version makes `migrations[v]` undefined and the call throws; the model reports this as `NotAFunction` without a message.
- Migrations: the `PRAGMA table_info` listing is modelled as the table's column names; column types and `DEFAULT` clauses of the created tables are not.
