# Cost tracking, env-file validation, trace summaries and note filenames

This project models, in Dafny, the deterministic core of a small command-line agent:

- **The usage meter** (`CostTracking`). A `CostTracker` holds four in-memory sections:
  - `daily`: date → totals.
  - `monthly`: `YYYY-MM` → totals.
  - `sessions`: session id → totals plus start time.
  - `toolUsage`: date → tool → count.

  It prices a request from a static table, with a fallback to the default model. `TrackRequest` adds a request into the day, month and (for a truthy session id) session buckets. Each bucket is created zeroed on first write. `CheckBudget` compares today's and this month's cost against the limits with a strict `<`. `TrackToolUsage` counts tool invocations per day, and `GetToolSummary` reports them.

  Two ghost logs give the sections their meaning: every request tracked so far, and every tool invocation. The object invariant `Valid()` says that each section is what replaying the logs into empty sections gives. The lemmas `TalliedAccounts` and `ToolTallyAccounts` prove what that means bucket by bucket:
  - A bucket exists exactly when some logged request landed in it.
  - It holds the sums of those requests.
  - Each tool counter is the number of logged invocations.
- **The `.env.example` validator** (`EnvValidation`). It works over the file's lines:
  - Blank and comment lines are skipped.
  - Every other line is split at its first `=`, and both halves are stripped.
  - Variable names are collected.
  - Values that look like an AWS access key, an API key or an AWS account id are flagged.
  - The six required names are checked.
- **The trace summarisers** (`TraceSummary`). These render a message's or a tool result's content as a short string.
- **The note filename rule** (`NoteFilename`). It sanitises a note's title and builds `notes/<title>.txt` from it.

The current date, the current timestamp and the budget settings are parameters. A missing environment setting is `None`. Money is `real`. Strings are `seq<char>`.

The model follows the code as written:
- A negative token count is accepted and priced like any other; no error is raised.
- Nothing is written to disk, so the model has no atomic persist and no error for a corrupt store.
- Tool usage is not persisted either: the as-written call fails instead (see Findings).

## Model

| member | source | states |
|---|---|---|
| `CostTracking.RatesFor` | utils/cost_tracker.py:102 | The haiku model gets 0.80/4.00 per million tokens; every other model id, known or not, gets the default model's 3.00/15.00, and the lookup never fails |
| `CostTracking.RequestCost` | utils/cost_tracker.py:103-105 | Zero tokens cost 0; non-negative tokens never cost less than 0; a request with input tokens costs more than 0 |
| `CostTracking.RequestCostAdditive` | utils/cost_tracker.py:103-105 | Pricing is linear: the cost of summed token counts is the sum of the costs |
| `CostTracking.HaikuExample` | utils/cost_tracker.py:103-105 | 1000 input and 500 output tokens on the haiku model cost exactly 0.0028 |
| `CostTracking.MonthOf` | utils/cost_tracker.py:109 | The month key is at most 7 characters, is a prefix of the date, and has exactly 7 characters for a full date |
| `CostTracking.RecordAccounts` | utils/cost_tracker.py:112-137 | Adding one request into its bucket, creating the bucket zeroed when absent, keeps the section exactly accounted for by the extended log: every bucket holds the sum of its requests, and every logged request has its bucket |
| `CostTracking.TalliedAccounts` | utils/cost_tracker.py:112-153 | Replaying a request log gives sections in which a bucket exists exactly when some logged request landed in it, and holds the sum of those requests |
| `CostTracking.BucketTotals` | utils/cost_tracker.py:120-123 | Every existing bucket's cost, input and output tokens are the plain sums over the requests that landed in it, and its request count is how many there were |
| `CostTracking.BucketCost` | utils/cost_tracker.py:45-46 | Reading a bucket's cost, with a missing bucket counting as 0, gives the sum of the costs of the requests that landed in that bucket, and 0 when none did |
| `CostTracking.SameDayTotals` | utils/cost_tracker.py:120-123 | After n requests on the same day, that day's bucket exists, its cost is the sum of the n request costs and its request count is n |
| `CostTracking.MonthCoversDay` | utils/cost_tracker.py:108-137 | Every day bucket has its month bucket, and the month has served at least as many requests as the day |
| `CostTracking.IncrementAccounts` | utils/cost_tracker.py:170-176 | Raising one counter, creating the day and the tool at 0 when absent, keeps every counter equal to the number of logged invocations |
| `CostTracking.ToolTallyAccounts` | utils/cost_tracker.py:167-176 | Replaying the tool log gives counters that each equal the number of logged invocations, at least 1, with a counter for every logged invocation |
| `CostTracking.FourIncrements` | utils/cost_tracker.py:170-176 | Counting calculator, calculator, system-info and calculator on one day into an empty section gives that day calculator: 3 and system-info: 1 |
| `CostTracking.CountPositive` | utils/cost_tracker.py:173-176 | A tool's count on a day is positive exactly when some logged invocation matches that day and tool |
| `CostTracking.CostTracker.constructor` | utils/cost_tracker.py:30-35 | A tracker without a backing file starts with the four sections empty and satisfies the invariant |
| `CostTracking.CostTracker.CheckBudget` | utils/cost_tracker.py:37-55 | Reads only. An unset limit takes its default, 1.00 a day or 10.00 a month. A missing bucket counts as cost 0. The used amounts are the sums of the costs tracked today and this month. Each flag is the strict comparison used < limit |
| `CostTracking.CostTracker.TrackRequest` | utils/cost_tracker.py:98-161 | Keeps the invariant. Adds exactly the request's cost, tokens and one request to today's and this month's buckets, each created zeroed when absent. A truthy session id gets the same, with a new session stamped with the current time. A falsy id leaves sessions unchanged. No other bucket or section changes. The returned totals are the updated day and month costs |
| `CostTracking.CostTracker.TrackToolUsage` | utils/cost_tracker.py:163-177 | As written: raises exactly today's counter for the tool by 1, creating missing levels at 0, leaves every other counter and section unchanged, and then fails on the missing `save_data` attribute |
| `CostTracking.CostTracker.TrackToolUsageIntended` | utils/cost_tracker.py:163-176 | The same counter update, after which the call returns normally |
| `CostTracking.CostTracker.GetToolSummary` | utils/cost_tracker.py:57-63 | The "no tools used today" case happens exactly when no invocation was tracked today; otherwise the summary is today's counters, each the number of tracked invocations of that tool today |
| `CostTracking.TwoRequestScenario` | utils/cost_tracker.py:98-161 | Two haiku requests of 1000/500 tokens cost 0.0028 each and leave the day at 0.0056 over 2 requests; only the session of the second exists, holding 1 request |
| `CostTracking.ToolUsageScenario` | utils/cost_tracker.py:163-176 | Three calculator calls and one system-info call on one day summarise to calculator: 3, get_system_info: 1 |
| `CostTracking.ToolUsageRaisesScenario` | utils/cost_tracker.py:176-177 | As written, one tool call fails, yet the in-memory counter has already moved to 1 |
| `EnvValidation.Strip` | scripts/validate_env_example.py:29 | The stripped text neither starts nor ends with whitespace and is no longer than the line |
| `EnvValidation.StripSlice` | scripts/validate_env_example.py:29 | Strip keeps one contiguous slice of the line, starting right after the leading whitespace |
| `EnvValidation.StripRemovesSpace` | scripts/validate_env_example.py:29 | Everything strip removes, before and after the kept slice, is whitespace |
| `EnvValidation.StripEmpty` | scripts/validate_env_example.py:29 | A line strips to nothing exactly when every character is whitespace |
| `EnvValidation.IndexOf` | scripts/validate_env_example.py:33-34 | No position is returned exactly when the character does not occur; otherwise the position holds the character and no earlier one does |
| `EnvValidation.IndexOfFirst` | scripts/validate_env_example.py:33-34 | When the character sits at position k and nowhere before it, the search finds exactly k |
| `EnvValidation.ReadLine` | scripts/validate_env_example.py:29-38 | A line is skipped exactly when it strips to empty or to text starting with `#`; a kept line without `=` assigns nothing; an assigned name never contains `=` |
| `EnvValidation.ReadLineSplitsAtFirst` | scripts/validate_env_example.py:34-36 | An assignment splits the line at its first `=`: the name is the stripped text before it and the value is the stripped rest, later `=` included |
| `EnvValidation.AccessKeyFlagged` | scripts/validate_env_example.py:42 | `AKIA` followed by 16 upper-case letters or digits is found in a value |
| `EnvValidation.AccountIdFlagged` | scripts/validate_env_example.py:44 | Twelve consecutive digits inside a longer value are found |
| `EnvValidation.NonAssignmentContributesNothing` | scripts/validate_env_example.py:29-33 | A blank line, a comment line or a line without `=` adds no name and no issue, whatever precedes it |
| `EnvValidation.FoundNamesAssigned` | scripts/validate_env_example.py:33-38 | A name is found exactly when some line assigns it |
| `EnvValidation.LineIssuesMembers` | scripts/validate_env_example.py:41-49 | An issue is among one assignment's issues exactly when it is a suspicious-value issue for that line number and name whose pattern is one of the patterns and matches the value |
| `EnvValidation.LineIssuesCount` | scripts/validate_env_example.py:47-49 | A matching pattern contributes one issue for each time it appears in the pattern list, and a pattern that does not match contributes none |
| `EnvValidation.LineIssuesOnce` | scripts/validate_env_example.py:41-49 | One assignment gets exactly one issue for each of the three patterns that matches its value, and none for the others |
| `EnvValidation.IssuesExactly` | scripts/validate_env_example.py:27-49 | An issue for line n, pattern p and name is reported exactly when line n, counted from 1, assigns that name a value that p matches |
| `EnvValidation.IssuesAreSuspicious` | scripts/validate_env_example.py:47-49 | The line scan reports only suspicious-value issues |
| `EnvValidation.SkippedOnlyMissesRequired` | scripts/validate_env_example.py:51-55 | A file of only blank and comment lines assigns no name, so all six required names are missing |
| `EnvValidation.CheckValue` | scripts/validate_env_example.py:47-49 | The pattern loop appends one issue per matching pattern, in pattern order |
| `EnvValidation.ScanLines` | scripts/validate_env_example.py:23-49 | The line loop yields exactly the names the lines assign and the issues of their values, in line order |
| `EnvValidation.Validate` | scripts/validate_env_example.py:1-65 | As written: a missing file returns False; if a required name is missing the call raises NameError for `missing_vards`; otherwise it returns True exactly when no value looks suspicious |
| `EnvValidation.ValidateIntended` | scripts/validate_env_example.py:51-65 | The missing required names become one more issue. The result is True exactly when the file exists, no value looks suspicious and all six names are assigned |
| `TraceSummary.Take` | utils/trace_enrichment.py:215 | A cut keeps the first n characters, or the whole string when it is shorter |
| `TraceSummary.BlockPart` | utils/trace_enrichment.py:220-228 | A block contributes exactly when it is a dictionary with a text, toolUse or toolResult entry. Its part is never empty, and a text part is at most 108 characters |
| `TraceSummary.PartPrecedence` | utils/trace_enrichment.py:220-228 | Once a block has text, its toolUse and toolResult entries do not matter. Once it has toolUse, its toolResult does not matter |
| `TraceSummary.SummaryPartsAppend` | utils/trace_enrichment.py:219-229 | Parts follow block order: the parts of concatenated block lists are the concatenated parts |
| `TraceSummary.NoParts` | utils/trace_enrichment.py:218-229 | There are no parts exactly when no block contributes |
| `TraceSummary.JoinEmpty` | utils/trace_enrichment.py:229 | Joining non-empty parts gives the empty string exactly when there are no parts |
| `TraceSummary.SummaryEmptyIff` | utils/trace_enrichment.py:217-229 | A block list summarises to the empty string exactly when no block contributes, so in particular for the empty list |
| `TraceSummary.SummarizeMessage` | utils/trace_enrichment.py:212-231 | A string is cut to 200 characters. A block list gives its parts joined by a space, a vertical bar and a space. Anything else is rendered and cut to 200 characters. Every non-list branch gives at most 200 characters |
| `TraceSummary.FirstTextAt` | utils/trace_enrichment.py:235-238 | The first text is that of the earliest block with a text entry |
| `TraceSummary.FirstTextNone` | utils/trace_enrichment.py:235-239 | There is no first text exactly when no block has a text entry |
| `TraceSummary.SummarizeToolResult` | utils/trace_enrichment.py:233-239 | For a block list, the text of the first block that has one, cut to 200 characters, ignoring later blocks. Without such a block, or for other content, the rendering cut to 200. Always at most 200 characters |
| `NoteFilename.SafeTitle` | tools/custom_tools.py:29 | Every character kept is alphanumeric, a space, `-` or `_`, and the result is no longer than the title |
| `NoteFilename.SafeTitleAppend` | tools/custom_tools.py:29 | Sanitising distributes over concatenation, so kept characters keep their original order |
| `NoteFilename.SafeTitleKeepsAllowed` | tools/custom_tools.py:29 | Each allowed character is kept as often as the title has it, and no other character is kept |
| `NoteFilename.SafeTitleFixed` | tools/custom_tools.py:29 | A title is unchanged exactly when all its characters are allowed |
| `NoteFilename.SafeTitleIdempotent` | tools/custom_tools.py:29 | Sanitising twice is sanitising once |
| `NoteFilename.NotePath` | tools/custom_tools.py:29-30 | The path starts with `notes/` and ends with `.txt`. Nothing between them is `/` or `.`, so the name cannot leave the notes directory |
| `NoteFilename.OnlySeparator` | tools/custom_tools.py:29-30 | The only `/` in a note's path is the one closing `notes` |

## Left out

- JSON persistence: loading an existing file in `_load_data` and writing it in `_save_data`, including the write at the end of `track_request`. The sections live in memory only.
- Today's date and the current timestamp are parameters. So are the budget settings, as `None` when unset; parsing them with `float` is not modelled.
- Floating-point rounding: money is exact `real`.
- The `tabulate` rendering in `get_summary` and `get_tool_summary`; `get_summary` is formatting only. `GetToolSummary` returns the day's counters or the "no tools used today" case.
- `CostTracking.CostTracker.TrackToolUsage`: the branch that recreates a missing `tool_usage` section is not modelled. The in-memory section always exists; only a store loaded from an older file could lack it.
- Concurrency: calls are sequential.
- The validator's file access and console output: the file is its list of lines plus whether it exists. Issues are structured values, not the printed message text. The missing names are a set, since the order in which Python joins a set is unspecified.
- `EnvValidation.InClass`: `\d` is modelled as the ASCII digits only. Python's `\d` on strings also matches other Unicode decimal digits.
- The regular-expression engine: the three patterns are written as a literal prefix followed by a fixed run of one character class, and a search succeeds when they match at some position.
- `NoteFilename.IsAllowed`: `str.isalnum` is modelled as ASCII letters and digits only. Python also accepts other Unicode letters and digits, none of which is `/` or `.`.
- The file write in `save_note`, the date it records, and `get_system_info`.
- `TraceSummary`: the values of `text`, `name`, `toolUseId` and `status` are taken to be strings. A non-string text, which Python would slice or fail on differently, is not modelled. Python's `str(...)` rendering of non-string content is a given `repr`.
- The rest of the tracing hook (span creation, attributes, exporters), the interactive CLI, the tests and the demo script.

## Findings

| source | as written | input that shows it | evidently intended | confidence | as-written member | corrected member |
|---|---|---|---|---|---|---|
| scripts/validate_env_example.py:55 | The message for missing required variables names `missing_vards`, which is undefined, so the validator raises NameError instead of reporting | An existing `.env.example` with no `LOG_LEVEL=` line, e.g. an empty file (`EnvValidation.SkippedOnlyMissesRequired`) | Report the missing names as an issue and return False | not executed | `EnvValidation.Validate` | `EnvValidation.ValidateIntended` |
| utils/cost_tracker.py:177 | `track_tool_usage` calls `self.save_data()`, but the class only defines `_save_data`, so every call raises AttributeError after the in-memory increment | Any call, e.g. one `calculator` invocation (`CostTracking.ToolUsageRaisesScenario`) | Persist the counters and return normally | not executed | `CostTracking.CostTracker.TrackToolUsage` | `CostTracking.CostTracker.TrackToolUsageIntended` |
