# Hatchers quest bot, modelled in Dafny

`bot.py` is a command-line bot for the Hatchers Element quest API. It reads one Telegram
Mini App credential line per account from `data.txt`, parses each line into an account record,
and for every account posts a fixed list of quest actions: one daily login, four social quests
and five claims. Every answer is classified as succeeded, already completed or failed and
appended as a row to one result table, which is redrawn after each row.

This project models that core:

- `Text`: Python's `str.isspace`, `str.strip` and substring `in`.
- `Credentials`: `load_queries_from_file` and `parse_query`.
- `Dispatch`: the classification in `make_request`.
- `Log`: the table rows and the append-only table, as the class `ResultLog`.
- `Quests`:
  - the ten quest tasks and their payloads;
  - `make_request` as a method that appends one row;
  - `daily_login`, `social_quests` and `claim_quests` as methods over the table.
- `Literals`: the base URL, the paths, the action-value texts and the row labels.
- `Bot`: `process_account` and `main`.
- `Wrappers` and `Json` hold the support types.

The outside world is passed in as parameters (`Bot.Environment`):

- `parse_qs`, as a function from the line to its parameter map;
- `unquote` followed by `json.loads` on the `user` value, as a partial decoder;
- the network, as an oracle `Server`. It maps a request and the position of the table row the
  dispatch will write to a reply. Every dispatch writes exactly one row, so every dispatch
  gets its own reply, and the model stays deterministic without fixing what the API answers.

Each imperative operation of the source is a method that updates the `ResultLog`. It is proved
against a function that gives the rows it appends (`BatchRows`, `ParsedAccountRows`,
`AccountRows`, `RunRows`). The lemmas prove the promised properties about those functions:

- batch sizes and task order;
- each batch's boolean is the AND of its dispatches;
- thirteen rows per parsed account and one row per unparsed line;
- accounts are processed in input order, and no failure stops the run;
- the single "Load Queries" row when nothing is loaded.

## Model

| member | source | states |
|---|---|---|
| Text.IsSpace | bot.py:39 | the characters Python's `str.isspace` accepts; no contract of its own, it is the white space that `Text.StripCuts` and `Text.StripEmptyIff` speak of |
| Text.Strip | bot.py:39 | Python's `str.strip`; no contract of its own, its meaning is proved by `Text.StripCuts`, `Text.StripEmptyIff` and `Text.StripIdempotent` |
| Text.StripEmptyIff | bot.py:39 | a stripped line is empty exactly when every character of it is white space, so `if line.strip()` keeps exactly the non-blank lines |
| Text.StripCuts | bot.py:39 | `strip` keeps one contiguous slice of the line, removes only white space on either side, and the slice neither starts nor ends with white space |
| Text.TrimStartCuts | bot.py:39 | removing leading white space removes a blank prefix and stops at a non-space character |
| Text.TrimEndCuts | bot.py:39 | removing trailing white space removes a blank suffix and stops at a non-space character |
| Text.StripIdempotent | bot.py:63 | stripping an already stripped line changes nothing |
| Text.ContainsIff | bot.py:97 | the substring test `marker in text` holds exactly when the marker occurs at some index of the text |
| Credentials.LoadQueries | bot.py:39 | the loaded queries are at most as many as the lines, and each one is non-blank and already stripped |
| Credentials.LoadQueriesFromFile | bot.py:35-43 | a missing file loads no queries; an existing file loads at most one query per line |
| Credentials.LoadQueriesAppend | bot.py:39 | loading distributes over concatenation of line lists, keeping line order |
| Credentials.LoadQueriesLine | bot.py:39 | a single line is kept, stripped, exactly when it is not blank |
| Credentials.LoadQueriesExactly | bot.py:39 | the k-th query is the stripped k-th non-blank line, and there are exactly as many queries as non-blank lines |
| Credentials.NonBlankFromExactly | bot.py:39 | the positions listed are strictly increasing, all non-blank, and include every non-blank position |
| Credentials.UserObject | bot.py:54-57 | the first `user` value decoded to a JSON object, or nothing when the key is absent, its list is empty, decoding fails or the value is not an object (the `KeyError`, `IndexError` and `TypeError` paths); no contract of its own, its role is stated by `Credentials.ParseQueryMeaning` |
| Credentials.ParseQuery | bot.py:45-67 | `parse_query`; no contract of its own, its meaning is `Credentials.ParseQueryMeaning`, `Credentials.ParseQueryIgnoresQueryId` and `Credentials.ParseQueryRoundTrip` |
| Credentials.ParseQueryMeaning | bot.py:45-67 | no `user` parameter gives no account; a line parses exactly when its first `user` value decodes to a JSON object holding `id`, `username` and `first_name`; the record's fields are those values, and its auth data is the stripped line |
| Credentials.ParseQueryIgnoresQueryId | bot.py:50-57 | the `query_id` and legacy branches give the same result: removing `query_id` from the parameters changes nothing |
| Credentials.ParseQueryRoundTrip | bot.py:45-64 | a line parses to a given account exactly when the line stripped is its auth data and the decoded user object holds its three identity fields |
| Dispatch.IsNullDataEnvelope | bot.py:79-84 | a JSON object holding `statusCode`, `data` and `message` with `data` null; no contract of its own, used by `Dispatch.ClassifyMeaning` |
| Dispatch.Classify | bot.py:74-115 | the outcome of one reply; no contract of its own, its meaning is `Dispatch.ClassifyMeaning` |
| Dispatch.ClassifyMeaning | bot.py:74-115 | each outcome, both directions: succeeded exactly for a decoded 400 null-data envelope or a decoded 201; already completed exactly for a decoded 401 whose text contains the marker; rejected with the response text for every other decoded answer; a fault carrying the error when the body does not decode or the transport fails |
| Dispatch.SuccessFlag | bot.py:85-115 | `make_request` returns true exactly for the three recognised answers |
| Dispatch.OtherStatusFails | bot.py:104-115 | a status other than 400, 201 and 401 always fails, with the response text when the body decoded |
| Dispatch.MarkerOnlyCountsOn401 | bot.py:97 | the marker text never means "already completed" on a status other than 401 |
| Log.ResultLog.constructor | bot.py:220-223 | a new table has no rows |
| Log.ResultLog.Append | bot.py:85 | `add_row` appends exactly one row and changes nothing else |
| Quests.PayloadOf | bot.py:117-145 | the payload of each task, with the task lists `DailyTasks`, `SocialTasks` and `ClaimTasks` beside it; no contract of its own, their shape is stated by `Quests.TaskTables` |
| Quests.RequestFor | bot.py:69-75 | the request of a task: its path, the header `tma ` plus the auth data, and the task's payload; no contract of its own, used by `Bot.AccountRowsCases` |
| Quests.BatchRows | bot.py:129-135 | the rows a batch appends; no contract of its own, its meaning is `Quests.BatchRowsAt` and `Quests.BatchRowsAppend` |
| Quests.BatchSucceeded | bot.py:135-136 | `all(results)` over the batch's dispatches; no contract of its own, related to the rows by `Quests.BatchSucceededIffRows` |
| Quests.TaskTables | bot.py:117-154 | one daily task, four social tasks and five claim tasks; no task is in two lists; only claim payloads carry `questType` |
| Quests.BatchRowsAt | bot.py:129-135 | a batch writes one row per task; the i-th row is the dispatch of the i-th task, under the account's username, with the outcome of its own reply |
| Quests.BatchRowsAppend | bot.py:129-135 | dispatching two task lists in sequence writes the first list's rows, then the second's |
| Quests.BatchSucceededStep | bot.py:136 | one more dispatch keeps the batch successful exactly when that dispatch succeeds |
| Quests.BatchSucceededIffRows | bot.py:136 | `all(results)` holds exactly when every row the batch wrote shows a non-failed outcome |
| Quests.MakeRequest | bot.py:69-115 | appends exactly one row, the classified outcome of the reply to this task's request, and returns that outcome's success flag |
| Quests.RunBatch | bot.py:129-136 | dispatches every task of the list whatever the earlier ones returned, appends their rows in list order, and returns the AND of their success flags |
| Quests.DailyQuest | bot.py:117-119 | posts the daily-login task to the daily path, appending its one row |
| Quests.SocialQuests | bot.py:121-136 | posts the four social tasks to the social path, appending four rows; the result is their AND |
| Quests.ClaimQuests | bot.py:138-154 | posts the five claim tasks to the claim path, appending five rows; the result is their AND |
| Literals.UrlsDistinct | bot.py:70 | the three batches post to three different URLs |
| Literals.TaskLabelsDistinct | bot.py:117-176 | distinct tasks get distinct labels in the Task column |
| Bot.AccountRows | bot.py:156-190 | the rows `process_account` appends for one line; no contract of its own, its meaning is `Bot.AccountRowsCases` and `Bot.AccountRowCount` |
| Bot.ParsedAccountRows | bot.py:165-190 | the rows of a parsed account; no contract of its own, its meaning is `Bot.ParsedAccountRowsShape`, `Bot.ParsedAccountQuestRows` and `Bot.BatchPositions` |
| Bot.ProcessAccount | bot.py:156-190 | appends exactly the rows of the line: the parse-failure row alone, or the thirteen rows of a parsed account |
| Bot.ProcessParsedAccount | bot.py:165-190 | appends Account Info, Status, the daily row, the social rows, the claim rows and the closing Status row, in that order, whatever the batches returned |
| Bot.AccountRowsCases | bot.py:156-184 | an unparsed line writes only the "Parsing Account" failure row; a parsed one writes its account's rows; every request of a parsed account is authorised with "tma " followed by the stripped line |
| Bot.ParsedAccountRowsShape | bot.py:166-187 | a parsed account writes thirteen rows, all under its username: Account Info, Status, the daily task, the four social tasks and the five claim tasks in list order, then Status |
| Bot.ParsedAccountQuestRows | bot.py:181-184 | row 2 is the daily dispatch, rows 3 to 6 the social dispatches and rows 7 to 11 the claim dispatches, each with its own reply's outcome |
| Bot.DailyRow | bot.py:182 | the third row of a parsed account is its daily dispatch |
| Bot.SocialRows | bot.py:183 | rows 3 to 6 of a parsed account are its social dispatches in list order |
| Bot.ClaimRows | bot.py:184 | rows 7 to 11 of a parsed account are its claim dispatches in list order |
| Bot.BatchPositions | bot.py:181-184 | a row belongs to the daily batch exactly at index 2, to the social batch exactly at indices 3 to 6, and to the claim batch exactly at indices 7 to 11 |
| Bot.BatchOrder | bot.py:181-184 | within an account, every daily row comes before every social row, and every social row before every claim row |
| Bot.BlocksAppend | bot.py:226-227 | processing two lists of lines in sequence writes the first list's rows, then the second's |
| Bot.BlocksStep | bot.py:226-227 | processing one more line appends its rows right after those of the earlier lines |
| Bot.BlocksAt | bot.py:226-227 | the rows of the i-th line sit, complete and contiguous, right after those of the earlier lines |
| Bot.AccountRowCount | bot.py:156-190 | a line writes thirteen rows when it parses and one row when it does not |
| Bot.QueriesRowCount | bot.py:226-227 | the lines together write thirteen rows per parsed line and one per unparsed line |
| Bot.RunRows | bot.py:207-227 | the final table of a run; no contract of its own, its meaning is `Bot.NothingLoaded`, `Bot.EveryAccountProcessed` and `Bot.RunRowCount` |
| Bot.Run | bot.py:202-232 | `main` builds a fresh table holding exactly the rows of the run |
| Bot.EveryAccountProcessed | bot.py:225-227 | no failure stops the run: the i-th loaded line's rows sit, complete, right after the rows of the lines before it |
| Bot.RunRowCount | bot.py:207-227 | the final table has one row when nothing was loaded; otherwise thirteen rows per parsed line and one per unparsed line |
| Bot.NothingLoaded | bot.py:207-217 | a missing file, or one with only blank lines, gives exactly the single "Load Queries" failure row |
| Bot.BlankLineThenAccount | bot.py:207-227 | a blank line followed by a credential line processes exactly one account, from the stripped line |
| Bot.LoadedLineIsAuthData | bot.py:39-63 | a loaded line that parses is its own auth data: the strip in `parse_query` changes nothing |

## Left out

- HTTP transport, the fixed request headers and JSON serialisation of the payload are not modelled. A request is its path, its `authorization` header and a structured payload. `Literals.Url` and `Literals.TargetText` give the texts.
- What the API answers is not modelled. The network is an oracle parameter that receives the request and the position of the row it will write.
- `parse_qs`, `unquote` and `json.loads` are not modelled. They are parameters: a parameter map, and a partial decoder of the `user` value.
- JSON numbers are modelled as integers. Floats do not affect any decision of the bot.
- `social_quests` and `claim_quests` run their tasks in thread pools, so rows within a batch can appear in any order. The model dispatches them one after the other in list order. Concurrent appends to the shared table are not modelled either.
- The redraw after every row (clearing the console, the banner and `rich` markup) is not modelled. The status column is a structured value, not markup text.
- The logger's error messages are not modelled.
- File errors other than a missing file are not modelled; bot.py does not catch them. A file is modelled as its list of lines.
- `process_account` discards the booleans returned by the three batch functions. The methods return them, and `Bot.ProcessParsedAccount` ignores them the same way.
- Bot.Run: `main`'s two table titles are not modelled ("Quest Bot Log" when nothing loads, "Quest Bot Log - All Accounts" otherwise). Only the rows are.
- The null-data envelope test is modelled as bot.py:79-84 writes it: it checks only that `statusCode`, `data` and `message` are present, so an envelope with extra keys still counts as success.
- Bot.ProcessAccount, Bot.EveryAccountProcessed: `rich`'s `add_row` and the redraws are modelled as calls that never fail, and the model does not capture the run aborting. In bot.py, a username that is neither a string nor null makes `add_row` raise at bot.py:166, outside any `try`, so `process_account` and `main` stop and no later account runs. Bracket markup in a first name, such as an unmatched closing tag, makes the redraw at bot.py:173 raise the same way. Markup in a response text makes the redraw at bot.py:108 raise inside `make_request`'s `try`; the handler then adds a second "Error" row (bot.py:111), and its own redraw at bot.py:114 raises. The guarantees of thirteen rows per parsed account and of every account being processed hold only when no such cell reaches the table.
