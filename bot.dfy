/** The orchestration of bot.py: `process_account` for one credential line and `main` for the run. */
module Bot {

  import opened Wrappers
  import opened Text
  import Json
  import opened Credentials
  import opened Dispatch
  import opened Log
  import opened Quests

  /** Everything outside the bot's own decisions: `parse_qs`, the decoding of the `user` value,
      and the network. */
  datatype Environment = Environment(parseQs: string -> QueryParams, decodeUser: UserDecoder, server: Server)

  /** `parse_query` applied to one credential line. */
  function ParseAccount(query: string, env: Environment): Option<Account>
  {
    ParseQuery(query, env.parseQs(query), env.decodeUser)
  }

  /** The row of a credential line that does not parse. */
  const ParseFailureRow: Row := Row(NoAccount, ParsingAccountTask, ParseFailed)

  /** The only row of a run that loaded no credential line. */
  const NoQueriesRow: Row := Row(NoAccount, LoadQueriesTask, NoQueries)

  /** The rows `process_account` writes for one line when the table already holds `base` rows. */
  function AccountRows(query: string, env: Environment, base: nat): seq<Row>
  {
    match ParseAccount(query, env)
    case None => [ParseFailureRow]
    case Some(a) => ParsedAccountRows(a, env.server, base)
  }

  /** The rows of an account whose line parsed. */
  function ParsedAccountRows(a: Account, server: Server, base: nat): seq<Row>
  {
    [Row(a.username, AccountInfoTask, AccountInfo(a.userId, a.firstName)), Row(a.username, StatusTask, Running)]
    + BatchRows(DailyPath, DailyTasks, a.authData, a.username, server, base + 2)
    + BatchRows(SocialPath, SocialTasks, a.authData, a.username, server, base + 3)
    + BatchRows(ClaimPath, ClaimTasks, a.authData, a.username, server, base + 7)
    + [Row(a.username, StatusTask, AllQuestsDone)]
  }

  /** `process_account`: a line that does not parse adds its failure row and nothing else; a parsed
      account adds its info row, the running row, the daily, social and claim batches in that
      order, and the closing row. Failed quests do not stop the later batches. */
  method ProcessAccount(log: ResultLog, query: string, env: Environment)
    modifies log
    ensures log.rows == old(log.rows) + AccountRows(query, env, |old(log.rows)|)
  {
    var account := ParseAccount(query, env);
    if account.None? {
      log.Append(ParseFailureRow);
    } else {
      ProcessParsedAccount(log, account.value, env.server);
    }
  }

  /** The part of `process_account` after a successful parse. */
  method ProcessParsedAccount(log: ResultLog, a: Account, server: Server)
    modifies log
    ensures log.rows == old(log.rows) + ParsedAccountRows(a, server, |old(log.rows)|)
  {
    ghost var start := log.rows;
    var info := Row(a.username, AccountInfoTask, AccountInfo(a.userId, a.firstName));
    var running := Row(a.username, StatusTask, Running);
    var done := Row(a.username, StatusTask, AllQuestsDone);
    ghost var daily := BatchRows(DailyPath, DailyTasks, a.authData, a.username, server, |start| + 2);
    ghost var social := BatchRows(SocialPath, SocialTasks, a.authData, a.username, server, |start| + 3);
    ghost var claim := BatchRows(ClaimPath, ClaimTasks, a.authData, a.username, server, |start| + 7);
    BatchRowsLength(DailyPath, DailyTasks, a.authData, a.username, server, |start| + 2);
    BatchRowsLength(SocialPath, SocialTasks, a.authData, a.username, server, |start| + 3);
    log.Append(info);
    log.Append(running);
    assert log.rows == start + [info, running];
    var dailyOk := DailyQuest(log, server, a.authData, a.username);
    assert log.rows == start + [info, running] + daily;
    var socialOk := SocialQuests(log, server, a.authData, a.username);
    assert log.rows == start + [info, running] + daily + social;
    var claimOk := ClaimQuests(log, server, a.authData, a.username);
    assert log.rows == start + [info, running] + daily + social + claim;
    log.Append(done);
    JoinStages(start, [info, running], daily, social, claim, [done]);
  }

  /** Appending the stages of an account one after the other appends the account's rows. */
  lemma JoinStages(start: seq<Row>, head: seq<Row>, daily: seq<Row>, social: seq<Row>, claim: seq<Row>, tail: seq<Row>)
    ensures start + head + daily + social + claim + tail == start + (head + daily + social + claim + tail)
  {
  }

  /** The quest rows of a parsed account: after the two opening rows come the daily dispatch, the
      four social dispatches and the five claim dispatches, each task in list order and each at
      its own position. */
  lemma ParsedAccountQuestRows(a: Account, server: Server, base: nat)
    ensures var rows := ParsedAccountRows(a, server, base);
            && |rows| == 13
            && rows[2] == DispatchRow(DailyPath, DailyLogin, a.authData, a.username, server, base + 2)
            && (forall k :: 0 <= k < |SocialTasks| ==>
                  rows[3 + k] == DispatchRow(SocialPath, SocialTasks[k], a.authData, a.username, server, base + 3 + k))
            && (forall k :: 0 <= k < |ClaimTasks| ==>
                  rows[7 + k] == DispatchRow(ClaimPath, ClaimTasks[k], a.authData, a.username, server, base + 7 + k))
  {
    DailyRow(a, server, base);
    SocialRows(a, server, base);
    ClaimRows(a, server, base);
  }

  /** The third row of a parsed account is its daily dispatch. */
  lemma DailyRow(a: Account, server: Server, base: nat)
    ensures var rows := ParsedAccountRows(a, server, base);
            && |rows| == 13
            && rows[2] == DispatchRow(DailyPath, DailyLogin, a.authData, a.username, server, base + 2)
  {
    var head := [Row(a.username, AccountInfoTask, AccountInfo(a.userId, a.firstName)), Row(a.username, StatusTask, Running)];
    var daily := BatchRows(DailyPath, DailyTasks, a.authData, a.username, server, base + 2);
    var social := BatchRows(SocialPath, SocialTasks, a.authData, a.username, server, base + 3);
    var claim := BatchRows(ClaimPath, ClaimTasks, a.authData, a.username, server, base + 7);
    var tail := [Row(a.username, StatusTask, AllQuestsDone)];
    assert head + daily + social + claim + tail == ParsedAccountRows(a, server, base);
    BatchRowsAt(DailyPath, DailyTasks, a.authData, a.username, server, base + 2);
    BatchRowsLength(SocialPath, SocialTasks, a.authData, a.username, server, base + 3);
    BatchRowsLength(ClaimPath, ClaimTasks, a.authData, a.username, server, base + 7);
    StagesAt(head, daily, social, claim, tail);
  }

  /** Rows 3 to 6 of a parsed account are its social dispatches, in list order. */
  lemma SocialRows(a: Account, server: Server, base: nat)
    ensures var rows := ParsedAccountRows(a, server, base);
            && |rows| == 13
            && (forall k :: 0 <= k < |SocialTasks| ==>
                  rows[3 + k] == DispatchRow(SocialPath, SocialTasks[k], a.authData, a.username, server, base + 3 + k))
  {
    var head := [Row(a.username, AccountInfoTask, AccountInfo(a.userId, a.firstName)), Row(a.username, StatusTask, Running)];
    var daily := BatchRows(DailyPath, DailyTasks, a.authData, a.username, server, base + 2);
    var social := BatchRows(SocialPath, SocialTasks, a.authData, a.username, server, base + 3);
    var claim := BatchRows(ClaimPath, ClaimTasks, a.authData, a.username, server, base + 7);
    var tail := [Row(a.username, StatusTask, AllQuestsDone)];
    assert head + daily + social + claim + tail == ParsedAccountRows(a, server, base);
    BatchRowsLength(DailyPath, DailyTasks, a.authData, a.username, server, base + 2);
    BatchRowsAt(SocialPath, SocialTasks, a.authData, a.username, server, base + 3);
    BatchRowsLength(ClaimPath, ClaimTasks, a.authData, a.username, server, base + 7);
    StagesAt(head, daily, social, claim, tail);
  }

  /** Rows 7 to 11 of a parsed account are its claim dispatches, in list order. */
  lemma ClaimRows(a: Account, server: Server, base: nat)
    ensures var rows := ParsedAccountRows(a, server, base);
            && |rows| == 13
            && (forall k :: 0 <= k < |ClaimTasks| ==>
                  rows[7 + k] == DispatchRow(ClaimPath, ClaimTasks[k], a.authData, a.username, server, base + 7 + k))
  {
    var head := [Row(a.username, AccountInfoTask, AccountInfo(a.userId, a.firstName)), Row(a.username, StatusTask, Running)];
    var daily := BatchRows(DailyPath, DailyTasks, a.authData, a.username, server, base + 2);
    var social := BatchRows(SocialPath, SocialTasks, a.authData, a.username, server, base + 3);
    var claim := BatchRows(ClaimPath, ClaimTasks, a.authData, a.username, server, base + 7);
    var tail := [Row(a.username, StatusTask, AllQuestsDone)];
    assert head + daily + social + claim + tail == ParsedAccountRows(a, server, base);
    BatchRowsLength(DailyPath, DailyTasks, a.authData, a.username, server, base + 2);
    BatchRowsLength(SocialPath, SocialTasks, a.authData, a.username, server, base + 3);
    BatchRowsAt(ClaimPath, ClaimTasks, a.authData, a.username, server, base + 7);
    StagesAt(head, daily, social, claim, tail);
  }

  /** Indexing into the five stages of an account's rows. */
  lemma StagesAt(head: seq<Row>, daily: seq<Row>, social: seq<Row>, claim: seq<Row>, tail: seq<Row>)
    ensures var rows := head + daily + social + claim + tail;
            && |rows| == |head| + |daily| + |social| + |claim| + |tail|
            && (forall k :: 0 <= k < |daily| ==> rows[|head| + k] == daily[k])
            && (forall k :: 0 <= k < |social| ==> rows[|head| + |daily| + k] == social[k])
            && (forall k :: 0 <= k < |claim| ==> rows[|head| + |daily| + |social| + k] == claim[k])
  {
  }

  /** A parsed account writes thirteen rows, all under its username: Account Info, Status, the
      daily, social and claim tasks in list order, and Status. */
  lemma ParsedAccountRowsShape(a: Account, server: Server, base: nat)
    ensures var rows := ParsedAccountRows(a, server, base);
            && |rows| == 13
            && rows[0].task == AccountInfoTask && rows[1].task == StatusTask && rows[12].task == StatusTask
            && rows[2].task == QuestTask(DailyLogin)
            && (forall k :: 0 <= k < |SocialTasks| ==> rows[3 + k].task == QuestTask(SocialTasks[k]))
            && (forall k :: 0 <= k < |ClaimTasks| ==> rows[7 + k].task == QuestTask(ClaimTasks[k]))
            && (forall row :: row in rows ==> row.account == a.username)
  {
    var rows := ParsedAccountRows(a, server, base);
    ParsedAccountQuestRows(a, server, base);
    forall row | row in rows ensures row.account == a.username {
      var i :| 0 <= i < 13 && rows[i] == row;
      if 3 <= i < 7 {
        assert rows[3 + (i - 3)] == DispatchRow(SocialPath, SocialTasks[i - 3], a.authData, a.username, server, base + i);
      } else if 7 <= i < 12 {
        assert rows[7 + (i - 7)] == DispatchRow(ClaimPath, ClaimTasks[i - 7], a.authData, a.username, server, base + i);
      }
    }
  }

  /** A line that does not parse writes its failure row and nothing else; a parsed line writes the
      rows of its account, and every request made for it carries the line's stripped text as
      its `tma` authorization. */
  lemma AccountRowsCases(query: string, env: Environment, base: nat)
    ensures ParseAccount(query, env).None? ==> AccountRows(query, env, base) == [ParseFailureRow]
    ensures ParseAccount(query, env).Some? ==>
              && AccountRows(query, env, base) == ParsedAccountRows(ParseAccount(query, env).value, env.server, base)
              && forall endpoint, id :: RequestFor(endpoint, id, ParseAccount(query, env).value.authData).authorization == "tma " + Strip(query)
  {
    ParseQueryMeaning(query, env.parseQs(query), env.decodeUser);
  }

  /** Where each batch sits among a parsed account's rows: the row at `i` belongs to the daily
      batch exactly when `i` is 2, to the social batch exactly when `i` is 3 to 6, and to the claim
      batch exactly when `i` is 7 to 11. */
  lemma BatchPositions(a: Account, server: Server, base: nat)
    ensures var rows := ParsedAccountRows(a, server, base);
            forall i :: 0 <= i < |rows| ==>
              && (InBatch(rows[i], DailyTasks) <==> i == 2)
              && (InBatch(rows[i], SocialTasks) <==> 3 <= i < 7)
              && (InBatch(rows[i], ClaimTasks) <==> 7 <= i < 12)
  {
    var rows := ParsedAccountRows(a, server, base);
    ParsedAccountRowsShape(a, server, base);
    TaskTables();
    forall i | 0 <= i < |rows|
      ensures && (InBatch(rows[i], DailyTasks) <==> i == 2)
              && (InBatch(rows[i], SocialTasks) <==> 3 <= i < 7)
              && (InBatch(rows[i], ClaimTasks) <==> 7 <= i < 12)
    {
      if 3 <= i < 7 {
        var id := SocialTasks[i - 3];
        assert rows[3 + (i - 3)].task == QuestTask(id);
        assert id in SocialTasks;
      } else if 7 <= i < 12 {
        var id := ClaimTasks[i - 7];
        assert rows[7 + (i - 7)].task == QuestTask(id);
        assert id in ClaimTasks;
      }
    }
  }

  /** Daily before social before claim: within a parsed account's rows, the daily row comes before
      every social row, and every social row before every claim row. */
  lemma BatchOrder(a: Account, server: Server, base: nat)
    ensures var rows := ParsedAccountRows(a, server, base);
            && (forall i, j ::
                  0 <= i < |rows| && 0 <= j < |rows| && InBatch(rows[i], DailyTasks) && InBatch(rows[j], SocialTasks)
                  ==> i < j)
            && (forall i, j ::
                  0 <= i < |rows| && 0 <= j < |rows| && InBatch(rows[i], SocialTasks) && InBatch(rows[j], ClaimTasks)
                  ==> i < j)
  {
    BatchPositions(a, server, base);
  }

  /** The row is the dispatch row of one of the tasks of `batch`. */
  predicate InBatch(row: Row, batch: seq<QuestId>)
  {
    row.task.QuestTask? && row.task.id in batch
  }

  /** The rows of processing `items` in order, one after the other from position `base`, when
      processing an item at position `p` writes `block(item, p)`. */
  function Blocks(items: seq<string>, block: (string, nat) -> seq<Row>, base: nat): seq<Row>
    decreases |items|
  {
    if items == [] then []
    else
      var first := block(items[0], base);
      first + Blocks(items[1..], block, base + |first|)
  }

  /** Processing two lists one after the other writes the rows of the first, then those of the
      second. */
  lemma {:induction false} BlocksAppend(a: seq<string>, b: seq<string>, block: (string, nat) -> seq<Row>, base: nat)
    ensures Blocks(a + b, block, base) == Blocks(a, block, base) + Blocks(b, block, base + |Blocks(a, block, base)|)
    decreases |a|
  {
    if a == [] {
      assert a + b == b;
    } else {
      assert (a + b)[0] == a[0] && (a + b)[1..] == a[1..] + b;
      BlocksAppend(a[1..], b, block, base + |block(a[0], base)|);
    }
  }

  /** Processing one more item appends its block right after the blocks of the items before it. */
  lemma BlocksStep(items: seq<string>, block: (string, nat) -> seq<Row>, base: nat, i: nat)
    requires i < |items|
    ensures Blocks(items[..i + 1], block, base)
         == Blocks(items[..i], block, base) + block(items[i], base + |Blocks(items[..i], block, base)|)
  {
    var prefix := Blocks(items[..i], block, base);
    BlocksAppend(items[..i], [items[i]], block, base);
    assert items[..i + 1] == items[..i] + [items[i]];
    assert [items[i]][1..] == [];
    assert Blocks([items[i]], block, base + |prefix|) == block(items[i], base + |prefix|) + Blocks([], block, base + |prefix| + |block(items[i], base + |prefix|)|);
  }

  /** `own` appears, complete and contiguous, in `rows` from position `at` on. */
  predicate SitsAt(rows: seq<Row>, at: nat, own: seq<Row>)
  {
    at + |own| <= |rows| && rows[at..at + |own|] == own
  }

  /** The rows of the i-th item sit, complete, right after the rows of the items before it. */
  lemma BlocksAt(items: seq<string>, block: (string, nat) -> seq<Row>, base: nat, i: nat)
    requires i < |items|
    ensures SitsAt(Blocks(items, block, base), |Blocks(items[..i], block, base)|,
                   block(items[i], base + |Blocks(items[..i], block, base)|))
  {
    var prefix := Blocks(items[..i], block, base);
    var own := block(items[i], base + |prefix|);
    var suffix := items[i..];
    assert items == items[..i] + suffix;
    BlocksAppend(items[..i], suffix, block, base);
    assert suffix[0] == items[i] && suffix[1..] == items[i + 1..];
    var rest := Blocks(items[i + 1..], block, base + |prefix| + |own|);
    assert Blocks(suffix, block, base + |prefix|) == own + rest;
    assert Blocks(items, block, base) == prefix + own + rest;
  }

  /** `process_account` as a block writer: the rows of a line processed at position `p`. */
  function AccountBlock(env: Environment): (string, nat) -> seq<Row>
  {
    (query: string, position: nat) => AccountRows(query, env, position)
  }

  /** Applying the block writer is processing the line. */
  lemma AccountBlockApplies(query: string, env: Environment, position: nat)
    ensures AccountBlock(env)(query, position) == AccountRows(query, env, position)
  {
  }

  /** How many of the lines parse. */
  function ParsedCount(queries: seq<string>, env: Environment): (n: nat)
    ensures n <= |queries|
  {
    if queries == [] then 0
    else (if ParseAccount(queries[0], env).Some? then 1 else 0) + ParsedCount(queries[1..], env)
  }

  /** A line that parses writes thirteen rows, one that does not writes one. */
  lemma AccountRowCount(query: string, env: Environment, base: nat)
    ensures |AccountBlock(env)(query, base)| == if ParseAccount(query, env).Some? then 13 else 1
  {
    assert AccountBlock(env)(query, base) == AccountRows(query, env, base);
    AccountRowsCases(query, env, base);
    if ParseAccount(query, env).Some? {
      ParsedAccountRowsShape(ParseAccount(query, env).value, env.server, base);
    }
  }

  /** Thirteen rows per parsed account and one per line that does not parse. */
  lemma {:induction false} QueriesRowCount(queries: seq<string>, env: Environment, base: nat)
    ensures |Blocks(queries, AccountBlock(env), base)| == 13 * ParsedCount(queries, env) + (|queries| - ParsedCount(queries, env))
    decreases |queries|
  {
    if queries != [] {
      var block := AccountBlock(env);
      var first := block(queries[0], base);
      AccountRowCount(queries[0], env, base);
      QueriesRowCount(queries[1..], env, base + |first|);
      assert Blocks(queries, block, base) == first + Blocks(queries[1..], block, base + |first|);
    }
  }

  /** The whole table of a run of `main`, given the data file (`None` when it does not exist). */
  function RunRows(file: Option<seq<string>>, env: Environment): seq<Row>
  {
    var queries := LoadQueriesFromFile(file);
    if queries == [] then [NoQueriesRow] else Blocks(queries, AccountBlock(env), 0)
  }

  /** `main`: load the lines; with none, a table holding the single "Load Queries" failure row;
      otherwise one table that every account in turn appends to. */
  method Run(file: Option<seq<string>>, env: Environment) returns (log: ResultLog)
    ensures fresh(log)
    ensures log.rows == RunRows(file, env)
  {
    var queries := LoadQueriesFromFile(file);
    log := new ResultLog();
    if queries == [] {
      log.Append(NoQueriesRow);
      return;
    }
    for i := 0 to |queries|
      invariant log.rows == Blocks(queries[..i], AccountBlock(env), 0)
    {
      BlocksStep(queries, AccountBlock(env), 0, i);
      ghost var position := |log.rows|;
      assert AccountBlock(env)(queries[i], position) == AccountRows(queries[i], env, position);
      ProcessAccount(log, queries[i], env);
    }
    assert queries[..|queries|] == queries;
  }

  /** No failure aborts the run: the rows of the i-th loaded line sit, complete, right after the
      rows of the lines before it, whatever those lines and their dispatches gave. */
  lemma EveryAccountProcessed(file: Option<seq<string>>, env: Environment, i: nat)
    requires i < |LoadQueriesFromFile(file)|
    ensures var queries := LoadQueriesFromFile(file);
            var before := |Blocks(queries[..i], AccountBlock(env), 0)|;
            SitsAt(RunRows(file, env), before, AccountRows(queries[i], env, before))
  {
    var queries := LoadQueriesFromFile(file);
    BlocksAt(queries, AccountBlock(env), 0, i);
    AccountBlockApplies(queries[i], env, |Blocks(queries[..i], AccountBlock(env), 0)|);
  }

  /** The size of the final table: one row when nothing was loaded, otherwise thirteen per line
      that parses and one per line that does not. */
  lemma RunRowCount(file: Option<seq<string>>, env: Environment)
    ensures var queries := LoadQueriesFromFile(file);
            var parsed := ParsedCount(queries, env);
            |RunRows(file, env)| == if queries == [] then 1 else 13 * parsed + (|queries| - parsed)
  {
    QueriesRowCount(LoadQueriesFromFile(file), env, 0);
  }

  /** A missing file, or one with only blank lines, gives exactly the "Load Queries" failure row. */
  lemma NothingLoaded(file: Option<seq<string>>, env: Environment)
    requires file.Some? ==> forall i :: 0 <= i < |file.value| ==> IsBlank(file.value[i])
    ensures RunRows(file, env) == [NoQueriesRow]
  {
    if file.Some? {
      LoadQueriesExactly(file.value);
      NonBlankFromExactly(file.value, 0);
    }
  }

  /** A file holding one blank line and one credential line processes exactly that one account,
      with the credential line stripped. */
  lemma BlankLineThenAccount(blank: string, line: string, env: Environment)
    requires IsBlank(blank) && !IsBlank(line)
    ensures RunRows(Some([blank, line]), env) == AccountRows(Strip(line), env, 0)
  {
    assert [blank, line] == [blank] + [line];
    LoadQueriesAppend([blank], [line]);
    LoadQueriesLine(blank);
    LoadQueriesLine(line);
    assert LoadQueriesFromFile(Some([blank, line])) == [Strip(line)];
    var block := AccountBlock(env);
    assert [Strip(line)][1..] == [];
    assert Blocks([Strip(line)], block, 0) == block(Strip(line), 0) + Blocks([], block, |block(Strip(line), 0)|);
    assert block(Strip(line), 0) == AccountRows(Strip(line), env, 0);
  }

  /** The line a loaded account is parsed from is its own authorization payload: loading already
      stripped it, so `parse_query`'s second strip changes nothing. */
  lemma LoadedLineIsAuthData(lines: seq<string>, env: Environment, i: nat)
    requires i < |LoadQueries(lines)|
    requires ParseAccount(LoadQueries(lines)[i], env).Some?
    ensures ParseAccount(LoadQueries(lines)[i], env).value.authData == LoadQueries(lines)[i]
  {
    assert LoadQueries(lines)[i] in LoadQueries(lines);
  }
}
