/** The quest tasks of bot.py and their dispatch: `make_request`'s side of the table,
    `daily_login`, `social_quests` and `claim_quests`. */
module Quests {

  import opened Wrappers
  import Json
  import opened Dispatch
  import opened Log

  /** The three API paths the bot posts to. */
  datatype Endpoint = DailyPath | SocialPath | ClaimPath

  /** The `action_value` a payload carries: the daily-login marker or one of four community
      links. */
  datatype Target = DailyLoginMarker | TelegramCatGoldMiner | XHatchersElement | TelegramHatchersElement | XCatGoldMiner

  /** The JSON payload of one quest action; `questType` is sent by the claim tasks only. */
  datatype Payload = Payload(questType: Option<int>, actionCode: int, actionValue: Target)

  /** The payload each task sends. */
  function PayloadOf(id: QuestId): Payload
  {
    match id
    case DailyLogin => Payload(None, 0, DailyLoginMarker)
    case JoinTelegramCatGoldMiner => Payload(None, 2, TelegramCatGoldMiner)
    case FollowXHatchersElement => Payload(None, 1, XHatchersElement)
    case JoinTelegramHatchersElement => Payload(None, 0, TelegramHatchersElement)
    case FollowXCatGoldMiner => Payload(None, 3, XCatGoldMiner)
    case ClaimTelegramCatGoldMiner => Payload(Some(1), 2, TelegramCatGoldMiner)
    case ClaimXHatchersElement => Payload(Some(1), 1, XHatchersElement)
    case ClaimTelegramHatchersElement => Payload(Some(1), 0, TelegramHatchersElement)
    case ClaimDailyLogin => Payload(Some(0), 0, DailyLoginMarker)
    case ClaimXCatGoldMiner => Payload(Some(1), 3, XCatGoldMiner)
  }

  /** `daily_login`'s single task. */
  const DailyTasks: seq<QuestId> := [DailyLogin]

  /** The list of `social_quests`, in its order. */
  const SocialTasks: seq<QuestId> :=
    [JoinTelegramCatGoldMiner, FollowXHatchersElement, JoinTelegramHatchersElement, FollowXCatGoldMiner]

  /** The list of `claim_quests`, in its order. */
  const ClaimTasks: seq<QuestId> :=
    [ClaimTelegramCatGoldMiner, ClaimXHatchersElement, ClaimTelegramHatchersElement, ClaimDailyLogin, ClaimXCatGoldMiner]

  /** The three task lists: one daily, four social and five claim tasks, no task in two lists,
      only the claim tasks carrying a quest type. */
  lemma TaskTables()
    ensures |DailyTasks| == 1 && |SocialTasks| == 4 && |ClaimTasks| == 5
    ensures forall id :: id in DailyTasks ==> id !in SocialTasks && id !in ClaimTasks
    ensures forall id :: id in SocialTasks ==> id !in ClaimTasks
    ensures forall id :: id in DailyTasks + SocialTasks ==> PayloadOf(id).questType.None?
    ensures forall id :: id in ClaimTasks ==> PayloadOf(id).questType.Some?
  {
  }

  /** One POST as the bot issues it: the path (`Literals.Url` gives the URL), the
      `authorization` header and the JSON body. The other headers are one fixed set. */
  datatype Request = Request(endpoint: Endpoint, authorization: string, payload: Payload)

  /** The network, as an oracle: the reply to a request, given the position of the table row that
      the dispatch writes. Each dispatch writes one row, so each one gets its own reply. */
  type Server = (Request, nat) -> Reply

  /** The request `make_request` sends for a task on behalf of an account. */
  function RequestFor(endpoint: Endpoint, id: QuestId, authData: string): Request
  {
    Request(endpoint, "tma " + authData, PayloadOf(id))
  }

  /** The outcome of dispatching a task whose row lands at `position`. */
  function DispatchOutcome(endpoint: Endpoint, id: QuestId, authData: string, server: Server, position: nat): Outcome
  {
    Classify(server(RequestFor(endpoint, id, authData), position))
  }

  /** The row one dispatch writes at `position` of the table. */
  function DispatchRow(endpoint: Endpoint, id: QuestId, authData: string, username: Json.Value, server: Server, position: nat): Row
  {
    Row(username, QuestTask(id), Dispatched(DispatchOutcome(endpoint, id, authData, server, position)))
  }

  /** The rows a batch writes when its tasks are dispatched one after the other from `base` on. */
  function BatchRows(endpoint: Endpoint, batch: seq<QuestId>, authData: string, username: Json.Value, server: Server, base: nat): seq<Row>
  {
    if batch == [] then []
    else [DispatchRow(endpoint, batch[0], authData, username, server, base)]
         + BatchRows(endpoint, batch[1..], authData, username, server, base + 1)
  }

  /** A batch writes one row per task. */
  lemma {:induction false} BatchRowsLength(endpoint: Endpoint, batch: seq<QuestId>, authData: string, username: Json.Value, server: Server, base: nat)
    ensures |BatchRows(endpoint, batch, authData, username, server, base)| == |batch|
  {
    if batch != [] {
      BatchRowsLength(endpoint, batch[1..], authData, username, server, base + 1);
    }
  }

  /** The i-th row of a batch is the dispatch of its i-th task at position `base + i`, under the
      account's name. */
  lemma {:induction false} BatchRowsAt(endpoint: Endpoint, batch: seq<QuestId>, authData: string, username: Json.Value, server: Server, base: nat)
    ensures |BatchRows(endpoint, batch, authData, username, server, base)| == |batch|
    ensures forall i :: 0 <= i < |batch| ==>
              BatchRows(endpoint, batch, authData, username, server, base)[i]
              == DispatchRow(endpoint, batch[i], authData, username, server, base + i)
  {
    BatchRowsLength(endpoint, batch, authData, username, server, base);
    if batch != [] {
      BatchRowsAt(endpoint, batch[1..], authData, username, server, base + 1);
    }
  }

  /** Dispatching two lists one after the other writes the rows of the first, then those of the
      second. */
  lemma {:induction false} BatchRowsAppend(endpoint: Endpoint, a: seq<QuestId>, b: seq<QuestId>, authData: string, username: Json.Value, server: Server, base: nat)
    ensures BatchRows(endpoint, a + b, authData, username, server, base)
         == BatchRows(endpoint, a, authData, username, server, base)
            + BatchRows(endpoint, b, authData, username, server, base + |a|)
  {
    if a == [] {
      assert a + b == b;
    } else {
      assert (a + b)[1..] == a[1..] + b;
      BatchRowsAppend(endpoint, a[1..], b, authData, username, server, base + 1);
    }
  }

  /** Dispatching one more task of a list extends the rows by that task's row. */
  lemma BatchRowsStep(endpoint: Endpoint, batch: seq<QuestId>, i: nat, authData: string, username: Json.Value, server: Server, base: nat)
    requires i < |batch|
    ensures |BatchRows(endpoint, batch[..i], authData, username, server, base)| == i
    ensures BatchRows(endpoint, batch[..i + 1], authData, username, server, base)
         == BatchRows(endpoint, batch[..i], authData, username, server, base)
            + [DispatchRow(endpoint, batch[i], authData, username, server, base + i)]
  {
    BatchRowsLength(endpoint, batch[..i], authData, username, server, base);
    BatchRowsAppend(endpoint, batch[..i], [batch[i]], authData, username, server, base);
    assert batch[..i + 1] == batch[..i] + [batch[i]];
  }

  /** The batch's boolean: every member dispatch succeeded (`all(results)`). */
  predicate BatchSucceeded(endpoint: Endpoint, batch: seq<QuestId>, authData: string, server: Server, base: nat)
  {
    forall i :: 0 <= i < |batch| ==> DispatchOutcome(endpoint, batch[i], authData, server, base + i).IsSuccess()
  }

  /** One more dispatch keeps the batch successful exactly when that dispatch succeeds. */
  lemma BatchSucceededStep(endpoint: Endpoint, batch: seq<QuestId>, i: nat, authData: string, server: Server, base: nat)
    requires i < |batch|
    ensures BatchSucceeded(endpoint, batch[..i + 1], authData, server, base)
        <==> BatchSucceeded(endpoint, batch[..i], authData, server, base)
             && DispatchOutcome(endpoint, batch[i], authData, server, base + i).IsSuccess()
  {
    assert forall k :: 0 <= k < i ==> batch[..i + 1][k] == batch[..i][k];
  }

  /** The batch result is the AND of what its rows show: it is true exactly when no row of the
      batch holds a failed outcome. */
  lemma BatchSucceededIffRows(endpoint: Endpoint, batch: seq<QuestId>, authData: string, username: Json.Value, server: Server, base: nat)
    ensures BatchSucceeded(endpoint, batch, authData, server, base) <==>
              forall row :: row in BatchRows(endpoint, batch, authData, username, server, base) ==>
                row.status.Dispatched? && row.status.outcome.IsSuccess()
  {
    var rows := BatchRows(endpoint, batch, authData, username, server, base);
    BatchRowsAt(endpoint, batch, authData, username, server, base);
    if BatchSucceeded(endpoint, batch, authData, server, base) {
      forall row | row in rows ensures row.status.Dispatched? && row.status.outcome.IsSuccess() {
        var i :| 0 <= i < |rows| && rows[i] == row;
      }
    } else {
      var i :| 0 <= i < |batch| && !DispatchOutcome(endpoint, batch[i], authData, server, base + i).IsSuccess();
      assert rows[i] in rows;
    }
  }

  /** `make_request`: send the request, classify the reply, append exactly one row whatever the
      outcome, and return the success flag. */
  method MakeRequest(log: ResultLog, server: Server, endpoint: Endpoint, id: QuestId, authData: string, username: Json.Value)
    returns (ok: bool)
    modifies log
    ensures log.rows == old(log.rows) + [DispatchRow(endpoint, id, authData, username, server, |old(log.rows)|)]
    ensures ok == DispatchOutcome(endpoint, id, authData, server, |old(log.rows)|).IsSuccess()
  {
    var reply := server(RequestFor(endpoint, id, authData), |log.rows|);
    var outcome := Classify(reply);
    log.Append(Row(username, QuestTask(id), Dispatched(outcome)));
    ok := outcome.IsSuccess();
  }

  /** The worker-pool body shared by `social_quests` and `claim_quests`, run one task after the
      other: a row per task in list order, and the AND of the results (every task is dispatched,
      whatever the earlier ones returned). */
  method RunBatch(log: ResultLog, server: Server, endpoint: Endpoint, batch: seq<QuestId>, authData: string, username: Json.Value)
    returns (ok: bool)
    modifies log
    ensures log.rows == old(log.rows) + BatchRows(endpoint, batch, authData, username, server, |old(log.rows)|)
    ensures ok == BatchSucceeded(endpoint, batch, authData, server, |old(log.rows)|)
  {
    ghost var start := log.rows;
    ok := true;
    for i := 0 to |batch|
      invariant log.rows == start + BatchRows(endpoint, batch[..i], authData, username, server, |start|)
      invariant ok == BatchSucceeded(endpoint, batch[..i], authData, server, |start|)
    {
      BatchRowsStep(endpoint, batch, i, authData, username, server, |start|);
      BatchSucceededStep(endpoint, batch, i, authData, server, |start|);
      var succeeded := MakeRequest(log, server, endpoint, batch[i], authData, username);
      assert log.rows == start + BatchRows(endpoint, batch[..i + 1], authData, username, server, |start|);
      ok := ok && succeeded;
    }
    assert batch[..|batch|] == batch;
  }

  /** `daily_login`: the single daily task. */
  method DailyQuest(log: ResultLog, server: Server, authData: string, username: Json.Value) returns (ok: bool)
    modifies log
    ensures log.rows == old(log.rows) + BatchRows(DailyPath, DailyTasks, authData, username, server, |old(log.rows)|)
    ensures ok == BatchSucceeded(DailyPath, DailyTasks, authData, server, |old(log.rows)|)
  {
    ok := MakeRequest(log, server, DailyPath, DailyLogin, authData, username);
  }

  /** `social_quests`: the four social tasks. */
  method SocialQuests(log: ResultLog, server: Server, authData: string, username: Json.Value) returns (ok: bool)
    modifies log
    ensures log.rows == old(log.rows) + BatchRows(SocialPath, SocialTasks, authData, username, server, |old(log.rows)|)
    ensures ok == BatchSucceeded(SocialPath, SocialTasks, authData, server, |old(log.rows)|)
  {
    ok := RunBatch(log, server, SocialPath, SocialTasks, authData, username);
  }

  /** `claim_quests`: the five claim tasks. */
  method ClaimQuests(log: ResultLog, server: Server, authData: string, username: Json.Value) returns (ok: bool)
    modifies log
    ensures log.rows == old(log.rows) + BatchRows(ClaimPath, ClaimTasks, authData, username, server, |old(log.rows)|)
    ensures ok == BatchSucceeded(ClaimPath, ClaimTasks, authData, server, |old(log.rows)|)
  {
    ok := RunBatch(log, server, ClaimPath, ClaimTasks, authData, username);
  }
}
