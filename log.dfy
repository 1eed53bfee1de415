/** The result table of bot.py: an append-only list of (account, task, status) rows. */
module Log {

  import Json
  import opened Dispatch

  /** The ten quest tasks the bot knows. */
  datatype QuestId =
    | DailyLogin
    | JoinTelegramCatGoldMiner | FollowXHatchersElement | JoinTelegramHatchersElement | FollowXCatGoldMiner
    | ClaimTelegramCatGoldMiner | ClaimXHatchersElement | ClaimTelegramHatchersElement | ClaimDailyLogin
    | ClaimXCatGoldMiner

  /** The second column of a row. */
  datatype Task = AccountInfoTask | StatusTask | ParsingAccountTask | LoadQueriesTask | QuestTask(id: QuestId)

  /** The third column of a row, as a structured value rather than markup text. */
  datatype RowStatus =
    | Dispatched(outcome: Outcome)                            // one dispatched quest task
    | AccountInfo(userId: Json.Value, firstName: Json.Value)  // "User ID: ..., First Name: ..."
    | Running                                                 // "Menjalankan quest"
    | AllQuestsDone                                           // "Semua quest selesai"
    | ParseFailed                                             // the credential line did not parse
    | NoQueries                                               // no credential line was loaded

  /** One row. The account column holds the `username` value of the account, or "-". */
  datatype Row = Row(account: Json.Value, task: Task, status: RowStatus)

  /** The account column of rows that belong to no account. */
  const NoAccount: Json.Value := Json.JString("-")

  /** The rich `Table` the bot adds rows to. Rows are only ever appended. */
  class ResultLog {
    var rows: seq<Row>

    constructor ()
      ensures rows == []
    {
      rows := [];
    }

    /** `table.add_row`: one row at the end, nothing else changes. */
    method Append(row: Row)
      modifies this
      ensures rows == old(rows) + [row]
    {
      rows := rows + [row];
    }
  }
}
