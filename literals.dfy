/** The literal texts of bot.py: where requests go, the action values they carry and the labels
    of the table's task column. Nothing else depends on them, so they sit apart from the logic. */
module Literals {

  import opened Log
  import opened Quests

  /** `BASE_URL`: the staging API every request goes to. */
  const BaseUrl: string := "https://api-staging-k8s.hatcherselement.io/api"

  /** The full URL a request to `endpoint` is posted to. */
  function Url(endpoint: Endpoint): string
  {
    BaseUrl + Path(endpoint)
  }

  /** The path text appended to `BaseUrl`. */
  function Path(endpoint: Endpoint): string
  {
    match endpoint
    case DailyPath => "/quests/daily"
    case SocialPath => "/quests/social"
    case ClaimPath => "/quests/claim"
  }

  /** The text sent as `action_value`. */
  function TargetText(target: Target): string
  {
    match target
    case DailyLoginMarker => "dailylogin"
    case TelegramCatGoldMiner => "https://t.me/catgoldminerann"
    case XHatchersElement => "https://x.com/HatchersElement"
    case TelegramHatchersElement => "https://t.me/HatchersElement_ann"
    case XCatGoldMiner => "https://x.com/catgoldminer"
  }

  /** The label a quest task is shown under in the table. */
  function QuestLabel(id: QuestId): string
  {
    match id
    case DailyLogin => "Daily Login"
    case JoinTelegramCatGoldMiner => "Join Telegram CatGoldMiner"
    case FollowXHatchersElement => "Follow X HatchersElement"
    case JoinTelegramHatchersElement => "Join Telegram HatchersElement"
    case FollowXCatGoldMiner => "Follow X CatGoldMiner"
    case ClaimTelegramCatGoldMiner => "Claim Telegram CatGoldMiner"
    case ClaimXHatchersElement => "Claim X HatchersElement"
    case ClaimTelegramHatchersElement => "Claim Telegram HatchersElement"
    case ClaimDailyLogin => "Claim Daily Login"
    case ClaimXCatGoldMiner => "Claim X CatGoldMiner"
  }

  /** The text of the second column. */
  function TaskLabel(task: Task): string
  {
    match task
    case AccountInfoTask => "Account Info"
    case StatusTask => "Status"
    case ParsingAccountTask => "Parsing Account"
    case LoadQueriesTask => "Load Queries"
    case QuestTask(id) => QuestLabel(id)
  }

  /** Distinct tasks are shown under distinct labels, so the table's Task column tells them apart. */
  lemma TaskLabelsDistinct(s: Task, t: Task)
    ensures TaskLabel(s) == TaskLabel(t) ==> s == t
  {
  }

  /** The three batches post to three different URLs. */
  lemma UrlsDistinct(a: Endpoint, b: Endpoint)
    ensures Url(a) == Url(b) ==> a == b
  {
    assert Url(a)[|BaseUrl|..] == Path(a);
    assert Url(b)[|BaseUrl|..] == Path(b);
  }
}
