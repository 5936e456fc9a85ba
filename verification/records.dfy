/**
 * The four tables of the ledger (users, bots, transactions, messages), the replies
 * its handlers send and the errors they answer with. Identifiers and strings are
 * `string`; times are milliseconds since the epoch.
 */
module Records {
  import opened Wrappers

  /** Coins a freshly registered account holds. */
  const StartingCoins := 20
  /** Coins one successful claim adds. */
  const ClaimReward := 10
  /** Coins one bot deployment costs. */
  const DeployCost := 10

  datatype User = User(
    id: string,
    username: string,
    password: string,
    token: string,
    coins: int,
    lastClaim: Option<int>)

  /** The two states a bot can be in; any other requested status is rejected. */
  datatype BotStatus = Running | Stopped

  datatype Bot = Bot(
    id: string,
    userId: string,
    name: string,
    webhookUrl: string,
    status: BotStatus,
    credsPath: string,
    deployedOn: int,
    lastActive: int,
    messagesProcessed: int)

  datatype TransactionType = CoinClaim | BotDeploy

  datatype Transaction = Transaction(
    id: string,
    userId: string,
    kind: TransactionType,
    amount: int,
    timestamp: int)

  datatype MessageStatus = Queued | Delivered

  datatype Message = Message(
    id: string,
    botId: string,
    userId: string,
    phoneNumber: string,
    body: string,
    status: MessageStatus,
    timestamp: int,
    deliveredAt: Option<int>)

  /** The public part of an account, as register and login return it. */
  datatype Profile = Profile(id: string, username: string, coins: int)

  /** The reply of register and login: the bearer token and the profile. */
  datatype Session = Session(token: string, user: Profile)

  /** The reply of a successful claim. */
  datatype ClaimReceipt = ClaimReceipt(coins: int, lastClaim: int)

  datatype Error =
    | Unauthorized            // no bearer token
    | InvalidToken            // no account holds the token
    | MissingFields           // a required request field is missing or empty
    | UsernameTaken           // register: the username is in use
    | InvalidLogin            // login: no account with that username and password
    | ClaimTooSoon(hours: int) // claim: cooldown running, hours until the next claim
    | InsufficientCoins       // deploy: fewer coins than a deployment costs
    | InvalidCredentialsFile  // deploy: the uploaded credentials do not parse
    | InvalidStatus           // set status: neither "running" nor "stopped"
    | BotNotFound             // no bot with that id owned by the caller
    | BotNotRunning           // send: the bot is stopped

  function SessionOf(u: User): Session {
    Session(u.token, Profile(u.id, u.username, u.coins))
  }

  /** The status a request names, if it is one of the two the server accepts. */
  function ParseStatus(s: string): (r: Option<BotStatus>)
    ensures r.Some? <==> s == "running" || s == "stopped"
    ensures r == Some(Running) <==> s == "running"
    ensures r == Some(Stopped) <==> s == "stopped"
  {
    if s == "running" then Some(Running)
    else if s == "stopped" then Some(Stopped)
    else None
  }

  // Record matchers, in the role of the query objects the handlers pass to `find`
  // and `filter` (`{ token }`, `{ id: botId, userId }`, ...).

  function WithToken(token: string): User -> bool { (u: User) => u.token == token }
  function WithUsername(username: string): User -> bool { (u: User) => u.username == username }
  function WithCredentials(username: string, password: string): User -> bool {
    (u: User) => u.username == username && u.password == password
  }
  function UserWithId(id: string): User -> bool { (u: User) => u.id == id }
  function BotWithId(id: string): Bot -> bool { (b: Bot) => b.id == id }
  function OwnedBy(userId: string): Bot -> bool { (b: Bot) => b.userId == userId }
  function OwnedBot(id: string, userId: string): Bot -> bool { (b: Bot) => b.id == id && b.userId == userId }
  function MessageWithId(id: string): Message -> bool { (m: Message) => m.id == id }

  // The identifiers in use in each table; fresh identifiers avoid them.

  function UserIds(users: seq<User>): set<string> { set u | u in users :: u.id }
  function Tokens(users: seq<User>): set<string> { set u | u in users :: u.token }
  function BotIds(bots: seq<Bot>): set<string> { set b | b in bots :: b.id }
  function TransactionIds(txs: seq<Transaction>): set<string> { set t | t in txs :: t.id }
  function MessageIds(ms: seq<Message>): set<string> { set m | m in ms :: m.id }

  // Updating a record in place without touching its identifier keeps the table's identifiers.

  lemma UserIdsUpdate(users: seq<User>, i: nat, u: User)
    requires i < |users| && u.id == users[i].id
    ensures UserIds(users[i := u]) == UserIds(users)
  {
    forall x | x in UserIds(users) ensures x in UserIds(users[i := u]) {
      var v :| v in users && v.id == x;
      var j :| 0 <= j < |users| && users[j] == v;
      assert users[i := u][j].id == x;
    }
  }

  lemma BotIdsUpdate(bots: seq<Bot>, k: nat, b: Bot)
    requires k < |bots| && b.id == bots[k].id
    ensures BotIds(bots[k := b]) == BotIds(bots)
  {
    forall x | x in BotIds(bots) ensures x in BotIds(bots[k := b]) {
      var v :| v in bots && v.id == x;
      var j :| 0 <= j < |bots| && bots[j] == v;
      assert bots[k := b][j].id == x;
    }
  }
}
