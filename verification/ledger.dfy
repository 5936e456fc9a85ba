/**
 * The account-and-bot ledger: the server's four tables and one method per
 * request handler. Every handler first runs the bearer-token check, then its own
 * guards in the order the server runs them; a request that fails any guard leaves
 * every table as it was.
 *
 * What the server gets from outside is passed in: the current time `now` (in
 * milliseconds), the fresh identifiers and tokens it would draw from a UUID
 * generator, and whether an uploaded credentials file parses.
 */
module Server {
  import opened Wrappers
  import opened Query
  import opened Records
  import opened Economy
  import opened Delivery
  import opened Invariants

  class Ledger {
    var users: seq<User>
    var bots: seq<Bot>
    var transactions: seq<Transaction>
    var messages: seq<Message>
    /** Delivery callbacks scheduled and not yet run, oldest first. */
    var timers: seq<Delivery>

    ghost predicate Valid()
      reads this
    {
      Consistent(users, bots, transactions, messages, timers)
    }

    constructor ()
      ensures Valid()
      ensures users == [] && bots == [] && transactions == [] && messages == [] && timers == []
    {
      users, bots, transactions, messages, timers := [], [], [], [], [];
      EmptyConsistent();
    }

    /**
     * The bearer-token check every authenticated request passes first: the
     * position of the account holding `token`.
     */
    function Authenticate(token: string): (r: Result<nat, Error>)
      reads this
      ensures r == Failure(Unauthorized) <==> token == ""
      ensures r == Failure(InvalidToken) <==> token != "" && forall u :: u in users ==> u.token != token
      ensures r.Success? <==> token != "" && exists u :: u in users && u.token == token
      ensures r.Success? ==> r.value < |users| && users[r.value].token == token
      ensures r.Success? ==> forall j :: 0 <= j < r.value ==> users[j].token != token
    {
      if token == "" then Failure(Unauthorized)
      else match Find(users, WithToken(token))
        case None => Failure(InvalidToken)
        case Some(i) => Success(i)
    }

    /** In a consistent ledger a non-empty token resolves to the one account holding it. */
    lemma AuthenticateUnique(token: string, j: nat)
      requires Valid()
      requires j < |users| && users[j].token == token && token != ""
      ensures Authenticate(token) == Success(j)
    {
      assert users[j] in users;
    }

    method Register(username: string, password: string, userId: string, token: string)
      returns (r: Result<Session, Error>)
      requires Valid()
      requires userId !in UserIds(users) && token !in Tokens(users)
      modifies this
      ensures Valid()
      ensures
        if username == "" || password == "" then
          r == Failure(MissingFields) && unchanged(this)
        else if exists u :: u in old(users) && u.username == username then
          r == Failure(UsernameTaken) && unchanged(this)
        else
          && r == Success(Session(token, Profile(userId, username, StartingCoins)))
          && users == old(users) + [User(userId, username, password, token, StartingCoins, None)]
          && bots == old(bots) && transactions == old(transactions)
          && messages == old(messages) && timers == old(timers)
    {
      if username == "" || password == "" {
        return Failure(MissingFields);
      }
      if Find(users, WithUsername(username)).Some? {
        return Failure(UsernameTaken);
      }
      var user := User(userId, username, password, token, StartingCoins, None);
      RegisterKeeps(users, bots, transactions, messages, timers, user);
      users := users + [user];
      r := Success(SessionOf(user));
    }

    /** Login reads the accounts and changes nothing. */
    function Login(username: string, password: string): (r: Result<Session, Error>)
      reads this
      ensures r.Success? <==> exists u :: u in users && u.username == username && u.password == password
      ensures r.Failure? ==> r.error == InvalidLogin
      ensures r.Success? ==>
        exists u :: u in users && u.username == username && u.password == password && r.value == SessionOf(u)
    {
      match Find(users, WithCredentials(username, password))
      case None => Failure(InvalidLogin)
      case Some(i) => assert users[i] in users; Success(SessionOf(users[i]))
    }

    /** In a consistent ledger login answers with the session of the one account of that name. */
    lemma LoginUnique(username: string, password: string, j: nat)
      requires Valid()
      requires j < |users| && users[j].username == username && users[j].password == password
      ensures Login(username, password) == Success(SessionOf(users[j]))
    {
      assert users[j] in users;
      var u :| u in users && u.username == username && u.password == password
               && Login(username, password).value == SessionOf(u);
      var i :| 0 <= i < |users| && users[i] == u;
    }

    method ClaimCoins(token: string, now: int, txId: string) returns (r: Result<ClaimReceipt, Error>)
      requires Valid()
      requires txId !in TransactionIds(transactions)
      modifies this
      ensures Valid()
      ensures
        match old(Authenticate(token))
        case Failure(e) => r == Failure(e) && unchanged(this)
        case Success(i) =>
          var u := old(users)[i];
          match ClaimWait(u.lastClaim, now)
          case Some(hours) => r == Failure(ClaimTooSoon(hours)) && unchanged(this)
          case None =>
            && r == Success(ClaimReplyAsWritten(Credited(u, now), now))
            && r.value.coins == u.coins + 2 * ClaimReward
            && users == old(users)[i := Credited(u, now)]
            && transactions == old(transactions) + [Transaction(txId, u.id, CoinClaim, ClaimReward, now)]
            && bots == old(bots) && messages == old(messages) && timers == old(timers)
    {
      var auth := Authenticate(token);
      if auth.Failure? {
        return Failure(auth.error);
      }
      // `req.user` is the stored account itself, not a copy: every read below
      // goes through position i and sees the writes made before it.
      var i := auth.value;
      var wait := ClaimWait(users[i].lastClaim, now);
      if wait.Some? {
        return Failure(ClaimTooSoon(wait.value));
      }
      var found := Find(users, UserWithId(users[i].id));
      assert UserWithId(users[i].id)(users[i]);
      assert found == Some(i);
      var t := Transaction(txId, users[i].id, CoinClaim, ClaimReward, now);
      ClaimKeeps(users, bots, transactions, messages, timers, i, Credited(users[i], now), t);
      users := users[found.value := users[found.value].(coins := users[i].coins + ClaimReward, lastClaim := Some(now))];
      transactions := transactions + [t];
      r := Success(ClaimReceipt(users[i].coins + ClaimReward, now));
    }

    /** The caller's bots, in table order. */
    function ListBots(token: string): (r: Result<seq<Bot>, Error>)
      reads this
      ensures Authenticate(token).Failure? ==> r == Failure(Authenticate(token).error)
      ensures Authenticate(token).Success? ==> r.Success?
      ensures r.Success? ==> forall b :: b in r.value <==> b in bots && b.userId == users[Authenticate(token).value].id
      ensures r.Success? ==> forall b :: multiset(r.value)[b] ==
                               if b.userId == users[Authenticate(token).value].id then multiset(bots)[b] else 0
    {
      match Authenticate(token)
      case Failure(e) => Failure(e)
      case Success(i) => Success(Filter(bots, OwnedBy(users[i].id)))
    }

    method DeployBot(token: string, name: string, webhookUrl: string, credsFile: Option<string>,
                     credsParse: bool, now: int, botId: string, txId: string)
      returns (r: Result<Bot, Error>)
      requires Valid()
      requires botId !in BotIds(bots) && txId !in TransactionIds(transactions)
      modifies this
      ensures Valid()
      ensures
        match old(Authenticate(token))
        case Failure(e) => r == Failure(e) && unchanged(this)
        case Success(i) =>
          var u := old(users)[i];
          if name == "" || webhookUrl == "" || credsFile.None? then
            r == Failure(MissingFields) && unchanged(this)
          else if u.coins < DeployCost then
            r == Failure(InsufficientCoins) && unchanged(this)
          else if !credsParse then
            r == Failure(InvalidCredentialsFile) && unchanged(this)
          else
            var bot := Bot(botId, u.id, name, webhookUrl, Running, credsFile.value, now, now, 0);
            && r == Success(bot)
            && users == old(users)[i := u.(coins := u.coins - DeployCost)]
            && bots == old(bots) + [bot]
            && transactions == old(transactions) + [Transaction(txId, u.id, BotDeploy, -DeployCost, now)]
            && messages == old(messages) && timers == old(timers)
    {
      var auth := Authenticate(token);
      if auth.Failure? {
        return Failure(auth.error);
      }
      var i := auth.value;
      var user := users[i];
      if name == "" || webhookUrl == "" || credsFile.None? {
        return Failure(MissingFields);
      }
      if user.coins < DeployCost {
        return Failure(InsufficientCoins);
      }
      if !credsParse {
        return Failure(InvalidCredentialsFile);
      }
      var bot := Bot(botId, user.id, name, webhookUrl, Running, credsFile.value, now, now, 0);
      var found := Find(users, UserWithId(user.id));
      assert UserWithId(user.id)(users[i]);
      assert found == Some(i);
      var t := Transaction(txId, user.id, BotDeploy, -DeployCost, now);
      DeployKeeps(users, bots, transactions, messages, timers, i, user.(coins := user.coins - DeployCost), bot, t);
      users := users[found.value := users[found.value].(coins := user.coins - DeployCost)];
      bots := bots + [bot];
      transactions := transactions + [t];
      r := Success(bot);
    }

    method SetBotStatus(token: string, botId: string, requested: string, now: int)
      returns (r: Result<Bot, Error>)
      requires Valid()
      modifies this
      ensures Valid()
      ensures
        match old(Authenticate(token))
        case Failure(e) => r == Failure(e) && unchanged(this)
        case Success(i) =>
          match ParseStatus(requested)
          case None => r == Failure(InvalidStatus) && unchanged(this)
          case Some(status) =>
            match Find(old(bots), OwnedBot(botId, old(users)[i].id))
            case None => r == Failure(BotNotFound) && unchanged(this)
            case Some(k) =>
              var bot := old(bots)[k].(status := status, lastActive := now);
              && r == Success(bot)
              && bots == old(bots)[k := bot]
              && users == old(users) && transactions == old(transactions)
              && messages == old(messages) && timers == old(timers)
    {
      var auth := Authenticate(token);
      if auth.Failure? {
        return Failure(auth.error);
      }
      var user := users[auth.value];
      var status := ParseStatus(requested);
      if status.None? {
        return Failure(InvalidStatus);
      }
      var owned := Find(bots, OwnedBot(botId, user.id));
      if owned.None? {
        return Failure(BotNotFound);
      }
      var bot := bots[owned.value];
      var found := Find(bots, BotWithId(botId));
      assert BotWithId(botId)(bots[owned.value]);
      assert found == owned;
      var updated := bots[found.value].(status := status.value, lastActive := now);
      UpdateBotKeeps(users, bots, transactions, messages, timers, found.value, updated);
      bots := bots[found.value := updated];
      r := Success(bot.(status := status.value, lastActive := now));
    }

    method SendMessage(token: string, botId: string, phoneNumber: string, body: string,
                       now: int, msgId: string)
      returns (r: Result<Message, Error>)
      requires Valid()
      requires msgId !in MessageIds(messages)
      modifies this
      ensures Valid()
      ensures
        match old(Authenticate(token))
        case Failure(e) => r == Failure(e) && unchanged(this)
        case Success(i) =>
          var u := old(users)[i];
          if botId == "" || phoneNumber == "" || body == "" then
            r == Failure(MissingFields) && unchanged(this)
          else match Find(old(bots), OwnedBot(botId, u.id))
            case None => r == Failure(BotNotFound) && unchanged(this)
            case Some(k) =>
              if old(bots)[k].status != Running then
                r == Failure(BotNotRunning) && unchanged(this)
              else
                var m := Message(msgId, botId, u.id, phoneNumber, body, Queued, now, None);
                && r == Success(m)
                && messages == old(messages) + [m]
                && timers == old(timers) + [Delivery(msgId, botId)]
                && users == old(users) && bots == old(bots) && transactions == old(transactions)
    {
      var auth := Authenticate(token);
      if auth.Failure? {
        return Failure(auth.error);
      }
      var user := users[auth.value];
      if botId == "" || phoneNumber == "" || body == "" {
        return Failure(MissingFields);
      }
      var owned := Find(bots, OwnedBot(botId, user.id));
      if owned.None? {
        return Failure(BotNotFound);
      }
      if bots[owned.value].status != Running {
        return Failure(BotNotRunning);
      }
      var m := Message(msgId, botId, user.id, phoneNumber, body, Queued, now, None);
      assert bots[owned.value] in bots;
      SendKeeps(users, bots, transactions, messages, timers, m);
      messages := messages + [m];
      timers := timers + [Pending(m)];
      r := Success(m);
    }

    /**
     * The oldest scheduled delivery callback runs: its message becomes delivered
     * and its bot's processed-message counter goes up by one.
     */
    method DeliverNext(now: int)
      requires Valid()
      requires timers != []
      modifies this
      ensures Valid()
      ensures
        var d := old(timers)[0];
        match (Find(old(messages), MessageWithId(d.messageId)), Find(old(bots), BotWithId(d.botId)))
        case (Some(j), Some(k)) =>
          && old(messages)[j].status == Queued && old(messages)[j].botId == d.botId
          && messages == old(messages)[j := MarkDelivered(old(messages)[j], now)]
          && bots == old(bots)[k := old(bots)[k].(messagesProcessed := old(bots)[k].messagesProcessed + 1)]
          && timers == old(timers)[1..]
          && users == old(users) && transactions == old(transactions)
        case _ => false
    {
      var d := timers[0];
      DueTargets(users, bots, transactions, messages, timers);
      var j := Find(messages, MessageWithId(d.messageId)).value;
      var k := Find(bots, BotWithId(d.botId)).value;
      var bot := bots[k].(messagesProcessed := bots[k].messagesProcessed + 1);
      DeliverKeeps(users, bots, transactions, messages, timers, j, k, bot, now);
      messages := messages[j := MarkDelivered(messages[j], now)];
      bots := bots[k := bot];
      timers := timers[1..];
    }
  }
}
