/**
 * The consistency of the four tables and of the pending delivery callbacks,
 * stated over their values, and one lemma per request handler saying that the
 * change it makes keeps them consistent.
 */
module Invariants {
  import opened Query
  import opened Records
  import opened Economy
  import opened Delivery

  /** Account identifiers, usernames and tokens each name at most one account. */
  ghost predicate UniqueAccounts(users: seq<User>) {
    forall i, j :: 0 <= i < j < |users| ==>
      users[i].id != users[j].id && users[i].username != users[j].username && users[i].token != users[j].token
  }

  ghost predicate UniqueBots(bots: seq<Bot>) {
    forall i, j :: 0 <= i < j < |bots| ==> bots[i].id != bots[j].id
  }

  ghost predicate UniqueTransactions(txs: seq<Transaction>) {
    forall i, j :: 0 <= i < j < |txs| ==> txs[i].id != txs[j].id
  }

  ghost predicate UniqueMessages(ms: seq<Message>) {
    forall i, j :: 0 <= i < j < |ms| ==> ms[i].id != ms[j].id
  }

  /**
   * Identifiers are unique, the ledger is balanced, every message belongs to a
   * bot, and exactly the queued messages have a delivery callback pending, in
   * the order they were sent.
   */
  ghost predicate Consistent(users: seq<User>, bots: seq<Bot>, txs: seq<Transaction>,
                             ms: seq<Message>, timers: seq<Delivery>)
  {
    && UniqueAccounts(users)
    && UniqueBots(bots)
    && UniqueTransactions(txs)
    && UniqueMessages(ms)
    && Balanced(users, txs)
    && (forall m :: m in ms ==> m.botId in BotIds(bots))
    && timers == Scheduled(ms)
  }

  lemma EmptyConsistent()
    ensures Consistent([], [], [], [], [])
  {
    assert Scheduled([]) == [];
  }

  /** Registering an account with a fresh id, token and username. */
  lemma RegisterKeeps(users: seq<User>, bots: seq<Bot>, txs: seq<Transaction>,
                      ms: seq<Message>, timers: seq<Delivery>, u: User)
    requires Consistent(users, bots, txs, ms, timers)
    requires u.id !in UserIds(users) && u.token !in Tokens(users)
    requires forall v :: v in users ==> v.username != u.username
    requires u.coins == StartingCoins
    ensures Consistent(users + [u], bots, txs, ms, timers)
  {
    OpenAccount(users, txs, u);
    forall i | 0 <= i < |users|
      ensures users[i].id != u.id && users[i].username != u.username && users[i].token != u.token
    {
      assert users[i] in users;
    }
  }

  /** A claim: the account's balance and last claim change and one record is logged. */
  lemma ClaimKeeps(users: seq<User>, bots: seq<Bot>, txs: seq<Transaction>,
                   ms: seq<Message>, timers: seq<Delivery>, i: nat, u: User, t: Transaction)
    requires Consistent(users, bots, txs, ms, timers)
    requires i < |users| && u.id == users[i].id && u.username == users[i].username && u.token == users[i].token
    requires t.userId == u.id && t.id !in TransactionIds(txs)
    requires u.coins == users[i].coins + t.amount && 0 <= u.coins
    ensures Consistent(users[i := u], bots, txs + [t], ms, timers)
  {
    Post(users, txs, i, u, t);
    forall j | 0 <= j < |txs| ensures txs[j].id != t.id {
      assert txs[j] in txs;
    }
  }

  /** A deployment: the account pays, one bot is added and one record is logged. */
  lemma DeployKeeps(users: seq<User>, bots: seq<Bot>, txs: seq<Transaction>,
                    ms: seq<Message>, timers: seq<Delivery>, i: nat, u: User, b: Bot, t: Transaction)
    requires Consistent(users, bots, txs, ms, timers)
    requires i < |users| && u.id == users[i].id && u.username == users[i].username && u.token == users[i].token
    requires t.userId == u.id && t.id !in TransactionIds(txs)
    requires u.coins == users[i].coins + t.amount && 0 <= u.coins
    requires b.id !in BotIds(bots)
    ensures Consistent(users[i := u], bots + [b], txs + [t], ms, timers)
  {
    ClaimKeeps(users, bots, txs, ms, timers, i, u, t);
    forall j | 0 <= j < |bots| ensures bots[j].id != b.id {
      assert bots[j] in bots;
    }
    assert BotIds(bots) <= BotIds(bots + [b]);
  }

  /** A status change rewrites one bot in place, keeping its id. */
  lemma UpdateBotKeeps(users: seq<User>, bots: seq<Bot>, txs: seq<Transaction>,
                       ms: seq<Message>, timers: seq<Delivery>, k: nat, b: Bot)
    requires Consistent(users, bots, txs, ms, timers)
    requires k < |bots| && b.id == bots[k].id
    ensures Consistent(users, bots[k := b], txs, ms, timers)
  {
    BotIdsUpdate(bots, k, b);
  }

  /** Sending queues one message of an existing bot and schedules its delivery. */
  lemma SendKeeps(users: seq<User>, bots: seq<Bot>, txs: seq<Transaction>,
                  ms: seq<Message>, timers: seq<Delivery>, m: Message)
    requires Consistent(users, bots, txs, ms, timers)
    requires m.id !in MessageIds(ms) && m.botId in BotIds(bots) && m.status == Queued
    ensures Consistent(users, bots, txs, ms + [m], timers + [Pending(m)])
  {
    ScheduledAppend(ms, m);
    forall j | 0 <= j < |ms| ensures ms[j].id != m.id {
      assert ms[j] in ms;
    }
  }

  /** The oldest pending callback names an existing message and an existing bot. */
  lemma DueTargets(users: seq<User>, bots: seq<Bot>, txs: seq<Transaction>,
                   ms: seq<Message>, timers: seq<Delivery>)
    requires Consistent(users, bots, txs, ms, timers)
    requires timers != []
    ensures Find(ms, MessageWithId(timers[0].messageId)).Some?
    ensures Find(bots, BotWithId(timers[0].botId)).Some?
  {
  }

  /** The message the oldest pending callback belongs to is the first queued one. */
  lemma FirstQueued(ms: seq<Message>, timers: seq<Delivery>) returns (q: nat)
    requires timers == Scheduled(ms) && timers != []
    ensures q < |ms| && ms[q].status == Queued
    ensures forall i :: 0 <= i < q ==> ms[i].status != Queued
    ensures timers[0] == Pending(ms[q])
  {
    var first := Find(ms, (m: Message) => m.status == Queued);
    if first.None? {
      ScheduledNone(ms);
      assert false;
    }
    q := first.value;
    ScheduledFirst(ms, q, 0);
  }

  /**
   * Running the oldest callback: the message it names was queued and becomes
   * delivered, its bot is rewritten in place, and the callback leaves the queue.
   */
  lemma DeliverKeeps(users: seq<User>, bots: seq<Bot>, txs: seq<Transaction>,
                     ms: seq<Message>, timers: seq<Delivery>, j: nat, k: nat, b: Bot, at: int)
    requires Consistent(users, bots, txs, ms, timers)
    requires timers != []
    requires j < |ms| && ms[j].id == timers[0].messageId
    requires k < |bots| && b.id == bots[k].id
    ensures ms[j].status == Queued && ms[j].botId == timers[0].botId
    ensures Consistent(users, bots[k := b], txs, ms[j := MarkDelivered(ms[j], at)], timers[1..])
  {
    var q := FirstQueued(ms, timers);
    assert j == q;
    ScheduledFirst(ms, q, at);
    BotIdsUpdate(bots, k, b);
    var ms' := ms[j := MarkDelivered(ms[j], at)];
    forall m | m in ms' ensures m.botId in BotIds(bots) {
      var i :| 0 <= i < |ms'| && ms'[i] == m;
      assert ms[i] in ms;
    }
  }
}
