/**
 * The coin economy: the claim cooldown and the audit log that every balance
 * change is recorded in.
 */
module Economy {
  import opened Wrappers
  import opened Records

  const HourMs := 3_600_000
  /** The claim cooldown, 24 hours, in milliseconds. */
  const CooldownMs := 24 * HourMs

  /**
   * Whether a claim at `now` is refused, and if so the whole hours to wait:
   * refused exactly when a previous claim exists and less than 24 hours have
   * passed since it; the wait is the ceiling of the remaining time in hours.
   */
  function ClaimWait(lastClaim: Option<int>, now: int): (r: Option<int>)
    ensures r.Some? <==> lastClaim.Some? && now - lastClaim.value < CooldownMs
    ensures r.Some? ==> 1 <= r.value
    ensures r.Some? ==> (r.value - 1) * HourMs < CooldownMs - (now - lastClaim.value) <= r.value * HourMs
    ensures r.Some? && lastClaim.value <= now ==> r.value <= 24
  {
    match lastClaim
    case None => None
    case Some(last) =>
      var elapsed := now - last;
      if elapsed < CooldownMs then Some((CooldownMs - elapsed + HourMs - 1) / HourMs) else None
  }

  /** The sum of the amounts the log records for one user. */
  function LedgerSum(txs: seq<Transaction>, userId: string): int {
    if |txs| == 0 then 0
    else (if txs[0].userId == userId then txs[0].amount else 0) + LedgerSum(txs[1..], userId)
  }

  /** Appending a record moves the user's sum by its amount if it is theirs, else not at all. */
  lemma {:induction false} LedgerSumAppend(txs: seq<Transaction>, t: Transaction, userId: string)
    ensures LedgerSum(txs + [t], userId) == LedgerSum(txs, userId) + (if t.userId == userId then t.amount else 0)
  {
    if |txs| == 0 {
      assert txs + [t] == [t];
    } else {
      assert (txs + [t])[1..] == txs[1..] + [t];
      LedgerSumAppend(txs[1..], t, userId);
    }
  }

  /** A user with no record in the log has sum 0. */
  lemma {:induction false} LedgerSumAbsent(txs: seq<Transaction>, userId: string)
    requires forall t :: t in txs ==> t.userId != userId
    ensures LedgerSum(txs, userId) == 0
  {
    if |txs| > 0 {
      assert txs[0] in txs;
      assert forall t :: t in txs[1..] ==> t in txs;
      LedgerSumAbsent(txs[1..], userId);
    }
  }

  /**
   * The ledger invariant: every balance is non-negative and equals the starting
   * grant plus the amounts the log records for that account, and every record
   * in the log belongs to an account.
   */
  ghost predicate Balanced(users: seq<User>, txs: seq<Transaction>) {
    && (forall i :: 0 <= i < |users| ==>
          0 <= users[i].coins && users[i].coins == StartingCoins + LedgerSum(txs, users[i].id))
    && (forall t :: t in txs ==> t.userId in UserIds(users))
  }

  /** A new account holding the starting grant keeps the ledger balanced. */
  lemma OpenAccount(users: seq<User>, txs: seq<Transaction>, u: User)
    requires Balanced(users, txs)
    requires u.id !in UserIds(users) && u.coins == StartingCoins
    ensures Balanced(users + [u], txs)
  {
    LedgerSumAbsent(txs, u.id);
    assert UserIds(users) <= UserIds(users + [u]);
  }

  /**
   * A ledger operation: one balance moves by an amount and one record of that
   * amount for that account is appended. If the new balance is non-negative,
   * the ledger stays balanced.
   */
  lemma Post(users: seq<User>, txs: seq<Transaction>, i: nat, u: User, t: Transaction)
    requires Balanced(users, txs)
    requires forall a, b :: 0 <= a < b < |users| ==> users[a].id != users[b].id
    requires i < |users| && u.id == users[i].id && t.userId == u.id
    requires u.coins == users[i].coins + t.amount && 0 <= u.coins
    ensures Balanced(users[i := u], txs + [t])
  {
    var users' := users[i := u];
    forall j | 0 <= j < |users'|
      ensures 0 <= users'[j].coins && users'[j].coins == StartingCoins + LedgerSum(txs + [t], users'[j].id)
    {
      LedgerSumAppend(txs, t, users'[j].id);
    }
    UserIdsUpdate(users, i, u);
    assert users[i] in users;
  }

  /** The account as a successful claim at `now` leaves it. */
  function Credited(u: User, now: int): User {
    u.(coins := u.coins + ClaimReward, lastClaim := Some(now))
  }

  /**
   * The claim reply as the handler builds it. The handler's account is the
   * stored record itself, which the claim has just credited, so the reply adds
   * the reward to an already credited balance.
   */
  function ClaimReplyAsWritten(credited: User, now: int): ClaimReceipt {
    ClaimReceipt(credited.coins + ClaimReward, now)
  }

  /** The claim reply that reports the balance the claim stored. */
  function IntendedClaimReply(credited: User, now: int): ClaimReceipt {
    ClaimReceipt(credited.coins, now)
  }

  /**
   * In a balanced ledger the intended reply reports exactly the balance the log
   * accounts for, while the reply as written reports one reward more.
   */
  lemma ClaimReplyVersusLedger(users: seq<User>, txs: seq<Transaction>, i: nat, now: int)
    requires Balanced(users, txs) && i < |users|
    ensures IntendedClaimReply(users[i], now).coins == StartingCoins + LedgerSum(txs, users[i].id)
    ensures ClaimReplyAsWritten(users[i], now).coins == StartingCoins + LedgerSum(txs, users[i].id) + ClaimReward
    ensures ClaimReplyAsWritten(users[i], now) != IntendedClaimReply(users[i], now)
  {
  }

  /** A new account's first claim stores 30 coins but replies 40. */
  lemma ClaimReplyExample(now: int)
    ensures var u := Credited(User("u1", "alice", "pw", "tok1", StartingCoins, None), now);
            && u.coins == 30
            && ClaimReplyAsWritten(u, now) == ClaimReceipt(40, now)
            && IntendedClaimReply(u, now) == ClaimReceipt(30, now)
  {
  }
}
