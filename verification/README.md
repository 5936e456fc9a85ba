# Account-and-bot ledger of the bot-hosting demo server

This project models the request handlers of `server.js`, the backend of a small bot-hosting
demo. It proves properties of that model. The server keeps four tables: `users`, `bots`,
`transactions` and `messages`. Its handlers are:

- register and login;
- the bearer-token check that guards every other handler;
- claim coins, with a 24-hour cooldown and a reward of 10;
- list bots;
- deploy a bot, which costs 10 coins;
- start or stop a bot;
- send a message, which is queued and marked delivered by a callback two seconds later.

The model is the class `Server.Ledger`. It has one `seq` field per table, plus a field
`timers` for the delivery callbacks that are scheduled but have not yet run. There is one
method per handler. Each method returns a `Result` that is either the reply or one of the
server's errors. Each method's postcondition gives the whole new state. It also states that
a failed request changes nothing. Every method keeps the class invariant `Valid()`, which is
`Invariants.Consistent` applied to the fields. That invariant says:

- account ids, usernames and tokens are unique; so are bot, transaction and message ids;
- every balance is non-negative;
- every balance equals the starting 20 coins plus the amounts that the transaction log
  records for that account;
- every transaction belongs to an account, and every message to a bot;
- the pending callbacks are exactly the queued messages, in the order they were sent.

The callbacks all have the same two-second delay, so they run in the order they were
scheduled. `DeliverNext` runs the oldest one.

Inputs that come from outside the server are parameters:

- the current time `now`, in milliseconds;
- the identifiers and tokens that the server would draw from its UUID generator, each
  required to be fresh;
- whether the uploaded credentials file parses as JSON.

A request field that JavaScript treats as falsy (missing or empty) is the empty string.
A missing upload is `None`.

Module layout:

- `Wrappers`: `Option` and `Result`.
- `Query`: the store's `find` and `filter`.
- `Records`: the tables' records, replies, errors and constants, plus the record matchers
  passed to `find`/`filter`.
- `Economy`: the claim cooldown, and the transaction-log sum with its invariant.
- `Delivery`: the queue of delivery callbacks.
- `Invariants`: the consistency predicate, with one preservation lemma per handler.
- `Server`: the `Ledger` class.
- `Scenario`: two client walk-throughs. They are proved from the handlers' contracts alone.
  One registers, deploys, sends and delivers (processed count 1). The other claims twice
  within a day: the first claim stores 30 coins and replies 40, and the second is told to
  wait 24 hours.

## Model

| member | source | states |
|---|---|---|
| Query.Find | server.js:57 | `find`: the result is the position of the first record that matches, or None exactly when no record matches |
| Query.Filter | server.js:154 | `filter`: the result holds exactly the matching records, with their multiplicities |
| Records.ParseStatus | server.js:223-225 | a requested status is accepted exactly when it is "running" or "stopped", and maps to that status |
| Economy.ClaimWait | server.js:117-126 | a claim is refused exactly when a previous claim exists and less than 24 h (86 400 000 ms) have passed; the hours reported are the ceiling of the remaining time, at least 1, and at most 24 when the last claim is not in the future |
| Economy.LedgerSumAppend | server.js:138-144 | logging a record moves its account's sum by the record's amount and leaves every other account's sum unchanged |
| Economy.LedgerSumAbsent | server.js:86-87 | an account with no log record has sum 0, so a new account's 20 coins match the log |
| Economy.OpenAccount | server.js:80-90 | adding an account with a fresh id and 20 coins keeps every balance equal to 20 plus its log sum |
| Economy.Post | server.js:129-144 | a balance change paired with one log record of the same amount keeps the ledger balanced, if the new balance is non-negative |
| Economy.ClaimReplyVersusLedger | server.js:129-149 | in a balanced ledger, a reply reporting the stored balance equals 20 plus the account's log sum, while the reply as the handler builds it is exactly 10 more |
| Economy.ClaimReplyExample | server.js:129-149 | a new 20-coin account's first claim stores 30 coins but replies 40 |
| Delivery.ScheduledAppend | server.js:282-298 | sending a queued message schedules exactly its own callback, after all earlier ones |
| Delivery.ScheduledNone | server.js:285-298 | with no queued message, no callback is pending |
| Delivery.ScheduledFirst | server.js:285-292 | the oldest pending callback belongs to the first queued message; delivering that message leaves exactly the later callbacks pending |
| Invariants.EmptyConsistent | server.js:28-33 | the empty tables are consistent |
| Invariants.RegisterKeeps | server.js:75-90 | appending an account with a fresh id, a fresh token, an unused username and 20 coins keeps the tables consistent |
| Invariants.ClaimKeeps | server.js:129-144 | changing one balance and logging the change keeps the tables consistent |
| Invariants.DeployKeeps | server.js:179-206 | deducting the cost, adding a bot with a fresh id and logging the deduction keeps the tables consistent |
| Invariants.UpdateBotKeeps | server.js:232-238 | rewriting one bot in place, keeping its id, keeps the tables consistent |
| Invariants.SendKeeps | server.js:272-298 | appending a queued message with a fresh id for an existing bot, and scheduling its callback, keeps the tables consistent |
| Invariants.DueTargets | server.js:285-297 | the message and the bot that the oldest pending callback names both exist |
| Invariants.DeliverKeeps | server.js:285-297 | the callback's message is queued and belongs to its bot; marking it delivered, rewriting the bot and dropping the callback keeps the tables consistent |
| Server.Ledger.constructor | server.js:28-33 | the ledger starts with empty tables and no pending callbacks |
| Server.Ledger.Authenticate | server.js:51-64 | Unauthorized exactly when the token is empty; InvalidToken exactly when no account holds it; otherwise the first account holding it |
| Server.Ledger.AuthenticateUnique | server.js:57-62 | in a consistent ledger, a non-empty token resolves to the one account that holds it |
| Server.Ledger.Register | server.js:69-92 | MissingFields for an empty username or password; UsernameTaken when the name is in use; otherwise exactly one account is appended (20 coins, no last claim, the fresh token) and its session is returned; a failed request changes nothing |
| Server.Ledger.Login | server.js:94-110 | succeeds exactly when some account has both the username and the password, and then returns that account's token and profile; otherwise InvalidLogin; reads only |
| Server.Ledger.LoginUnique | server.js:96-109 | in a consistent ledger, login returns the session of the one account with that username |
| Server.Ledger.ClaimCoins | server.js:113-150 | authentication errors pass through; ClaimTooSoon(hours) with no change while the cooldown runs; otherwise that account gains exactly 10 coins and its last claim becomes now, one +10 `coin_claim` record is logged, nothing else changes, and the reply is built as the handler builds it: the credited balance plus 10 more (old balance + 20) |
| Server.Ledger.ListBots | server.js:153-156 | authentication errors pass through; otherwise exactly the bots whose owner is the caller, with their multiplicities |
| Server.Ledger.DeployBot | server.js:158-217 | MissingFields, InsufficientCoins (fewer than 10 coins) and InvalidCredentialsFile are checked in that order, and each changes nothing; on success the caller pays exactly 10 coins, one running bot with 0 processed messages is appended, and one −10 `bot_deploy` record is logged |
| Server.Ledger.SetBotStatus | server.js:219-252 | InvalidStatus for anything but running/stopped; BotNotFound unless the caller owns a bot with that id; otherwise only that bot's status and last-active time change, and the updated bot is returned |
| Server.Ledger.SendMessage | server.js:255-301 | MissingFields, BotNotFound (not the caller's) and BotNotRunning, each with no change; otherwise exactly one queued message is appended and its delivery is scheduled |
| Server.Ledger.DeliverNext | server.js:285-298 | the oldest callback runs: its message goes from queued to delivered with the delivery time, its bot's processed count goes up by exactly 1, and nothing else changes |

## Findings

| source | as written | input that shows it | evidently intended | confidence | as-written member | corrected member |
|---|---|---|---|---|---|---|
| server.js:129-147 | the claim reply is `user.coins + 10`, but `user` is the stored account, which the `assign` at lines 129-135 has already credited, so the reply is the old balance + 20 | a new account with 20 coins claims: 30 coins are stored, and the reply says 40 (`Economy.ClaimReplyExample`) | the reply reports the new stored balance, old balance + 10 (`Economy.ClaimReplyVersusLedger` proves it equals 20 plus the account's log sum) | high, not executed | Server.Ledger.ClaimCoins | Economy.IntendedClaimReply |

`Server.Ledger.ClaimCoins` keeps the reply as written. The stored balance and the log that
the rest of the model relies on are correct either way: only the reply is off.

## Left out

- HTTP wiring is not modelled: Express, CORS, body parsing, static files, the catch-all
  route, `app.listen` and status codes. Each error is a constructor of `Records.Error`.
- lowdb persistence to `db.json` is not modelled: the tables live in memory.
- Uploads are not modelled: multer storage, directory creation, reading the file, and
  `JSON.parse` (RFC 8259). The upload is its path (`credsFile`). Whether it parses is the
  boolean `credsParse`.
- `uuidv4()` is not modelled: ids and tokens are parameters, required to be fresh.
- `new Date()` is not modelled: each handler takes one `now`. The source calls the clock
  separately for `deployedOn`, `lastActive` and the transaction timestamp, and for the
  status reply; those values may differ by milliseconds there but are equal here.
- ISO-8601 strings are not modelled: timestamps are integer milliseconds.
- Economy.ClaimWait: the floating-point division `(now - lastClaim) / 3600000` is computed
  in exact integer arithmetic, so rounding is not modelled.
- Economy.ClaimWait: the 1..24 bound on the reported hours holds only when the last claim
  is not after `now`. The source reports more than 24 hours when the clock has gone back,
  and the model keeps that behaviour.
- `setTimeout` is not modelled: there is no two-second delay and no event loop. A pending
  callback is an entry of `timers`, and running one is `DeliverNext`.
- Server.Ledger.DeliverNext: the source's callback does nothing when the message or bot is
  missing. In a consistent ledger neither can be missing, so the model does not have that
  path.
- `startBotProcess` and `stopBotProcess` are not modelled: they only log.
- Concurrency between interleaved requests is not modelled.
- `req.user` is a live reference to the stored account, not a copy, so a write to that
  account shows through it. The model has no references: the claim handler reads the
  account at its position in `users` each time, so a read after the write sees the new
  balance. The deploy handler reads the account before its write and only reads its id
  afterwards, so it is unaffected.
- Deploy's `catch` also catches failures of the store's writes after the parse. Store
  writes cannot fail here.
- JSON request fields that are not strings are not modelled.
- `script.js` (page animations) is not part of this model.
- No handler refunds coins, so the model has no refund.
