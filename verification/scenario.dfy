/**
 * Clients of the ledger: walk-throughs of one account, proved from the
 * handlers' contracts alone.
 */
module Scenario {
  import opened Wrappers
  import opened Records
  import opened Economy
  import opened Delivery
  import opened Server

  /** Register "alice", deploy a bot, send a message and let its delivery run. */
  method FirstBot()
  {
    var ledger := new Ledger();
    var t0 := 1_700_000_000_000;

    var session := ledger.Register("alice", "pw", "u1", "tok1");
    assert session == Success(Session("tok1", Profile("u1", "alice", 20)));

    var again := ledger.Register("alice", "other", "u2", "tok2");
    assert ledger.users[0] in ledger.users;
    assert again == Failure(UsernameTaken);

    var login := ledger.Login("alice", "pw");
    assert login.Success? && login.value.token == "tok1";

    var bot := ledger.DeployBot("tok1", "A", "https://example.org/hook", Some("creds.json"), true,
                                t0, "b1", "x1");
    assert bot.Success? && bot.value.status == Running;
    assert ledger.users[0].coins == 10;

    var sent := ledger.SendMessage("tok1", "b1", "+15550100", "hello", t0 + 1_000, "m1");
    assert sent.Success? && sent.value.status == Queued;
    assert ledger.timers == [Delivery("m1", "b1")];

    ledger.DeliverNext(t0 + 3_000);
    assert ledger.messages[0].status == Delivered;
    assert ledger.bots[0].messagesProcessed == 1;
  }

  /** A second claim a second after a successful one is refused for 24 hours. */
  method ClaimTwice()
  {
    var ledger := new Ledger();
    var t0 := 1_700_000_000_000;

    var session := ledger.Register("alice", "pw", "u1", "tok1");
    var claim := ledger.ClaimCoins("tok1", t0, "x1");
    assert ledger.users[0].coins == 30;
    assert claim == Success(ClaimReceipt(40, t0));

    var early := ledger.ClaimCoins("tok1", t0 + 1_000, "x2");
    assert ClaimWait(Some(t0), t0 + 1_000) == Some(24) by {
      assert (CooldownMs - 1_000 + HourMs - 1) / HourMs == 24;
    }
    assert early == Failure(ClaimTooSoon(24));
    assert ledger.users[0].coins == 30;
  }
}
