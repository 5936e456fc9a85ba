/**
 * Simulated message delivery. Sending a message schedules one callback, two
 * seconds later, that marks the message delivered and counts it against its bot.
 * All callbacks have the same delay, so they run in the order they were scheduled.
 */
module Delivery {
  import opened Wrappers
  import opened Records

  /** A scheduled delivery callback: the message it completes and the bot it counts for. */
  datatype Delivery = Delivery(messageId: string, botId: string)

  function Pending(m: Message): Delivery { Delivery(m.id, m.botId) }

  /** The message as the delivery callback leaves it. */
  function MarkDelivered(m: Message, at: int): Message {
    m.(status := Delivered, deliveredAt := Some(at))
  }

  /** The callbacks still due for a message table: one per queued message, in table order. */
  function Scheduled(ms: seq<Message>): seq<Delivery> {
    if |ms| == 0 then []
    else (if ms[0].status == Queued then [Pending(ms[0])] else []) + Scheduled(ms[1..])
  }

  /** Appending a queued message schedules exactly its callback, after all others. */
  lemma {:induction false} ScheduledAppend(ms: seq<Message>, m: Message)
    ensures Scheduled(ms + [m]) == Scheduled(ms) + (if m.status == Queued then [Pending(m)] else [])
  {
    var tail := if m.status == Queued then [Pending(m)] else [];
    if |ms| == 0 {
      assert ms + [m] == [m];
      assert [m][1..] == [];
    } else {
      var head := if ms[0].status == Queued then [Pending(ms[0])] else [];
      assert (ms + [m])[0] == ms[0];
      assert (ms + [m])[1..] == ms[1..] + [m];
      ScheduledAppend(ms[1..], m);
      calc {
        Scheduled(ms + [m]);
        head + Scheduled(ms[1..] + [m]);
        head + (Scheduled(ms[1..]) + tail);
        (head + Scheduled(ms[1..])) + tail;
        Scheduled(ms) + tail;
      }
    }
  }

  /** With no queued message, nothing is scheduled. */
  lemma {:induction false} ScheduledNone(ms: seq<Message>)
    requires forall j :: 0 <= j < |ms| ==> ms[j].status != Queued
    ensures Scheduled(ms) == []
  {
    if |ms| > 0 {
      ScheduledNone(ms[1..]);
    }
  }

  /**
   * The next callback due belongs to the first queued message, and delivering
   * that message leaves exactly the later callbacks due.
   */
  lemma {:induction false} ScheduledFirst(ms: seq<Message>, j: nat, at: int)
    requires j < |ms| && ms[j].status == Queued
    requires forall i :: 0 <= i < j ==> ms[i].status != Queued
    ensures Scheduled(ms) == [Pending(ms[j])] + Scheduled(ms[j := MarkDelivered(ms[j], at)])
  {
    var ms' := ms[j := MarkDelivered(ms[j], at)];
    if j == 0 {
      assert ms'[1..] == ms[1..];
    } else {
      assert ms'[1..] == ms[1..][j - 1 := MarkDelivered(ms[j], at)];
      ScheduledFirst(ms[1..], j - 1, at);
    }
  }
}
