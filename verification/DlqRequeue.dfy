/**
 Bulk requeue from a dead-letter queue, over the deliveries the broker hands out
 while the call runs.
 */
module DlqRequeue {
  import opened Messages

  datatype Outcome = Finished | Cancelled | Unavailable

  /** A delivery, whether the context is cancelled when it is looked at, and how its republish fares. */
  datatype Item = Item(m: Message, cancelled: bool, publish: PublishVerdict)

  function Acks(log: seq<Settlement>): nat {
    if log == [] then 0 else Acks(log[..|log| - 1]) + (if log[|log| - 1].Ack? then 1 else 0)
  }

  predicate Moved(it: Item, reset: bool) {
    Requeued(it.m, reset).Some? && ReportedOk(it.publish)
  }

  /** What the publisher was handed and the broker took for one item. */
  function Handed(it: Item, reset: bool): seq<Message> {
    if Requeued(it.m, reset).Some? && Taken(it.publish) then [Requeued(it.m, reset).value] else []
  }

  function AllHanded(items: seq<Item>, reset: bool): seq<Message> {
    if items == [] then [] else AllHanded(items[..|items| - 1], reset) + Handed(items[|items| - 1], reset)
  }

  predicate LimitReached(done: nat, maxMessages: int) {
    maxMessages > 0 && done >= maxMessages
  }

  /** The loop ends at this item: the limit is reached, or the context is cancelled. */
  predicate StopsAt(it: Item, done: nat, maxMessages: int) {
    LimitReached(done, maxMessages) || it.cancelled
  }

  /** The settlement due to item `i` after the settlements before it. */
  function Due(items: seq<Item>, log: seq<Settlement>, i: nat, reset: bool, maxMessages: int): Settlement
    requires i < |items| && i <= |log|
  {
    if Moved(items[i], reset) && !StopsAt(items[i], Acks(log[..i]), maxMessages) then Ack else Nack(true)
  }

  /** Every delivery taken got the settlement due to it, and only the last one can have stopped the loop. */
  ghost predicate Settles(items: seq<Item>, log: seq<Settlement>, reset: bool, maxMessages: int) {
    && |log| <= |items|
    && (forall i | 0 <= i < |log| :: log[i] == Due(items, log, i, reset, maxMessages))
    && (forall i | 0 <= i < |log| - 1 :: !StopsAt(items[i], Acks(log[..i]), maxMessages))
  }

  ghost predicate Stopped(items: seq<Item>, log: seq<Settlement>, maxMessages: int) {
    0 < |log| <= |items| && StopsAt(items[|log| - 1], Acks(log[..|log| - 1]), maxMessages)
  }

  /** The deliveries whose republish was attempted: all that were taken, but for one that stopped the loop. */
  ghost function Processed(items: seq<Item>, log: seq<Settlement>, maxMessages: int): nat {
    if Stopped(items, log, maxMessages) then |log| - 1 else |log|
  }

  /** A further settlement does not change what was due before it. */
  lemma DueStays(items: seq<Item>, log: seq<Settlement>, x: Settlement, i: nat, reset: bool, maxMessages: int)
    requires i < |items| && i <= |log|
    ensures (log + [x])[..i] == log[..i]
    ensures Due(items, log + [x], i, reset, maxMessages) == Due(items, log, i, reset, maxMessages)
  {
  }

  lemma AcksOneMore(log: seq<Settlement>, x: Settlement)
    ensures Acks(log + [x]) == Acks(log) + (if x.Ack? then 1 else 0)
  {
    assert (log + [x])[..|log|] == log;
  }

  lemma {:induction false} SettlesOneMore(items: seq<Item>, log: seq<Settlement>, reset: bool, maxMessages: int)
    requires Settles(items, log, reset, maxMessages) && !Stopped(items, log, maxMessages) && |log| < |items|
    ensures var log' := log + [Due(items, log, |log|, reset, maxMessages)];
            && Settles(items, log', reset, maxMessages)
            && (Stopped(items, log', maxMessages) <==> StopsAt(items[|log|], Acks(log), maxMessages))
            && Acks(log') == Acks(log) + (if log'[|log|].Ack? then 1 else 0)
  {
    var x := Due(items, log, |log|, reset, maxMessages);
    var log' := log + [x];
    assert log'[..|log|] == log;
    AcksOneMore(log, x);
    forall i | 0 <= i < |log'|
      ensures log'[i] == Due(items, log', i, reset, maxMessages)
    {
      DueStays(items, log, x, i, reset, maxMessages);
    }
    forall i | 0 <= i < |log|
      ensures !StopsAt(items[i], Acks(log'[..i]), maxMessages)
    {
      DueStays(items, log, x, i, reset, maxMessages);
    }
  }

  /** `RequeueFromDLQ` on one delivery, and the settlement that answers it. */
  method RequeueOne(it: Item, reset: bool) returns (settle: Settlement, out: seq<Message>)
    ensures settle == if Moved(it, reset) then Ack else Nack(true)
    ensures out == Handed(it, reset)
  {
    var again := Requeued(it.m, reset);
    if again.None? {
      return Nack(true), [];
    }
    out := if Taken(it.publish) then [again.value] else [];
    settle := if ReportedOk(it.publish) then Ack else Nack(true);
  }

  /** What holds between two deliveries. */
  ghost predicate Going(
    items: seq<Item>, log: seq<Settlement>, count: nat, sent: seq<Message>, reset: bool, maxMessages: int)
  {
    && Settles(items, log, reset, maxMessages) && !Stopped(items, log, maxMessages)
    && count == Acks(log) && (maxMessages > 0 ==> count <= maxMessages)
    && sent == AllHanded(items[..|log|], reset)
  }

  lemma HandedOneMore(items: seq<Item>, n: nat, reset: bool)
    requires n < |items|
    ensures AllHanded(items[..n + 1], reset) == AllHanded(items[..n], reset) + Handed(items[n], reset)
  {
    assert items[..n + 1][..n] == items[..n];
  }

  lemma {:induction false} GoesOn(
    items: seq<Item>, log: seq<Settlement>, count: nat, sent: seq<Message>, reset: bool, maxMessages: int)
    requires Going(items, log, count, sent, reset, maxMessages) && |log| < |items|
    requires !StopsAt(items[|log|], count, maxMessages)
    ensures var settle := if Moved(items[|log|], reset) then Ack else Nack(true);
            Going(items, log + [settle], if settle.Ack? then count + 1 else count,
                  sent + Handed(items[|log|], reset), reset, maxMessages)
  {
    SettlesOneMore(items, log, reset, maxMessages);
    HandedOneMore(items, |log|, reset);
    assert log[..|log|] == log;
  }

  lemma {:induction false} Stops(
    items: seq<Item>, log: seq<Settlement>, count: nat, sent: seq<Message>, reset: bool, maxMessages: int)
    requires Going(items, log, count, sent, reset, maxMessages) && |log| < |items|
    requires StopsAt(items[|log|], count, maxMessages)
    ensures var log' := log + [Nack(true)];
            && Settles(items, log', reset, maxMessages) && Stopped(items, log', maxMessages)
            && Processed(items, log', maxMessages) == |log| && Acks(log') == count
  {
    SettlesOneMore(items, log, reset, maxMessages);
    assert log[..|log|] == log;
  }

  /**
   Each delivery taken is settled exactly once: acked if and only if its republish
   succeeded, and nacked with requeue otherwise.  The count is the number of acks
   and never exceeds a positive limit; the loop goes through all deliveries unless
   the limit or the context stops it, and then the last one taken goes back.
   */
  method RequeueAll(available: bool, items: seq<Item>, reset: bool, maxMessages: int)
    returns (count: nat, outcome: Outcome, log: seq<Settlement>, sent: seq<Message>)
    ensures !available ==> log == []
    ensures Settles(items, log, reset, maxMessages)
    ensures count == Acks(log) && (maxMessages > 0 ==> count <= maxMessages)
    ensures available ==> |log| == |items| || Stopped(items, log, maxMessages)
    ensures outcome == if !available then Unavailable
                       else if Stopped(items, log, maxMessages) && !LimitReached(count, maxMessages) then Cancelled
                       else Finished
    ensures sent == AllHanded(items[..Processed(items, log, maxMessages)], reset)
  {
    count, outcome, log, sent := 0, Finished, [], [];
    if !available {
      outcome := Unavailable;
      return;
    }
    while |log| < |items|
      invariant outcome == Finished && Going(items, log, count, sent, reset, maxMessages)
      decreases |items| - |log|
    {
      var it := items[|log|];
      if LimitReached(count, maxMessages) {
        Stops(items, log, count, sent, reset, maxMessages);
        log := log + [Nack(true)];
        return;
      }
      if it.cancelled {
        Stops(items, log, count, sent, reset, maxMessages);
        log, outcome := log + [Nack(true)], Cancelled;
        return;
      }
      GoesOn(items, log, count, sent, reset, maxMessages);
      var settle, out := RequeueOne(it, reset);
      log, sent := log + [settle], sent + out;
      if settle.Ack? {
        count := count + 1;
      }
    }
  }

  /** The republication of an item whose publish fared as `which` says. */
  function Pick(it: Item, reset: bool, which: PublishVerdict -> bool): seq<Message> {
    var again := Requeued(it.m, reset);
    if again.Some? && which(it.publish) then [again.value] else []
  }

  function Picked(items: seq<Item>, reset: bool, which: PublishVerdict -> bool): seq<Message> {
    if items == [] then []
    else Picked(items[..|items| - 1], reset, which) + Pick(items[|items| - 1], reset, which)
  }

  const FALSELY_CONFIRMED := (v: PublishVerdict) => v.FalselyConfirmed?
  const TAKEN_BUT_ERRORED := (v: PublishVerdict) => v.TakenButErrored?

  /** The republications whose items were acked. */
  function MovedMessages(items: seq<Item>, reset: bool): seq<Message> {
    Picked(items, reset, ReportedOk)
  }

  /** Acked, and gone: the publish was reported as a success, the broker did not take it. */
  function LostMessages(items: seq<Item>, reset: bool): seq<Message> {
    Picked(items, reset, FALSELY_CONFIRMED)
  }

  /** Published again, and still in the dead-letter queue: taken, but reported as an error. */
  function DoubledMessages(items: seq<Item>, reset: bool): seq<Message> {
    Picked(items, reset, TAKEN_BUT_ERRORED)
  }

  lemma OneConserves(it: Item, reset: bool)
    ensures Handed(it, reset) + Pick(it, reset, FALSELY_CONFIRMED) ==
            Pick(it, reset, ReportedOk) + Pick(it, reset, TAKEN_BUT_ERRORED)
  {
  }

  lemma ConcatEach(
    a: seq<Message>, b: seq<Message>, c: seq<Message>, d: seq<Message>,
    p: seq<Message>, q: seq<Message>, r: seq<Message>, s: seq<Message>)
    requires multiset(a) + multiset(b) == multiset(c) + multiset(d) && p + q == r + s
    ensures multiset(a + p) + multiset(b + q) == multiset(c + r) + multiset(d + s)
  {
    assert multiset(a + p) + multiset(b + q) == (multiset(a) + multiset(b)) + multiset(p + q);
    assert multiset(c + r) + multiset(d + s) == (multiset(c) + multiset(d)) + multiset(r + s);
  }

  lemma {:induction false} VerdictsConserve(items: seq<Item>, reset: bool)
    ensures multiset(AllHanded(items, reset)) + multiset(LostMessages(items, reset))
            == multiset(MovedMessages(items, reset)) + multiset(DoubledMessages(items, reset))
  {
    if items != [] {
      var rest, last := items[..|items| - 1], items[|items| - 1];
      VerdictsConserve(rest, reset);
      OneConserves(last, reset);
      ConcatEach(AllHanded(rest, reset), LostMessages(rest, reset),
                 MovedMessages(rest, reset), DoubledMessages(rest, reset),
                 Handed(last, reset), Pick(last, reset, FALSELY_CONFIRMED),
                 Pick(last, reset, ReportedOk), Pick(last, reset, TAKEN_BUT_ERRORED));
    }
  }

  // ----- what the loop's settlements mean -----

  /** The republications of the deliveries that the log acknowledges. */
  function AckedMessages(items: seq<Item>, log: seq<Settlement>, reset: bool): seq<Message>
    requires |log| <= |items|
  {
    if log == [] then []
    else
      var n := |log| - 1;
      var again := Requeued(items[n].m, reset);
      AckedMessages(items, log[..n], reset) + (if log[n].Ack? && again.Some? then [again.value] else [])
  }

  /** A log without its last settlement is the log of the loop before it, which had not stopped. */
  lemma {:induction false} SettledBefore(items: seq<Item>, log: seq<Settlement>, reset: bool, maxMessages: int)
    requires Settles(items, log, reset, maxMessages) && log != []
    ensures var n := |log| - 1;
            Settles(items, log[..n], reset, maxMessages) && !Stopped(items, log[..n], maxMessages)
  {
    var n := |log| - 1;
    assert forall i | 0 <= i <= n :: log[..n][..i] == log[..i];
  }

  /** What the last settlement adds to both sides. */
  lemma LastAcked(items: seq<Item>, log: seq<Settlement>, reset: bool, maxMessages: int)
    requires Settles(items, log, reset, maxMessages) && log != []
    ensures var n := |log| - 1;
            && (log[n].Ack? <==> Moved(items[n], reset) && !Stopped(items, log, maxMessages))
            && Processed(items, log, maxMessages) == (if Stopped(items, log, maxMessages) then n else n + 1)
  {
    assert log[|log| - 1] == Due(items, log, |log| - 1, reset, maxMessages);
  }

  /**
   Each delivery taken is settled exactly once: it is acknowledged if and only if it
   was processed, its target is known and its republish was reported as a success,
   and otherwise goes back to the dead-letter queue.
   */
  lemma SettledExactly(items: seq<Item>, log: seq<Settlement>, reset: bool, maxMessages: int, i: nat)
    requires Settles(items, log, reset, maxMessages) && i < |log|
    ensures log[i] == Ack <==>
            && i < Processed(items, log, maxMessages) && Requeued(items[i].m, reset).Some?
            && (items[i].publish.Confirmed? || items[i].publish.FalselyConfirmed?)
    ensures log[i] == Ack || log[i] == Nack(true)
  {
    assert log[i] == Due(items, log, i, reset, maxMessages);
    if i == |log| - 1 {
      LastAcked(items, log, reset, maxMessages);
    } else {
      assert !StopsAt(items[i], Acks(log[..i]), maxMessages);
    }
  }

  lemma MovedOneMore(items: seq<Item>, n: nat, reset: bool)
    requires n < |items|
    ensures MovedMessages(items[..n + 1], reset)
            == MovedMessages(items[..n], reset) + Pick(items[n], reset, ReportedOk)
  {
    assert items[..n + 1][..n] == items[..n];
  }

  lemma {:induction false} AckedAreMoved(items: seq<Item>, log: seq<Settlement>, reset: bool, maxMessages: int)
    requires Settles(items, log, reset, maxMessages)
    ensures AckedMessages(items, log, reset) == MovedMessages(items[..Processed(items, log, maxMessages)], reset)
    decreases |log|
  {
    if log != [] {
      var n := |log| - 1;
      SettledBefore(items, log, reset, maxMessages);
      LastAcked(items, log, reset, maxMessages);
      AckedAreMoved(items, log[..n], reset, maxMessages);
      assert Processed(items, log[..n], maxMessages) == n;
      MovedOneMore(items, n, reset);
      var again := Requeued(items[n].m, reset);
      var last := if log[n].Ack? && again.Some? then [again.value] else [];
      assert AckedMessages(items, log, reset) == MovedMessages(items[..n], reset) + last;
    }
  }

  lemma {:induction false} AckedAreCounted(items: seq<Item>, log: seq<Settlement>, reset: bool, maxMessages: int)
    requires Settles(items, log, reset, maxMessages)
    ensures |AckedMessages(items, log, reset)| == Acks(log)
    decreases |log|
  {
    if log != [] {
      SettledBefore(items, log, reset, maxMessages);
      LastAcked(items, log, reset, maxMessages);
      AckedAreCounted(items, log[..|log| - 1], reset, maxMessages);
    }
  }

  // ----- how many are requeued -----

  /** The loop has gone through all deliveries, or stopped. */
  ghost predicate Complete(items: seq<Item>, log: seq<Settlement>, maxMessages: int) {
    |log| == |items| || Stopped(items, log, maxMessages)
  }

  lemma {:induction false} MovedGrow(items: seq<Item>, n: nat, k: nat, reset: bool)
    requires n <= k <= |items|
    ensures |MovedMessages(items[..n], reset)| <= |MovedMessages(items[..k], reset)|
    decreases k
  {
    if n < k {
      MovedGrow(items, n, k - 1, reset);
      MovedOneMore(items, k - 1, reset);
      assert items[..k - 1 + 1] == items[..k];
    }
  }

  lemma {:induction false} LimitKept(items: seq<Item>, log: seq<Settlement>, reset: bool, maxMessages: int)
    requires Settles(items, log, reset, maxMessages) && maxMessages > 0
    ensures Acks(log) <= maxMessages
    decreases |log|
  {
    if log != [] {
      SettledBefore(items, log, reset, maxMessages);
      LimitKept(items, log[..|log| - 1], reset, maxMessages);
      LastAcked(items, log, reset, maxMessages);
    }
  }

  lemma CountOfProcessed(items: seq<Item>, log: seq<Settlement>, reset: bool, maxMessages: int)
    requires Settles(items, log, reset, maxMessages)
    ensures Acks(log) == |MovedMessages(items[..Processed(items, log, maxMessages)], reset)|
  {
    AckedAreMoved(items, log, reset, maxMessages);
    AckedAreCounted(items, log, reset, maxMessages);
  }

  lemma StoppedByLimit(items: seq<Item>, log: seq<Settlement>, reset: bool, maxMessages: int)
    requires Settles(items, log, reset, maxMessages) && Stopped(items, log, maxMessages)
    requires !items[|log| - 1].cancelled
    ensures maxMessages > 0 && Acks(log) >= maxMessages
  {
    LastAcked(items, log, reset, maxMessages);
  }

  /** The loop stops at the first cancelled delivery, or before it at the limit. */
  lemma StopsWhere(items: seq<Item>, log: seq<Settlement>, reset: bool, maxMessages: int, k: nat)
    requires Settles(items, log, reset, maxMessages) && Complete(items, log, maxMessages)
    requires k <= |items| && (forall j | 0 <= j < k :: !items[j].cancelled) && (k < |items| ==> items[k].cancelled)
    ensures Processed(items, log, maxMessages) <= k
    ensures Processed(items, log, maxMessages) < k ==> maxMessages > 0 && Acks(log) >= maxMessages
  {
    assert forall i | 0 <= i < |log| - 1 :: !items[i].cancelled;
    if Stopped(items, log, maxMessages) {
      if |log| - 1 < k {
        StoppedByLimit(items, log, reset, maxMessages);
      }
    } else if log != [] {
      assert !items[|log| - 1].cancelled;
    }
  }

  /**
   The count, told from the deliveries alone.  If the context is first cancelled at
   delivery `k`, a bulk requeue moves as many messages as can be moved before it, but
   no more than a positive limit.
   */
  lemma CountExactly(items: seq<Item>, log: seq<Settlement>, reset: bool, maxMessages: int, k: nat)
    requires Settles(items, log, reset, maxMessages) && Complete(items, log, maxMessages)
    requires k <= |items| && (forall j | 0 <= j < k :: !items[j].cancelled) && (k < |items| ==> items[k].cancelled)
    ensures var movable := |MovedMessages(items[..k], reset)|;
            Acks(log) == if maxMessages > 0 && maxMessages < movable then maxMessages else movable
  {
    CountOfProcessed(items, log, reset, maxMessages);
    StopsWhere(items, log, reset, maxMessages, k);
    MovedGrow(items, Processed(items, log, maxMessages), k, reset);
    if maxMessages > 0 {
      LimitKept(items, log, reset, maxMessages);
    }
  }

  /**
   Conservation of a bulk requeue: over the deliveries it processed, what the broker
   took together with what was lost is what the loop acknowledged together with what
   was doubled, message by message; and the count it returns is that of the
   messages acknowledged.
   */
  lemma RequeueConserves(items: seq<Item>, log: seq<Settlement>, reset: bool, maxMessages: int)
    requires Settles(items, log, reset, maxMessages)
    ensures |AckedMessages(items, log, reset)| == Acks(log)
    ensures var taken := items[..Processed(items, log, maxMessages)];
            multiset(AllHanded(taken, reset)) + multiset(LostMessages(taken, reset))
            == multiset(AckedMessages(items, log, reset)) + multiset(DoubledMessages(taken, reset))
  {
    AckedAreMoved(items, log, reset, maxMessages);
    AckedAreCounted(items, log, reset, maxMessages);
    VerdictsConserve(items[..Processed(items, log, maxMessages)], reset);
  }

  /** The verdict told the caller what the broker did. */
  predicate Truthful(v: PublishVerdict) {
    ReportedOk(v) <==> Taken(v)
  }

  lemma {:induction false} TruthfulPicksNone(items: seq<Item>, reset: bool)
    requires forall i | 0 <= i < |items| :: Requeued(items[i].m, reset).Some? ==> Truthful(items[i].publish)
    ensures AllHanded(items, reset) == MovedMessages(items, reset)
    ensures LostMessages(items, reset) == [] && DoubledMessages(items, reset) == []
  {
    if items != [] {
      TruthfulPicksNone(items[..|items| - 1], reset);
    }
  }

  lemma {:induction false} NonePickedTruthful(items: seq<Item>, reset: bool, i: nat)
    requires LostMessages(items, reset) == [] && DoubledMessages(items, reset) == []
    requires i < |items| && Requeued(items[i].m, reset).Some?
    ensures Truthful(items[i].publish)
  {
    if i < |items| - 1 {
      NonePickedTruthful(items[..|items| - 1], reset, i);
    }
  }

  /** Nothing is lost and nothing doubled if and only if every verdict on a message with a target was truthful. */
  lemma {:induction false} TruthfulExactly(items: seq<Item>, reset: bool)
    ensures LostMessages(items, reset) == [] && DoubledMessages(items, reset) == [] <==>
            forall i | 0 <= i < |items| :: Requeued(items[i].m, reset).Some? ==> Truthful(items[i].publish)
    ensures LostMessages(items, reset) == [] && DoubledMessages(items, reset) == [] ==>
              AllHanded(items, reset) == MovedMessages(items, reset)
  {
    if LostMessages(items, reset) == [] && DoubledMessages(items, reset) == [] {
      forall i | 0 <= i < |items| && Requeued(items[i].m, reset).Some?
        ensures Truthful(items[i].publish)
      {
        NonePickedTruthful(items, reset, i);
      }
    }
    if forall i | 0 <= i < |items| :: Requeued(items[i].m, reset).Some? ==> Truthful(items[i].publish) {
      TruthfulPicksNone(items, reset);
    }
  }

  /**
   A bulk requeue loses and doubles nothing if and only if every verdict it got on a
   message with a target was truthful; then the broker took exactly the messages
   that the loop acknowledged, in their order.
   */
  lemma HandedAreMoved(items: seq<Item>, log: seq<Settlement>, reset: bool, maxMessages: int)
    requires Settles(items, log, reset, maxMessages)
    ensures var taken := items[..Processed(items, log, maxMessages)];
            && (LostMessages(taken, reset) == [] && DoubledMessages(taken, reset) == [] <==>
                forall i | 0 <= i < |taken| :: Requeued(taken[i].m, reset).Some? ==> Truthful(taken[i].publish))
            && (LostMessages(taken, reset) == [] && DoubledMessages(taken, reset) == [] ==>
                  AllHanded(taken, reset) == AckedMessages(items, log, reset))
  {
    AckedAreMoved(items, log, reset, maxMessages);
    TruthfulExactly(items[..Processed(items, log, maxMessages)], reset);
  }
}
