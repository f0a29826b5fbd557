/**
 Concrete runs showing that each scheduling hypothesis of confirm soundness is
 needed: without it the code reports an ack for a message the broker nacked.
 */
module ConfirmHazards {
  import opened ConfirmCore
  import opened ConfirmProtocol
  import opened ConfirmMessages

  /** `s` is reached by `steps` from a publisher on channel 1. */
  ghost predicate Reached(steps: seq<Step>, s: State) {
    Run(Init(1), steps) && Exec(Init(1), steps) == s
  }

  /** A decision on this channel reaches a listener. */
  ghost predicate Hears(s: State, on: nat) {
    on in s.feed.listening && on !in s.feed.dead
  }

  /** Call `c` waits under tag `tag` for the answer to message `(on, n)`. */
  ghost predicate Waiting(s: State, c: nat, tag: nat, on: nat, n: nat) {
    && At(s, c, Sent) && s.calls[c].sentOn == on && s.calls[c].number == n
    && (on, n) in s.broker.owner && s.broker.owner[(on, n)] == c
    && tag in s.core.pending && s.core.pending[tag] == c
    && c in s.core.chans && s.core.chans[c] == Chan(true, [], tag)
  }

  lemma Decided(steps: seq<Step>, s: State, on: nat, n: nat, v: bool)
    returns (steps': seq<Step>, s': State)
    requires Reached(steps, s) && Enabled(s, Decide(on, n, v))
    ensures Reached(steps', s')
    ensures s' == s.(feed := AfterDecide(s.feed, on, n, v))
  {
    steps', s' := Extend(Init(1), steps, s, Decide(on, n, v));
  }

  /** Message `(on, n)` is acked and a router picks the ack up. */
  lemma AckPickedUp(steps: seq<Step>, s: State, on: nat, n: nat)
    returns (steps': seq<Step>, s': State)
    requires Reached(steps, s) && Enabled(s, Decide(on, n, true)) && Hears(s, on)
    ensures Reached(steps', s')
    ensures s'.core == s.core && s'.calls == s.calls && s'.client == s.client && s'.closed == s.closed
    ensures s'.broker == s.broker && s'.feed == AfterDecide(s.feed, on, n, true).(unread := s'.feed.unread)
    ensures s'.held == s.held + multiset{Conf(on, n, true)}
  {
    steps', s' := Decided(steps, s, on, n, true);
    steps', s' := Extend(Init(1), steps', s', RouterReceive(on, n));
  }

  /** A router holding an ack numbered `tag` routes it to the waiting call `c`, which returns nil. */
  lemma Answered(steps: seq<Step>, s: State, c: nat, tag: nat, on: nat, n: nat, from: nat)
    returns (steps': seq<Step>, s': State)
    requires Reached(steps, s) && Conf(from, tag, true) in s.held && Waiting(s, c, tag, on, n)
    ensures Reached(steps', s')
    ensures s'.calls == s.calls[c := s.calls[c].(pc := Done(Acked))] && s'.broker == s.broker && s'.feed == s.feed
  {
    steps', s' := Extend(Init(1), steps, s, RouterRoute(Conf(from, tag, true)));
    assert s'.core.chans[c] == Chan(false, [true], tag);
    steps', s' := Extend(Init(1), steps', s', Receive(c));
  }

  lemma SentOutOfOrder() returns (steps: seq<Step>, s: State)
    ensures Reached(steps, s) && Waiting(s, 0, 1, 1, 2)
    ensures s.broker.sent == map[1 := 2] && s.feed.verdict == map[] && Hears(s, 1)
  {
    steps, s := Registration(Init(1), [], Init(1), 0, Single);
    steps, s := Registration(Init(1), steps, s, 1, Single);
    assert s.core.pending == map[1 := 0, 2 := 1];
    assert s.core.chans == map[0 := Chan(true, [], 1), 1 := Chan(true, [], 2)];
    steps, s := Extend(Init(1), steps, s, SendOk(1));
    steps, s := Extend(Init(1), steps, s, SendOk(0));
  }

  /** Two publishes take tags in one order and send in the other: the first reports the second's ack. */
  lemma ReorderedSendsSwapVerdicts() returns (steps: seq<Step>)
    ensures Run(Init(1), steps)
    ensures var s := Exec(Init(1), steps); At(s, 0, Done(Acked)) && OwnVerdict(s, 0, false)
  {
    var s: State;
    steps, s := SentOutOfOrder();
    steps, s := AckPickedUp(steps, s, 1, 1);
    steps, s := Decided(steps, s, 1, 2, false);
    steps, s := Answered(steps, s, 0, 1, 1, 2, 1);
  }

  lemma FailedOnce() returns (steps: seq<Step>, s: State)
    ensures Reached(steps, s)
    ensures s.core.channelID == s.client == s.core.deliveryTag == 1 && s.core.pending == map[] && !s.closed
    ensures s.calls.Keys == {0} && s.core.chans.Keys == {0}
    ensures s.broker == Broker(map[], map[1 := 1], map[]) && s.feed == Init(1).feed
  {
    steps, s := Registration(Init(1), [], Init(1), 0, Single);
    steps, s := Extend(Init(1), steps, s, SendErr(0));
    steps, s := Extend(Init(1), steps, s, Cleanup(0));
  }

  lemma RegisteredAfterFailure() returns (steps: seq<Step>, s: State)
    ensures Reached(steps, s) && At(s, 1, Registered) && s.calls.Keys == {0, 1}
    ensures s.core.deliveryTag == 2 && s.core.pending == map[2 := 1] && s.core.channelID == s.client == 1 && !s.closed
    ensures 1 in s.core.chans && s.core.chans[1] == Chan(true, [], 2)
    ensures s.broker == Broker(map[], map[1 := 1], map[]) && s.feed == Init(1).feed
  {
    steps, s := FailedOnce();
    steps, s := Registration(Init(1), steps, s, 1, Single);
  }

  lemma SentAfterFailure() returns (steps: seq<Step>, s: State)
    ensures Reached(steps, s) && Waiting(s, 1, 2, 1, 1) && s.calls[1].lag == 1
    ensures s.broker.sent == map[1 := 1] && s.feed.verdict == map[] && Hears(s, 1)
    ensures s.core.deliveryTag == 2 && 2 !in s.calls && s.client == s.core.channelID == 1 && !s.closed
  {
    steps, s := RegisteredAfterFailure();
    steps, s := Extend(Init(1), steps, s, SendOk(1));
  }

  lemma TwoSentAfterFailure() returns (steps: seq<Step>, s: State)
    ensures Reached(steps, s) && Waiting(s, 1, 2, 1, 1) && s.calls[1].lag == 1
    ensures s.broker.sent == map[1 := 2] && s.feed.verdict == map[] && Hears(s, 1)
  {
    steps, s := SentAfterFailure();
    steps, s := Registration(Init(1), steps, s, 2, Single);
    steps, s := Extend(Init(1), steps, s, SendOk(2));
  }

  /** A failed send uses up a tag: the next publish reports the ack of the one after it. */
  lemma FailedSendShiftsVerdicts() returns (steps: seq<Step>)
    ensures Run(Init(1), steps)
    ensures var s := Exec(Init(1), steps);
            At(s, 1, Done(Acked)) && s.calls[1].lag == 1 && OwnVerdict(s, 1, false)
  {
    var s: State;
    steps, s := TwoSentAfterFailure();
    steps, s := Decided(steps, s, 1, 1, false);
    steps, s := AckPickedUp(steps, s, 1, 2);
    steps, s := Answered(steps, s, 1, 2, 1, 1, 1);
  }

  lemma AckHeldAcrossReset() returns (steps: seq<Step>, s: State)
    ensures Reached(steps, s) && Conf(1, 1, true) in s.held
    ensures At(s, 1, Ready) && s.client == s.core.channelID == 2 && s.core.deliveryTag == 0
    ensures s.broker.sent == map[1 := 1] && s.broker.failed == map[] && (2, 1) !in s.feed.verdict
    ensures s.core.pending == map[] && s.core.chans.Keys == {0} && s.feed.dead == {}
  {
    steps, s := Registration(Init(1), [], Init(1), 0, Single);
    steps, s := Extend(Init(1), steps, s, SendOk(0));
    steps, s := AckPickedUp(steps, s, 1, 1);
    steps, s := Reconnection(Init(1), steps, s, 1);
  }

  lemma WaitsWithStaleAck() returns (steps: seq<Step>, s: State)
    ensures Reached(steps, s) && Conf(1, 1, true) in s.held && Waiting(s, 1, 1, 2, 1) && s.calls[1].lag == 0
    ensures Count(s.broker.sent, 2) == 1 && (2, 1) !in s.feed.verdict
  {
    steps, s := AckHeldAcrossReset();
    steps, s := Extend(Init(1), steps, s, Increment(1));
    steps, s := Extend(Init(1), steps, s, RegisterCall(1));
    steps, s := Extend(Init(1), steps, s, SendOk(1));
  }

  /** A router that outlives its epoch answers a new publish with an old message's ack. */
  lemma StaleRouterCrossesEpochs() returns (steps: seq<Step>)
    ensures Run(Init(1), steps)
    ensures var s := Exec(Init(1), steps);
            At(s, 1, Done(Acked)) && s.calls[1].lag == 0 && OwnVerdict(s, 1, false)
  {
    var s: State;
    steps, s := WaitsWithStaleAck();
    steps, s := Decided(steps, s, 2, 1, false);
    steps, s := Answered(steps, s, 1, 1, 2, 1, 1);
  }

  lemma SlotSendFails() returns (steps: seq<Step>, s: State)
    ensures Reached(steps, s) && At(s, 0, Dropping) && s.calls[0].kind == Batch && s.calls[0].tag == 1
    ensures s.calls.Keys == {0} && s.core == Core(1, 1, map[1 := 0], map[0 := Chan(true, [], 1)], NoFault)
    ensures s.broker == Broker(map[], map[1 := 1], map[]) && s.feed == Init(1).feed && s.held == multiset{}
    ensures s.client == 1
  {
    steps, s := Registration(Init(1), [], Init(1), 0, Batch);
    steps, s := Extend(Init(1), steps, s, SendErr(0));
  }

  lemma FailedSlot() returns (steps: seq<Step>, s: State)
    ensures Reached(steps, s) && At(s, 0, Done(SendError)) && s.calls[0].kind == Batch && s.calls.Keys == {0}
    ensures s.core.deliveryTag == s.core.channelID == s.client == 1 && s.core.pending == map[]
    ensures s.core.chans == map[0 := Chan(false, [], 1)] && s.core.fault.NoFault?
    ensures s.broker == Broker(map[], map[1 := 1], map[]) && s.feed == Init(1).feed && s.held == multiset{}
  {
    steps, s := SlotSendFails();
    steps, s := Extend(Init(1), steps, s, Drop(0));
    steps, s := Extend(Init(1), steps, s, CloseOwn(0));
  }

  /** A failed send does not stop a batch, and the next message waits under a tag that is not its number. */
  lemma FailedSlotShiftsBatch() returns (steps: seq<Step>)
    ensures Run(Init(1), steps)
    ensures var s := Exec(Init(1), steps);
            At(s, 0, Done(SendError)) && Waiting(s, 1, 2, 1, 1) && s.calls[1].kind == Batch && s.core.fault.NoFault?
  {
    var s: State;
    steps, s := FailedSlot();
    steps, s := Extend(Init(1), steps, s, BeginSlot(1, 0));
    steps, s := Extend(Init(1), steps, s, Increment(1));
    steps, s := Extend(Init(1), steps, s, RegisterCall(1));
    steps, s := Extend(Init(1), steps, s, SendOk(1));
  }

  /** Two resets in a row, each followed by its own setup on the latest channel. */
  lemma TwoListeners() returns (steps: seq<Step>, s: State)
    ensures Reached(steps, s) && At(s, 1, Checking) && s.client == 3 && !s.closed
    ensures s.core == Core(3, 0, map[], map[], NoFault) && s.held == multiset{}
    ensures s.feed.listening[3] == 2 && s.feed.dead == {} && s.feed.verdict == map[] && s.broker.sent == map[]
  {
    steps, s := Reset(Init(1), [], Init(1), 0);
    assert s.core.chans == map[];
    steps, s := Reset(Init(1), steps, s, 1);
    assert s.core.chans == map[];
    steps, s := Extend(Init(1), steps, s, Setup(0));
    steps, s := Extend(Init(1), steps, s, Setup(1));
  }

  lemma SentToTwoListeners() returns (steps: seq<Step>, s: State)
    ensures Reached(steps, s) && At(s, 1, Sent) && s.calls[1].sentOn == 3 && s.calls[1].number == 1
    ensures s.feed.listening[3] == 2 && s.feed.dead == {} && s.feed.verdict == map[] && s.held == multiset{}
    ensures Count(s.broker.sent, 3) == 1
  {
    steps, s := TwoListeners();
    steps, s := Extend(Init(1), steps, s, Check(1));
    steps, s := Extend(Init(1), steps, s, Increment(1));
    steps, s := Extend(Init(1), steps, s, RegisterCall(1));
    steps, s := Extend(Init(1), steps, s, SendOk(1));
  }

  /** After two resets that end up on the same channel, every confirmation on it is received twice. */
  lemma OverlappingResetsDoubleConfirmations() returns (steps: seq<Step>)
    ensures Run(Init(1), steps)
    ensures var s := Exec(Init(1), steps);
            At(s, 1, Sent) && s.held[Conf(s.calls[1].sentOn, s.calls[1].number, true)] == 2
  {
    var s: State;
    steps, s := SentToTwoListeners();
    steps, s := Extend(Init(1), steps, s, Decide(3, 1, true));
    steps, s := Extend(Init(1), steps, s, RouterReceive(3, 1));
    steps, s := Extend(Init(1), steps, s, RouterReceive(3, 1));
  }
}
