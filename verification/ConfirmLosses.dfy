/**
 Runs, with epochs apart, in which a confirmation is lost and the publish that it
 belongs to can never report it, although it keeps its place in the map.
 */
module ConfirmLosses {
  import opened ConfirmCore
  import opened ConfirmProtocol
  import opened ConfirmMessages
  import opened ConfirmOrigin
  import opened ConfirmEviction
  import opened ConfirmAnswers

  /** `s` is reached by `steps`, with epochs apart, from a publisher on channel 1. */
  ghost predicate ReachedApart(steps: seq<Step>, s: State) {
    Run(Init(1), steps) && Exec(Init(1), steps) == s && Along(Init(1), steps, EpochsApart)
  }

  lemma {:induction false} AlongOneMore(s0: State, steps: seq<Step>, s: State, st: Step)
    requires Run(s0, steps) && Exec(s0, steps) == s && Along(s0, steps, EpochsApart)
    requires Enabled(s, st) && EpochsApart(s, st) && Run(s0, steps + [st])
    ensures Along(s0, steps + [st], EpochsApart)
    decreases |steps|
  {
    if steps == [] {
      assert [] + [st] == [st] && [st][1..] == [];
    } else {
      assert (steps + [st])[1..] == steps[1..] + [st];
      AlongOneMore(Apply(s0, steps[0]), steps[1..], s, st);
    }
  }

  lemma ExtendApart(steps: seq<Step>, s: State, st: Step)
    returns (steps': seq<Step>, s': State)
    requires ReachedApart(steps, s) && Enabled(s, st) && EpochsApart(s, st)
    ensures ReachedApart(steps', s') && s' == Apply(s, st)
  {
    steps', s' := Extend(Init(1), steps, s, st);
    AlongOneMore(Init(1), steps, s, st);
  }

  /** The client has reconnected and call 0 has reset the epoch, but not yet registered its listener. */
  lemma ResetBeforeListener() returns (steps: seq<Step>, s: State)
    ensures ReachedApart(steps, s)
    ensures s == Init(1).(core := Core(2, 0, map[], map[], NoFault), client := 2,
                          calls := map[0 := Call(Single, SetupDue, 2, 0, 0, 0, 0, 0)])
  {
    steps, s := ExtendApart([], Init(1), Swap);
    steps, s := ExtendApart(steps, s, Begin(0, Single));
    steps, s := ExtendApart(steps, s, EnsureRead(0));
    steps, s := ExtendApart(steps, s, EnsureLock(0));
    assert s.core.chans == map[];
  }

  lemma AdmittedBeforeListener() returns (steps: seq<Step>, s: State)
    ensures ReachedApart(steps, s)
    ensures s.core == Core(2, 0, map[], map[], NoFault) && s.client == 2 && s.held == multiset{}
    ensures At(s, 1, Ready) && s.broker == Init(1).broker && s.feed == Init(1).feed
  {
    steps, s := ResetBeforeListener();
    steps, s := ExtendApart(steps, s, Begin(1, Single));
    steps, s := ExtendApart(steps, s, EnsureRead(1));
    steps, s := ExtendApart(steps, s, EnsureLock(1));
    steps, s := ExtendApart(steps, s, Check(1));
  }

  lemma SentBeforeListener() returns (steps: seq<Step>, s: State)
    ensures ReachedApart(steps, s) && s.client == 2 && s.feed.listening == multiset{1} && s.feed.verdict == map[]
    ensures At(s, 1, Sent) && RegisteredAt(s, 1, 1) && s.calls[1].tag == s.calls[1].number == 1
    ensures s.calls[1].sentOn == 2 && s.broker.owner == map[(2, 1) := 1] && s.broker.sent == map[2 := 1]
    ensures s.core.chans == map[1 := Chan(true, [], 1)] && s.feed.unread == multiset{} && s.held == multiset{}
  {
    steps, s := AdmittedBeforeListener();
    steps, s := ExtendApart(steps, s, Increment(1));
    steps, s := ExtendApart(steps, s, RegisterCall(1));
    steps, s := ExtendApart(steps, s, SendOk(1));
  }

  lemma AckedBeforeListener() returns (steps: seq<Step>, s: State)
    ensures ReachedApart(steps, s) && s.core.chans == map[1 := Chan(true, [], 1)]
    ensures At(s, 1, Sent) && HoldsPlace(s, 1) && OwnVerdict(s, 1, true)
    ensures s.calls[1].tag == s.calls[1].number && s.calls[1].sentOn == s.client
    ensures Awaited(s.calls[1]) in s.feed.verdict && !UnderWay(s, Awaited(s.calls[1]))
  {
    steps, s := SentBeforeListener();
    steps, s := ExtendApart(steps, s, Decide(2, 1, true));
  }

  /**
   Another publish that arrives while the reset still waits for the old router finds
   the new epoch in place, and sends.  If the broker acks its message before the
   listener is registered, it keeps its place in the map and can never report the
   ack: no continuation that keeps epochs apart ends its wait with a verdict.
   */
  lemma AckBeforeListenerIsLost() returns (steps: seq<Step>)
    ensures Run(Init(1), steps) && Along(Init(1), steps, EpochsApart)
    ensures var s := Exec(Init(1), steps);
            && At(s, 1, Sent) && HoldsPlace(s, 1) && OwnVerdict(s, 1, true)
            && s.calls[1].tag == s.calls[1].number && s.calls[1].sentOn == s.client
            && !CanReport(s, 1)
  {
    var s: State;
    steps, s := AckedBeforeListener();
    assert !Answerable(s, 1);
    CanReportIffAnswerable(1, steps, 1);
  }

  // ----- a confirmation routed before its registration -----

  /** `c` reads the client's channel. */
  lemma ReadApart(steps: seq<Step>, s: State, c: nat)
    returns (steps': seq<Step>, s': State)
    requires ReachedApart(steps, s) && c !in s.calls && s.client == 1
    ensures ReachedApart(steps', s') && s' == Put(s, c, Call(Single, Read, 1, 0, 0, 0, 0, 0))
  {
    steps', s' := ExtendApart(steps, s, Begin(c, Single));
    steps', s' := ExtendApart(steps', s', EnsureRead(c));
  }

  /** `c` gets ready on channel 1. */
  lemma AdmittedApart(steps: seq<Step>, s: State, c: nat)
    returns (steps': seq<Step>, s': State)
    requires ReachedApart(steps, s) && c !in s.calls && s.client == s.core.channelID == 1 && !s.closed
    ensures ReachedApart(steps', s') && s' == Put(s, c, Call(Single, Ready, 1, 0, 0, 0, 0, 0))
  {
    steps', s' := ReadApart(steps, s, c);
    steps', s' := ExtendApart(steps', s', EnsureLock(c));
    steps', s' := ExtendApart(steps', s', Check(c));
  }

  /** Call 0 has taken tag 1 and stalls; call 1 has tag 2. */
  lemma Overtaken() returns (steps: seq<Step>, s: State)
    ensures ReachedApart(steps, s)
    ensures s == Init(1).(core := Core(1, 2, map[], map[], NoFault),
                          calls := map[0 := Call(Single, Tagged, 1, 1, 0, 0, 0, 0),
                                       1 := Call(Single, Tagged, 1, 2, 0, 0, 0, 0)])
  {
    steps, s := AdmittedApart([], Init(1), 0);
    steps, s := ExtendApart(steps, s, Increment(0));
    steps, s := AdmittedApart(steps, s, 1);
    steps, s := ExtendApart(steps, s, Increment(1));
  }

  /** Call 1 sends first, and its message has number 1. */
  lemma OvertakerSent() returns (steps: seq<Step>, s: State)
    ensures ReachedApart(steps, s) && At(s, 0, Tagged) && s.calls[0].tag == 1
    ensures s.core == Core(1, 2, map[2 := 1], map[1 := Chan(true, [], 2)], NoFault) && s.client == 1 && !s.closed
    ensures s.broker == Broker(map[1 := 1], map[], map[(1, 1) := 1]) && s.feed == Init(1).feed
    ensures s.held == multiset{}
  {
    steps, s := Overtaken();
    steps, s := ExtendApart(steps, s, RegisterCall(1));
    steps, s := ExtendApart(steps, s, SendOk(1));
  }

  lemma AckPickedUpEarly() returns (steps: seq<Step>, s: State)
    ensures ReachedApart(steps, s) && At(s, 0, Tagged) && s.calls[0].tag == 1
    ensures s.core == Core(1, 2, map[2 := 1], map[1 := Chan(true, [], 2)], NoFault) && s.client == 1 && !s.closed
    ensures s.feed.dead == {} && s.broker.sent == map[1 := 1] && s.feed.verdict == map[(1, 1) := true]
    ensures s.feed.unread == multiset{} && s.held == multiset{Conf(1, 1, true)}
  {
    steps, s := OvertakerSent();
    steps, s := ExtendApart(steps, s, Decide(1, 1, true));
    steps, s := ExtendApart(steps, s, RouterReceive(1, 1));
  }

  /** Its ack is received and routed: nobody is registered under tag 1 yet. */
  lemma AckRoutedTooEarly() returns (steps: seq<Step>, s: State)
    ensures ReachedApart(steps, s) && At(s, 0, Tagged) && s.calls[0].tag == 1
    ensures s.core == Core(1, 2, map[2 := 1], map[1 := Chan(true, [], 2)], NoFault) && s.client == 1 && !s.closed
    ensures s.feed.dead == {} && s.broker.sent == map[1 := 1] && s.feed.verdict == map[(1, 1) := true]
    ensures s.feed.unread == multiset{} && s.held == multiset{}
  {
    steps, s := AckPickedUpEarly();
    steps, s := ExtendApart(steps, s, RouterRoute(Conf(1, 1, true)));
  }

  lemma SentTooLate() returns (steps: seq<Step>, s: State)
    ensures ReachedApart(steps, s) && At(s, 0, Sent) && RegisteredAt(s, 1, 0) && !s.closed && s.feed.dead == {}
    ensures s.calls[0].tag == s.calls[0].sentOn == 1 && s.calls[0].number == 2
    ensures s.core.chans.Keys == {0, 1} && s.core.chans[0] == Chan(true, [], 1)
    ensures Count(s.broker.sent, 1) == 2 && (1, 2) in s.broker.owner && s.broker.owner[(1, 2)] == 0
    ensures s.feed.verdict == map[(1, 1) := true] && s.feed.unread == multiset{} && s.held == multiset{}
  {
    steps, s := AckRoutedTooEarly();
    steps, s := ExtendApart(steps, s, RegisterCall(0));
    steps, s := ExtendApart(steps, s, SendOk(0));
  }

  lemma RegisteredTooLate() returns (steps: seq<Step>, s: State)
    ensures ReachedApart(steps, s) && At(s, 0, Sent) && HoldsPlace(s, 0) && OwnVerdict(s, 0, true)
    ensures s.feed.dead == {} && !s.closed && !Answerable(s, 0)
  {
    steps, s := SentTooLate();
    steps, s := ExtendApart(steps, s, Decide(1, 2, true));
  }

  /**
   A publish takes a tag, another overtakes it, and the ack of the number equal to the
   first one's tag is routed before that one is registered, and dropped.  The broker
   acks the late message too, and it can never report it.
   */
  lemma AckBeforeRegistrationIsLost() returns (steps: seq<Step>)
    ensures Run(Init(1), steps) && Along(Init(1), steps, EpochsApart)
    ensures var s := Exec(Init(1), steps);
            && At(s, 0, Sent) && HoldsPlace(s, 0) && OwnVerdict(s, 0, true) && !s.closed && s.feed.dead == {}
            && !CanReport(s, 0)
  {
    var s: State;
    steps, s := RegisteredTooLate();
    CanReportIffAnswerable(1, steps, 0);
  }
}
