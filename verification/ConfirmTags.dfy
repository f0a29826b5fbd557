/**
 Tag accounting: how the publisher's delivery-tag counter relates to the numbers
 the broker gives out, when no channel swap falls between a publish's
 `ensureConfirmsSetup` and its send.
 */
module ConfirmTags {
  import opened ConfirmProtocol

  /** Between reading the client's channel and attempting the send. */
  predicate InWindow(pc: Pc) {
    pc.Read? || pc.SetupDue? || pc.Checking? || pc.Ready? || pc.Tagged? || pc.Registered?
  }

  predicate PastLock(pc: Pc) {
    !pc.Start? && !pc.Read?
  }

  predicate Flying(pc: Pc) {
    pc.Tagged? || pc.Registered?
  }

  /** The publishers between their increment and their send. */
  ghost function InFlight(s: State): set<nat> {
    set c | c in s.calls && Flying(s.calls[c].pc)
  }

  /** Scheduling hypothesis: the client's channel is not swapped under a publish that has not sent yet. */
  ghost predicate QuietSwaps(s: State, st: Step) {
    && (st.Swap? ==> forall c <- s.calls :: !InWindow(s.calls[c].pc))
    && (st.BeginSlot? ==> st.prev in s.calls && s.calls[st.prev].seen == s.client)
  }

  ghost predicate SeenInv(s: State) {
    && (forall c <- s.calls :: s.calls[c].seen <= s.client)
    && (forall c <- s.calls | InWindow(s.calls[c].pc) :: s.calls[c].seen == s.client)
    && (forall c <- s.calls | PastLock(s.calls[c].pc) && s.calls[c].seen == s.client :: s.core.channelID == s.client)
    && s.core.channelID <= s.client
    && (forall e <- s.broker.sent :: e <= s.core.channelID)
    && (forall e <- s.broker.failed :: e <= s.core.channelID)
  }

  ghost predicate Accounted(s: State) {
    s.core.deliveryTag ==
    Count(s.broker.sent, s.core.channelID) + Count(s.broker.failed, s.core.channelID) + |InFlight(s)|
  }

  /** What a call knows about the client's channel after one of its own steps. */
  lemma CallerSeen(s: State, st: Step)
    requires Enabled(s, st) && QuietSwaps(s, st) && !Environmental(st)
    requires st.c in s.calls ==> s.calls[st.c].seen <= s.client
    requires st.c in s.calls && InWindow(s.calls[st.c].pc) ==> s.calls[st.c].seen == s.client
    ensures Apply(s, st).calls[st.c].seen <= s.client
    ensures InWindow(Apply(s, st).calls[st.c].pc) ==> Apply(s, st).calls[st.c].seen == s.client
    ensures st.EnsureLock? ==> Apply(s, st).core.channelID == s.client
  {
  }

  /** Only a lock, or a slot of a call past it, lets a call pass the lock. */
  lemma CallerPastLock(s: State, st: Step)
    requires Enabled(s, st) && QuietSwaps(s, st) && !Environmental(st)
    ensures var call := Apply(s, st).calls[st.c];
            PastLock(call.pc) && call.seen == s.client ==>
              || st.EnsureLock?
              || (st.BeginSlot? && st.prev in s.calls && PastLock(s.calls[st.prev].pc) &&
                  s.calls[st.prev].seen == s.client)
              || (st.c in s.calls && PastLock(s.calls[st.c].pc) && s.calls[st.c].seen == s.client)
  {
  }

  /** The broker has numbers only for channels of epochs that have begun. */
  lemma CountersStay(s: State, st: Step)
    requires SeenInv(s) && Enabled(s, st)
    ensures forall e <- Apply(s, st).broker.sent :: e <= s.core.channelID
    ensures forall e <- Apply(s, st).broker.failed :: e <= s.core.channelID
  {
    if st.SendOk? || st.SendErr? {
      assert s.core.channelID == s.client;
    } else {
      CoreFrame(s, st);
    }
  }

  lemma SeenStep(s: State, st: Step)
    requires SeenInv(s) && Enabled(s, st) && QuietSwaps(s, st)
    ensures SeenInv(Apply(s, st))
  {
    CallFrame(s, st);
    CoreFrame(s, st);
    CountersStay(s, st);
    if !Environmental(st) {
      CallerSeen(s, st);
      CallerPastLock(s, st);
      SeenByAll(s, Apply(s, st), st);
    }
  }

  lemma SeenByAll(s: State, s': State, st: Step)
    requires SeenInv(s) && !Environmental(st) && s'.client == s.client
    requires s'.core.channelID == s.core.channelID || s'.core.channelID == s.client
    requires forall e <- s'.broker.sent :: e <= s.core.channelID
    requires forall e <- s'.broker.failed :: e <= s.core.channelID
    requires st.c in s'.calls && s'.calls == s.calls[st.c := s'.calls[st.c]]
    requires var call := s'.calls[st.c];
             && call.seen <= s.client && (InWindow(call.pc) ==> call.seen == s.client)
             && (PastLock(call.pc) && call.seen == s.client ==> s'.core.channelID == s.client)
    ensures SeenInv(s')
  {
  }

  /**
   With quiet swaps an epoch reset never lands between another publish's lock and
   its send: no separate hypothesis about resets is needed.
   */
  lemma ResetFindsNoneInFlight(s: State, c: nat)
    requires SeenInv(s) && Enabled(s, EnsureLock(c)) && s.calls[c].seen != s.core.channelID
    ensures forall d <- s.calls :: InWindow(s.calls[d].pc) ==> s.calls[d].pc.Read?
    ensures InFlight(s) == {}
  {
    forall d <- s.calls | InWindow(s.calls[d].pc)
      ensures s.calls[d].pc.Read?
    {
      assert s.calls[d].seen == s.client && s.calls[c].seen == s.client;
    }
  }

  lemma CallerFlight(s: State, st: Step)
    requires Enabled(s, st) && !Environmental(st)
    ensures Flying(Apply(s, st).calls[st.c].pc) <==> st.Increment? || st.RegisterCall?
    ensures st.c in s.calls && Flying(s.calls[st.c].pc) <==> st.RegisterCall? || st.SendOk? || st.SendErr?
  {
  }

  lemma FlightAfter(s: State, st: Step)
    requires Enabled(s, st)
    ensures InFlight(Apply(s, st)) ==
            if st.Increment? then InFlight(s) + {st.c}
            else if st.SendOk? || st.SendErr? then InFlight(s) - {st.c}
            else InFlight(s)
    ensures st.Increment? ==> st.c !in InFlight(s)
    ensures st.SendOk? || st.SendErr? ==> st.c in InFlight(s)
  {
    CallFrame(s, st);
    if !Environmental(st) {
      CallerFlight(s, st);
    }
  }

  lemma AccountedStep(s: State, st: Step)
    requires SeenInv(s) && Accounted(s) && Enabled(s, st) && QuietSwaps(s, st)
    ensures Accounted(Apply(s, st))
  {
    FlightAfter(s, st);
    CoreFrame(s, st);
    match st
    case EnsureLock(c) =>
      if s.calls[c].seen != s.core.channelID {
        ResetFindsNoneInFlight(s, c);
        assert s.calls[c].seen == s.client > s.core.channelID;
      }
    case SendOk(c) => assert s.core.channelID == s.client;
    case SendErr(c) => assert s.core.channelID == s.client;
    case _ =>
  }

  lemma {:induction false} AccountedAlways(s: State, steps: seq<Step>)
    requires Run(s, steps) && Along(s, steps, QuietSwaps)
    requires SeenInv(s) && Accounted(s)
    ensures SeenInv(Exec(s, steps)) && Accounted(Exec(s, steps))
    decreases |steps|
  {
    if steps != [] {
      SeenStep(s, steps[0]);
      AccountedStep(s, steps[0]);
      AccountedAlways(Apply(s, steps[0]), steps[1..]);
    }
  }

  /**
   Main result.  In every run with quiet swaps, across any number of reconnects,
   the counter equals the broker's number plus the failed sends plus the
   publishers in flight; at rest it agrees with the broker exactly when no send
   on the current channel has failed.
   */
  lemma TagAccounting(channel: nat, steps: seq<Step>)
    requires Run(Init(channel), steps) && Along(Init(channel), steps, QuietSwaps)
    ensures var s := Exec(Init(channel), steps);
            && s.core.deliveryTag ==
               Count(s.broker.sent, s.core.channelID) + Count(s.broker.failed, s.core.channelID) + |InFlight(s)|
            && (InFlight(s) == {} ==>
                  (s.core.deliveryTag == Count(s.broker.sent, s.core.channelID) <==>
                   Count(s.broker.failed, s.core.channelID) == 0))
  {
    assert InFlight(Init(channel)) == {};
    AccountedAlways(Init(channel), steps);
  }

  /** The hypothesis is needed: a swap between increment and send leaves the old epoch's tag unused. */
  lemma SwapInWindowBreaksAccounting() returns (steps: seq<Step>)
    ensures Run(Init(1), steps)
    ensures var s := Exec(Init(1), steps);
            InFlight(s) == {} && Count(s.broker.failed, 1) == 0 && s.core.channelID == 1 &&
            s.core.deliveryTag == 1 && Count(s.broker.sent, 1) == 0
  {
    var s: State;
    steps, s := Registration(Init(1), [], Init(1), 0, Single);
    steps, s := Extend(Init(1), steps, s, Swap);
    steps, s := Extend(Init(1), steps, s, SendOk(0));
  }
}
