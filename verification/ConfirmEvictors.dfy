/**
 Who evicts whom: with quiet swaps the only evictors are publishes of earlier epochs
 that clean up late.
 */
module ConfirmEvictors {
  import opened ConfirmCore
  import opened ConfirmProtocol
  import opened ConfirmSafety
  import opened ConfirmTags
  import opened ConfirmVerdicts
  import opened ConfirmEviction

  /** The calls that hold a tag of the current epoch. */
  ghost function Holders(s: State): set<nat> {
    set c | c in s.calls &&
            (s.calls[c].pc.Tagged? || (c in s.core.chans && s.calls[c].epoch == s.core.channelID))
  }

  /** They hold different tags, up to the counter. */
  ghost predicate TagsDiffer(s: State) {
    && (forall c <- Holders(s) :: s.calls[c].tag <= s.core.deliveryTag)
    && (forall c, d | c in Holders(s) && d in Holders(s) && c != d :: s.calls[c].tag != s.calls[d].tag)
  }

  predicate Deletes(pc: Pc) {
    pc.Cleaning? || pc.Dropping?
  }

  /** Registrations belong to the current epoch, and who is going to delete one has registered, now or earlier. */
  ghost predicate EpochsKnown(s: State) {
    && (forall t <- s.core.pending :: s.core.pending[t] in Holders(s))
    && (forall c <- s.calls | c in s.core.chans :: s.calls[c].epoch <= s.core.channelID)
    && (forall c <- s.calls | Deletes(s.calls[c].pc) :: c in s.core.chans)
  }

  ghost predicate HoldersInv(s: State) {
    ChannelInv(s) && SeenInv(s) && TagsDiffer(s) && EpochsKnown(s)
  }

  // ----- frames -----

  lemma ChansFrame(s: State, st: Step)
    requires PendingClean(s.core) && Enabled(s, st) && !st.RegisterCall?
    ensures Apply(s, st).core.chans.Keys == s.core.chans.Keys
  {
    if st.RouterRoute? {
      RouteEffect(s.core, st.conf.number, st.conf.ack);
    } else if st.Sweep? || st.EnsureLock? {
      CloseAllEffect(s.core);
    } else if !st.Receive? && !st.CloseOwn? {
      ChannelsUntouched(s, st);
    }
  }

  lemma CallerHolds(s: State, st: Step)
    requires Enabled(s, st) && !Environmental(st) && !st.RegisterCall?
    requires st.c in s.core.chans ==> st.c in s.calls && HasChannel(s.calls[st.c].pc)
    ensures var call := Apply(s, st).calls[st.c];
            && (call.pc.Tagged? <==> st.Increment?)
            && (st.c in s.core.chans ==> call.epoch == s.calls[st.c].epoch && call.tag == s.calls[st.c].tag)
            && (st.c in s.calls && s.calls[st.c].pc.Tagged? ==> st.Increment?)
  {
  }

  lemma CallerDeletes(s: State, st: Step)
    requires Enabled(s, st) && !Environmental(st)
    ensures Deletes(Apply(s, st).calls[st.c].pc) ==>
              st.c in s.calls && (OwnsChannel(s.calls[st.c].pc) || Deletes(s.calls[st.c].pc))
  {
  }

  /** Steps other than increment, registration and reset leave the holders and their tags alone. */
  lemma HoldersFrame(s: State, st: Step)
    requires ChannelInv(s) && Enabled(s, st) && !st.RegisterCall? && !st.Increment?
    requires Apply(s, st).core.channelID == s.core.channelID
    ensures Holders(Apply(s, st)) == Holders(s)
    ensures forall c <- Holders(s) :: Apply(s, st).calls[c].tag == s.calls[c].tag
  {
    CallFrame(s, st);
    ChansFrame(s, st);
    if Environmental(st) {
      SameHolders(s, Apply(s, st));
    } else {
      CallerHolds(s, st);
      HoldersSame(s, Apply(s, st), st.c);
    }
  }

  lemma SameHolders(s: State, s': State)
    requires s'.calls == s.calls
    requires s'.core.chans.Keys == s.core.chans.Keys && s'.core.channelID == s.core.channelID
    ensures Holders(s') == Holders(s)
  {
  }

  /** One call moves on, and keeps its tag and epoch if it has registered. */
  lemma HoldersSame(s: State, s': State, c: nat)
    requires ChannelInv(s) && c in s'.calls && s'.calls == s.calls[c := s'.calls[c]]
    requires s'.core.chans.Keys == s.core.chans.Keys && s'.core.channelID == s.core.channelID
    requires c in s.core.chans ==> s'.calls[c].epoch == s.calls[c].epoch && s'.calls[c].tag == s.calls[c].tag
    requires !s'.calls[c].pc.Tagged? && (c in s.calls ==> !s.calls[c].pc.Tagged?)
    ensures Holders(s') == Holders(s)
    ensures forall d <- Holders(s) :: s'.calls[d].tag == s.calls[d].tag
  {
  }

  lemma IncrementHolds(s: State, c: nat)
    requires ChannelInv(s) && Enabled(s, Increment(c))
    ensures Holders(Apply(s, Increment(c))) == Holders(s) + {c} && c !in Holders(s)
  {
  }

  lemma RegisterHolds(s: State, c: nat)
    requires ChannelInv(s) && Enabled(s, RegisterCall(c))
    ensures Holders(Apply(s, RegisterCall(c))) == Holders(s) && c in Holders(s)
    ensures forall d <- Holders(s) :: Apply(s, RegisterCall(c)).calls[d].tag == s.calls[d].tag
  {
  }

  lemma ResetHolds(s: State, c: nat)
    requires HoldersInv(s) && Enabled(s, EnsureLock(c)) && s.calls[c].seen != s.core.channelID
    ensures Holders(Apply(s, EnsureLock(c))) == {}
    ensures s.core.channelID < Apply(s, EnsureLock(c)).core.channelID
  {
    var s' := Apply(s, EnsureLock(c));
    ResetFindsNoneInFlight(s, c);
    ChansFrame(s, EnsureLock(c));
    assert s'.core.channelID == s.client > s.core.channelID;
    assert forall d <- s.calls :: !s.calls[d].pc.Tagged?;
  }

  // ----- what every step keeps -----

  lemma TagsDifferStep(s: State, st: Step)
    requires HoldersInv(s) && Enabled(s, st)
    ensures TagsDiffer(Apply(s, st))
  {
    if st.EnsureLock? && s.calls[st.c].seen != s.core.channelID {
      ResetHolds(s, st.c);
    } else if st.Increment? {
      IncrementHolds(s, st.c);
    } else if st.RegisterCall? {
      RegisterHolds(s, st.c);
    } else {
      CounterFrame(s, st);
      HoldersFrame(s, st);
    }
  }

  lemma PendingHolds(s: State, st: Step)
    requires HoldersInv(s) && Enabled(s, st)
    ensures var s' := Apply(s, st); forall t <- s'.core.pending :: s'.core.pending[t] in Holders(s')
  {
    if st.EnsureLock? && s.calls[st.c].seen != s.core.channelID {
      assert Apply(s, st).core.pending == map[];
    } else if st.Increment? {
      IncrementHolds(s, st.c);
    } else if st.RegisterCall? {
      RegisterHolds(s, st.c);
    } else {
      CounterFrame(s, st);
      HoldersFrame(s, st);
      PendingFrame(s, st);
    }
  }

  lemma EpochsStay(s: State, st: Step)
    requires ChannelInv(s) && Enabled(s, st) && !st.RegisterCall?
    ensures forall c <- s.core.chans :: c in Apply(s, st).calls && Apply(s, st).calls[c].epoch == s.calls[c].epoch
  {
    CallFrame(s, st);
    if !Environmental(st) {
      CallerHolds(s, st);
    }
  }

  lemma EpochAdvances(s: State, st: Step)
    requires HoldersInv(s) && Enabled(s, st)
    ensures s.core.channelID <= Apply(s, st).core.channelID
  {
    if st.EnsureLock? && s.calls[st.c].seen != s.core.channelID {
      ResetHolds(s, st.c);
    } else {
      CounterFrame(s, st);
    }
  }

  lemma OldEpochs(s: State, st: Step)
    requires HoldersInv(s) && Enabled(s, st)
    ensures var s' := Apply(s, st);
            forall c <- s'.calls | c in s'.core.chans :: s'.calls[c].epoch <= s'.core.channelID
  {
    EpochAdvances(s, st);
    if !st.RegisterCall? {
      ChansFrame(s, st);
      EpochsStay(s, st);
    }
  }

  lemma ChansGrow(s: State, st: Step)
    requires PendingClean(s.core) && Enabled(s, st)
    ensures s.core.chans.Keys <= Apply(s, st).core.chans.Keys
  {
    if !st.RegisterCall? {
      ChansFrame(s, st);
    }
  }

  lemma DeletersRegistered(s: State, st: Step)
    requires ChannelInv(s) && Enabled(s, st)
    requires forall c <- s.calls | Deletes(s.calls[c].pc) :: c in s.core.chans
    ensures var s' := Apply(s, st); forall c <- s'.calls | Deletes(s'.calls[c].pc) :: c in s'.core.chans
  {
    CallFrame(s, st);
    ChansGrow(s, st);
    if !Environmental(st) {
      CallerDeletes(s, st);
    }
  }

  lemma HoldersStep(s: State, st: Step)
    requires HoldersInv(s) && Enabled(s, st) && QuietSwaps(s, st)
    ensures HoldersInv(Apply(s, st))
  {
    ChannelStep(s, st, {});
    SeenStep(s, st);
    TagsDifferStep(s, st);
    PendingHolds(s, st);
    OldEpochs(s, st);
    DeletersRegistered(s, st);
  }

  // ----- who evicts -----

  /** A step that evicts is the late cleanup, by a call of an earlier epoch, of a registration of the current one. */
  ghost predicate EvictsLate(s: State, st: Step) {
    && Enabled(s, st)
    && (Evicted(s, st) != {} ==>
          (st.Cleanup? || st.Drop?) && s.calls[st.c].epoch < s.core.channelID && Evicted(s, st) <= Holders(s))
  }

  lemma EvictorIsLate(s: State, st: Step)
    requires HoldersInv(s) && Enabled(s, st)
    ensures EvictsLate(s, st)
  {
    if Evicted(s, st) != {} {
      var tag := s.calls[st.c].tag;
      var d := s.core.pending[tag];
      assert d in Holders(s) && s.calls[d].tag == tag && d != st.c;
      assert st.c !in Holders(s);
    }
  }

  lemma {:induction false} EvictorsFrom(s: State, steps: seq<Step>)
    requires Run(s, steps) && Along(s, steps, QuietSwaps) && HoldersInv(s)
    ensures Along(s, steps, EvictsLate)
    decreases |steps|
  {
    if steps != [] {
      EvictorIsLate(s, steps[0]);
      HoldersStep(s, steps[0]);
      EvictorsFrom(Apply(s, steps[0]), steps[1..]);
    }
  }

  /**
   Main result.  In every run with quiet swaps, a registration is never overwritten,
   and every deletion that takes another publish's registration away is the cleanup
   of a publish that registered in an earlier epoch than the current one.
   */
  lemma EvictorsAreLate(channel: nat, steps: seq<Step>)
    requires Run(Init(channel), steps) && Along(Init(channel), steps, QuietSwaps)
    ensures Along(Init(channel), steps, EvictsLate)
  {
    EvictorsFrom(Init(channel), steps);
  }
}
