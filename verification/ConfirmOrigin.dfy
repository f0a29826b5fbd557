/**
 Where a reported verdict comes from: when epochs are kept apart, it is the
 broker's verdict on the message that has the publish's delivery tag as its number
 on the very channel the publish was sent on.
 */
module ConfirmOrigin {
  import opened ConfirmCore
  import opened ConfirmProtocol
  import opened ConfirmSafety
  import opened ConfirmTags
  import opened ConfirmVerdicts
  import opened ConfirmMessages

  /**
   Scheduling hypotheses: swaps are quiet, and the old epoch's router is gone
   before the first registration of the new one.  Between a reset and that
   registration it may still receive and route what it likes, as it does while the
   reset waits for it to stop.
   */
  ghost predicate EpochsApart(s: State, st: Step) {
    && QuietSwaps(s, st)
    && (st.RegisterCall? ==> forall f <- s.held :: f.on == s.core.channelID)
    && (st.RouterReceive? && s.core.pending != map[] ==> st.on == s.core.channelID)
  }

  /** Confirmations at hand while anyone waits, and the calls they can reach, belong to the current epoch. */
  ghost predicate EpochInv(s: State) {
    && (s.core.pending != map[] ==> forall f <- s.held :: f.on == s.core.channelID)
    && (forall t <- s.core.pending ::
          s.core.pending[t] in s.calls && s.calls[s.core.pending[t]].epoch == s.core.channelID)
    && (forall c <- s.source :: c in s.core.chans && c in s.calls && s.source[c] == s.calls[c].epoch)
  }

  ghost predicate RegisteredInv(s: State) {
    forall c <- s.calls | s.calls[c].pc.Registered? :: s.calls[c].epoch == s.core.channelID
  }

  /** A message was sent on the channel of the epoch its publish registered in. */
  ghost predicate HomeInv(s: State) {
    forall c <- s.calls | WasSent(s.calls[c]) :: s.calls[c].sentOn == s.calls[c].epoch
  }

  ghost predicate OriginInv(s: State) {
    && SeenInv(s) && VerdictInv(s)
    && RegisteredInv(s) && EpochInv(s) && SentInv(s) && OwnerInv(s) && HomeInv(s)
  }

  // ----- epochs -----

  lemma CallerRegistered(s: State, st: Step)
    requires Enabled(s, st) && !Environmental(st)
    ensures Apply(s, st).calls[st.c].pc.Registered? <==> st.RegisterCall?
    ensures st.RegisterCall? ==> Apply(s, st).calls[st.c].epoch == s.core.channelID
  {
  }

  lemma RegisteredStep(s: State, st: Step)
    requires SeenInv(s) && RegisteredInv(s) && Enabled(s, st)
    ensures RegisteredInv(Apply(s, st))
  {
    CallFrame(s, st);
    CoreFrame(s, st);
    if st.EnsureLock? && s.calls[st.c].seen != s.core.channelID {
      ResetFindsNoneInFlight(s, st.c);
      assert forall c <- s.calls :: !s.calls[c].pc.Registered?;
    } else if !Environmental(st) {
      CallerRegistered(s, st);
    }
  }

  /** Steps that neither reset, register nor route leave the epoch bookkeeping alone. */
  lemma EpochFrame(s: State, st: Step)
    requires Enabled(s, st) && !st.EnsureLock? && !st.RegisterCall? && !st.RouterRoute? && !st.Sweep?
    ensures var s' := Apply(s, st);
            && s'.source == s.source
            && s'.core.channelID == s.core.channelID
            && (forall t <- s'.core.pending :: t in s.core.pending && s'.core.pending[t] == s.core.pending[t])
            && s.core.chans.Keys <= s'.core.chans.Keys
  {
  }

  lemma CallerEpoch(s: State, st: Step)
    requires Enabled(s, st) && !Environmental(st) && !st.RegisterCall? && st.c in s.calls
    ensures Apply(s, st).calls[st.c].epoch == s.calls[st.c].epoch
  {
  }

  lemma ResetKeepsEpochs(s: State, st: Step)
    requires PendingClean(s.core) && EpochInv(s) && Enabled(s, st) && (st.EnsureLock? || st.Sweep?)
    ensures EpochInv(Apply(s, st))
  {
  }

  lemma RegisterKeepsEpochs(s: State, c: nat)
    requires ChannelInv(s) && EpochInv(s) && Enabled(s, RegisterCall(c)) && EpochsApart(s, RegisterCall(c))
    ensures EpochInv(Apply(s, RegisterCall(c)))
  {
  }

  lemma RouteKeepsEpochs(s: State, f: Conf)
    requires PendingClean(s.core) && EpochInv(s) && Enabled(s, RouterRoute(f))
    ensures EpochInv(Apply(s, RouterRoute(f)))
  {
    RouteEffect(s.core, f.number, f.ack);
  }

  lemma HeldKeepsEpochs(s: State, st: Step)
    requires EpochInv(s) && Enabled(s, st) && EpochsApart(s, st) && !st.EnsureLock?
    requires !st.RegisterCall? && !st.RouterRoute? && !st.Sweep?
    ensures var s' := Apply(s, st);
            s'.core.pending != map[] ==> forall f <- s'.held :: f.on == s'.core.channelID
  {
    EpochFrame(s, st);
    if !st.RouterReceive? {
      CallFrame(s, st);
      assert Apply(s, st).held == s.held;
    }
  }

  lemma OthersKeepEpochs(s: State, st: Step)
    requires ChannelInv(s) && EpochInv(s) && Enabled(s, st) && EpochsApart(s, st)
    requires !st.EnsureLock? && !st.RegisterCall? && !st.RouterRoute? && !st.Sweep?
    ensures EpochInv(Apply(s, st))
  {
    CallsKeepEpochs(s, st);
    EpochFrame(s, st);
    HeldKeepsEpochs(s, st);
  }

  lemma CallsKeepEpochs(s: State, st: Step)
    requires Enabled(s, st) && !st.RegisterCall?
    ensures forall c <- s.calls :: c in Apply(s, st).calls && Apply(s, st).calls[c].epoch == s.calls[c].epoch
  {
    CallFrame(s, st);
    if !Environmental(st) && st.c in s.calls {
      CallerEpoch(s, st);
    }
  }

  lemma EpochStep(s: State, st: Step)
    requires ChannelInv(s) && EpochInv(s) && Enabled(s, st) && EpochsApart(s, st)
    ensures EpochInv(Apply(s, st))
  {
    match st
    case EnsureLock(c) => ResetKeepsEpochs(s, st);
    case Sweep(_) => ResetKeepsEpochs(s, st);
    case RegisterCall(c) => RegisterKeepsEpochs(s, c);
    case RouterRoute(f) => RouteKeepsEpochs(s, f);
    case _ => OthersKeepEpochs(s, st);
  }

  lemma HomeStep(s: State, st: Step)
    requires SeenInv(s) && RegisteredInv(s) && SentInv(s) && HomeInv(s) && Enabled(s, st)
    ensures HomeInv(Apply(s, st))
  {
    CallFrame(s, st);
    if st.SendOk? {
      assert s.core.channelID == s.client;
    } else if !Environmental(st) {
      CallerSent(s, st);
    }
  }

  lemma OriginStep(s: State, st: Step)
    requires OriginInv(s) && Enabled(s, st) && EpochsApart(s, st)
    ensures OriginInv(Apply(s, st))
  {
    SeenStep(s, st);
    VerdictStep(s, st);
    RegisteredStep(s, st);
    EpochStep(s, st);
    SentStep(s, st);
    HomeStep(s, st);
  }

  lemma {:induction false} OriginAlways(s: State, steps: seq<Step>)
    requires Run(s, steps) && Along(s, steps, EpochsApart) && OriginInv(s)
    ensures OriginInv(Exec(s, steps))
    decreases |steps|
  {
    if steps != [] {
      OriginStep(s, steps[0]);
      OriginAlways(Apply(s, steps[0]), steps[1..]);
    }
  }

  // ----- the origin of a verdict -----

  /**
   Call `c`'s answer `v` is the verdict on the message `shift` places after its own
   on the same channel, which is its own message exactly when `shift` is zero.
   */
  ghost predicate ReportsVerdictAt(s: State, c: nat, v: bool, shift: int)
    requires c in s.calls
  {
    var call := s.calls[c];
    && 1 <= call.number && 1 <= call.number + shift
    && var own, answering := (call.sentOn, call.number), (call.sentOn, call.number + shift);
       && own in s.broker.owner && s.broker.owner[own] == c
       && answering in s.feed.verdict && s.feed.verdict[answering] == v && answering in s.feed.heard
       && answering in s.broker.owner
       && (s.broker.owner[answering] == c <==> shift == 0)
       && (shift == 0 ==> OwnVerdict(s, c, v))
  }

  lemma VerdictOrigin(s: State, c: nat, v: bool)
    requires EpochInv(s) && SentInv(s) && OwnerInv(s) && HomeInv(s)
    requires Backed(s, c, v) && Says(s.calls[c].pc, v)
    ensures ReportsVerdictAt(s, c, v, s.calls[c].tag - s.calls[c].number)
  {
    var call := s.calls[c];
    assert WasSent(call);
    assert s.source[c] == call.epoch == call.sentOn;
    AnswerOwner(s, c, v);
  }

  /**
   In every run that keeps epochs apart, across any number of reconnects and in
   whatever order the publishes send, a reported verdict is the broker's verdict on
   the message numbered with the publish's tag on the channel it was sent on; it is
   the publish's own message exactly when its tag is the number the broker gave it.
   */
  lemma VerdictOfTag(channel: nat, steps: seq<Step>, c: nat, v: bool)
    requires Run(Init(channel), steps) && Along(Init(channel), steps, EpochsApart)
    requires c in Exec(Init(channel), steps).calls
    requires Exec(Init(channel), steps).calls[c].pc == Done(if v then Acked else Nacked)
    ensures var s := Exec(Init(channel), steps);
            ReportsVerdictAt(s, c, v, s.calls[c].tag - s.calls[c].number)
  {
    OriginAlways(Init(channel), steps);
    var s := Exec(Init(channel), steps);
    assert Says(s.calls[c].pc, v);
    assert Backed(s, c, v);
    VerdictOrigin(s, c, v);
  }
}
