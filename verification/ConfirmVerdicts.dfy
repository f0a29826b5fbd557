/**
 Over every interleaving: no publish reports a verdict that the broker did not
 give, on a channel then listened to, to some message carrying the publish's own
 delivery tag.
 */
module ConfirmVerdicts {
  import opened ConfirmCore
  import opened ConfirmProtocol
  import opened ConfirmSafety

  /** The broker gave verdict `v` to the message numbered with this call's tag, on the channel that answered it. */
  ghost predicate Backed(s: State, c: nat, v: bool) {
    && c in s.calls && c in s.source
    && (s.source[c], s.calls[c].tag) in s.feed.verdict
    && s.feed.verdict[(s.source[c], s.calls[c].tag)] == v
    && (s.source[c], s.calls[c].tag) in s.feed.heard
  }

  ghost predicate HeldInv(s: State) {
    && (forall m <- s.feed.unread :: m in s.feed.verdict && m in s.feed.heard)
    && (forall f <- s.held ::
          && (f.on, f.number) in s.feed.verdict && s.feed.verdict[(f.on, f.number)] == f.ack
          && (f.on, f.number) in s.feed.heard)
  }

  ghost predicate BufferInv(s: State) {
    && (forall c <- s.core.chans ::
          |s.core.chans[c].buf| <= 1 && (s.core.chans[c].buf != [] ==> Backed(s, c, s.core.chans[c].buf[0])))
    && (forall c <- s.source :: c in s.core.chans && !s.core.chans[c].open)
  }

  predicate Says(pc: Pc, v: bool) {
    var o := if v then Acked else Nacked;
    pc == Done(o) || pc == Cleaning(o)
  }

  ghost predicate AnswerInv(s: State) {
    && (forall c <- s.calls | Says(s.calls[c].pc, true) :: Backed(s, c, true))
    && (forall c <- s.calls | Says(s.calls[c].pc, false) :: Backed(s, c, false))
  }

  ghost predicate VerdictInv(s: State) {
    ChannelInv(s) && HeldInv(s) && BufferInv(s) && AnswerInv(s)
  }

  /** Nothing a step may rely on is lost: verdicts, sources and tags of calls with a source only grow. */
  ghost predicate Keeps(s: State, s': State) {
    && (forall m <- s.feed.verdict :: m in s'.feed.verdict && s'.feed.verdict[m] == s.feed.verdict[m])
    && s.feed.heard <= s'.feed.heard
    && (forall c <- s.source :: c in s'.source && s'.source[c] == s.source[c])
    && (forall c <- s.source | c in s.calls :: c in s'.calls && s'.calls[c].tag == s.calls[c].tag)
  }

  lemma BackedStays(s: State, s': State, c: nat, v: bool)
    requires Keeps(s, s') && Backed(s, c, v)
    ensures Backed(s', c, v)
  {
  }

  lemma CallerTag(s: State, st: Step)
    requires Enabled(s, st) && !Environmental(st) && st.c in s.calls && HasChannel(s.calls[st.c].pc)
    ensures Apply(s, st).calls[st.c].tag == s.calls[st.c].tag
  {
  }

  lemma EnvironmentKeeps(s: State, st: Step)
    requires PendingClean(s.core) && BufferInv(s) && Enabled(s, st) && Environmental(st)
    ensures Keeps(s, Apply(s, st))
  {
  }

  lemma KeepsStep(s: State, st: Step)
    requires VerdictInv(s) && Enabled(s, st)
    ensures Keeps(s, Apply(s, st))
  {
    if Environmental(st) {
      EnvironmentKeeps(s, st);
    } else {
      CallFrame(s, st);
      if st.c in s.source {
        assert st.c in s.core.chans;
        CallerTag(s, st);
      }
    }
  }

  /** What backs a verdict goes on backing it. */
  ghost predicate AllStayBacked(s: State, s': State) {
    forall d, v | Backed(s, d, v) :: Backed(s', d, v)
  }

  lemma KeptBacked(s: State, s': State)
    requires Keeps(s, s')
    ensures AllStayBacked(s, s')
  {
    forall d, v | Backed(s, d, v)
      ensures Backed(s', d, v)
    {
      BackedStays(s, s', d, v);
    }
  }

  /** A call takes the verdict out of its channel, and reports it. */
  lemma ReceiveKeepsBuffers(s: State, s': State, c: nat)
    requires ChannelInv(s) && BufferInv(s) && AllStayBacked(s, s') && s'.source == s.source
    requires c in s.core.chans && |s.core.chans[c].buf| <= 1
    requires s'.core.chans == s.core.chans
             || s'.core.chans == s.core.chans[c := s.core.chans[c].(buf := [])]
    ensures BufferInv(s')
  {
    forall d <- s'.core.chans | s'.core.chans[d].buf != []
      ensures Backed(s', d, s'.core.chans[d].buf[0])
    {
      assert Backed(s, d, s.core.chans[d].buf[0]);
    }
  }

  lemma AnswerFromBuffer(s: State, c: nat, v: bool)
    requires BufferInv(s) && Enabled(s, Receive(c)) && Says(Apply(s, Receive(c)).calls[c].pc, v)
    ensures Backed(s, c, v)
  {
  }

  lemma OneAnswersMore(s: State, s': State, c: nat)
    requires AnswerInv(s) && AllStayBacked(s, s')
    requires c in s'.calls && s'.calls == s.calls[c := s'.calls[c]]
    requires forall v | Says(s'.calls[c].pc, v) :: Backed(s, c, v)
    ensures AnswerInv(s')
  {
    forall d <- s'.calls, v | Says(s'.calls[d].pc, v)
      ensures Backed(s', d, v)
    {
      assert Backed(s, d, v);
    }
  }

  lemma ReceiveAnswers(s: State, c: nat)
    requires VerdictInv(s) && Enabled(s, Receive(c)) && AllStayBacked(s, Apply(s, Receive(c)))
    ensures AnswerInv(Apply(s, Receive(c)))
  {
    CallFrame(s, Receive(c));
    forall v | Says(Apply(s, Receive(c)).calls[c].pc, v)
      ensures Backed(s, c, v)
    {
      AnswerFromBuffer(s, c, v);
    }
    OneAnswersMore(s, Apply(s, Receive(c)), c);
  }

  lemma ReceiveKeepsVerdicts(s: State, c: nat)
    requires VerdictInv(s) && Enabled(s, Receive(c)) && AllStayBacked(s, Apply(s, Receive(c)))
    ensures BufferInv(Apply(s, Receive(c))) && AnswerInv(Apply(s, Receive(c)))
  {
    assert c in s.core.chans;
    assert s.core.chans[c].buf != [] ==> s.core.chans[c].buf[1..] == [];
    ReceiveKeepsBuffers(s, Apply(s, Receive(c)), c);
    ReceiveAnswers(s, c);
  }

  lemma RouteKeepsVerdicts(s: State, f: Conf)
    requires VerdictInv(s) && Enabled(s, RouterRoute(f)) && AllStayBacked(s, Apply(s, RouterRoute(f)))
    ensures BufferInv(Apply(s, RouterRoute(f))) && AnswerInv(Apply(s, RouterRoute(f)))
  {
    RouteEffect(s.core, f.number, f.ack);
    if f.number in s.core.pending {
      assert Backed(Apply(s, RouterRoute(f)), s.core.pending[f.number], f.ack);
    }
  }

  /** No value is put into a channel, none is reopened, and new ones are open and empty. */
  ghost predicate BuffersKept(s: State, s': State) {
    && s'.source == s.source
    && (forall c <- s.core.chans :: c in s'.core.chans && s'.core.chans[c].buf == s.core.chans[c].buf)
    && (forall c <- s.core.chans :: s'.core.chans[c].open ==> s.core.chans[c].open)
    && (forall c <- s'.core.chans | c !in s.core.chans :: s'.core.chans[c].open && s'.core.chans[c].buf == [])
  }

  lemma ClosingKeepsBuffers(s: State, st: Step)
    requires ChannelInv(s) && Enabled(s, st) && (st.Sweep? || st.EnsureLock?)
    ensures BuffersKept(s, Apply(s, st))
  {
    CloseAllEffect(s.core);
  }

  lemma RegisteringKeepsBuffers(s: State, st: Step)
    requires ChannelInv(s) && Enabled(s, st) && (st.RegisterCall? || st.CloseOwn?)
    ensures BuffersKept(s, Apply(s, st))
  {
    assert st.RegisterCall? ==> st.c !in s.core.chans;
  }

  lemma ChannelsUntouched(s: State, st: Step)
    requires Enabled(s, st) && !st.Receive? && !st.RouterRoute? && !st.Sweep? && !st.EnsureLock?
    requires !st.RegisterCall? && !st.CloseOwn?
    ensures Apply(s, st).core.chans == s.core.chans && Apply(s, st).source == s.source
  {
    if Environmental(st) {
      assert Apply(s, st).core == s.core && Apply(s, st).source == s.source;
    } else {
      CallFrame(s, st);
      CallerLeavesChannels(s, st);
    }
  }

  lemma CallerLeavesChannels(s: State, st: Step)
    requires Enabled(s, st) && !Environmental(st) && !st.Receive? && !st.EnsureLock?
    requires !st.RegisterCall? && !st.CloseOwn?
    ensures Apply(s, st).core.chans == s.core.chans
  {
  }

  /** Steps other than routing and receiving put no value into a channel and report no verdict. */
  lemma OtherStepsKeepBuffers(s: State, st: Step)
    requires ChannelInv(s) && Enabled(s, st) && !st.Receive? && !st.RouterRoute?
    ensures BuffersKept(s, Apply(s, st))
  {
    if st.Sweep? || st.EnsureLock? {
      ClosingKeepsBuffers(s, st);
    } else if st.RegisterCall? || st.CloseOwn? {
      RegisteringKeepsBuffers(s, st);
    } else {
      ChannelsUntouched(s, st);
    }
  }

  lemma CallerAnswers(s: State, st: Step, v: bool)
    requires Enabled(s, st) && !Environmental(st) && !st.Receive?
    ensures Says(Apply(s, st).calls[st.c].pc, v) ==> st.c in s.calls && Says(s.calls[st.c].pc, v)
  {
  }

  lemma OtherStepsAnswerNothing(s: State, st: Step)
    requires Enabled(s, st) && !st.Receive?
    ensures var s' := Apply(s, st);
            forall c, v | c in s'.calls && Says(s'.calls[c].pc, v) :: c in s.calls && Says(s.calls[c].pc, v)
  {
    CallFrame(s, st);
    if !Environmental(st) {
      CallerAnswers(s, st, true);
      CallerAnswers(s, st, false);
    }
  }

  lemma HeldStep(s: State, st: Step)
    requires HeldInv(s) && Enabled(s, st) && Keeps(s, Apply(s, st))
    ensures HeldInv(Apply(s, st))
  {
    if Environmental(st) {
      HeldOutside(s, st);
    } else {
      CallFrame(s, st);
    }
  }

  lemma HeldOutside(s: State, st: Step)
    requires HeldInv(s) && Enabled(s, st) && Environmental(st) && Keeps(s, Apply(s, st))
    ensures HeldInv(Apply(s, st))
  {
    if !st.RouterReceive? && !st.RouterRoute? && !st.Decide? {
      assert Apply(s, st).held == s.held && Apply(s, st).feed.unread == s.feed.unread;
    }
  }

  lemma BuffersStayBacked(s: State, s': State)
    requires BufferInv(s) && AllStayBacked(s, s') && BuffersKept(s, s')
    ensures BufferInv(s')
  {
    forall c <- s'.core.chans | s'.core.chans[c].buf != []
      ensures Backed(s', c, s'.core.chans[c].buf[0])
    {
      assert Backed(s, c, s.core.chans[c].buf[0]);
    }
  }

  lemma VerdictStep(s: State, st: Step)
    requires VerdictInv(s) && Enabled(s, st)
    ensures VerdictInv(Apply(s, st))
  {
    var s' := Apply(s, st);
    ChannelStep(s, st, {});
    KeepsStep(s, st);
    HeldStep(s, st);
    KeptBacked(s, s');
    if st.Receive? {
      ReceiveKeepsVerdicts(s, st.c);
    } else if st.RouterRoute? {
      RouteKeepsVerdicts(s, st.conf);
    } else {
      OtherStepsKeepBuffers(s, st);
      BuffersStayBacked(s, s');
      OtherStepsAnswerNothing(s, st);
    }
  }

  lemma {:induction false} VerdictAlways(s: State, steps: seq<Step>)
    requires Run(s, steps) && VerdictInv(s)
    ensures VerdictInv(Exec(s, steps))
    decreases |steps|
  {
    if steps != [] {
      VerdictStep(s, steps[0]);
      VerdictAlways(Apply(s, steps[0]), steps[1..]);
    }
  }

  /**
   In every run a publish returns nil only if the broker acked, and
   ErrPublishNotConfirmed only if the broker nacked, the message that carries the
   publish's own delivery tag as its number on some channel, at a time when the
   publisher listened to that channel.
   */
  lemma NoInventedVerdict(channel: nat, steps: seq<Step>, c: nat)
    requires Run(Init(channel), steps)
    requires c in Exec(Init(channel), steps).calls
    ensures var s := Exec(Init(channel), steps);
            && (s.calls[c].pc == Done(Acked) ==> Backed(s, c, true))
            && (s.calls[c].pc == Done(Nacked) ==> Backed(s, c, false))
  {
    VerdictAlways(Init(channel), steps);
  }
}
