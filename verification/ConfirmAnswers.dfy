/**
 Which waiting publishes can still report a verdict.  A publish needs its place in
 the map, and the one confirmation that can answer it must reach it: the broker may
 decide before the publisher listens, a router may route the confirmation before
 the publish is registered, and the channel may die before the broker decides.
 */
module ConfirmAnswers {
  import opened ConfirmCore
  import opened ConfirmProtocol
  import opened ConfirmSafety
  import opened ConfirmTags
  import opened ConfirmVerdicts
  import opened ConfirmMessages
  import opened ConfirmOrigin
  import opened ConfirmEviction

  /** The call has not reported a verdict and has none in its channel. */
  ghost predicate Silent(s: State, c: nat) {
    && c in s.calls && HasChannel(s.calls[c].pc)
    && !Says(s.calls[c].pc, true) && !Says(s.calls[c].pc, false)
    && ChanOf(s.core, c).buf == []
  }

  predicate RegisteredAt(s: State, tag: nat, c: nat) {
    tag in s.core.pending && s.core.pending[tag] == c
  }

  lemma CallerKeepsChannel(s: State, st: Step)
    requires Enabled(s, st) && !Environmental(st) && st.c in s.calls && HasChannel(s.calls[st.c].pc)
    ensures HasChannel(Apply(s, st).calls[st.c].pc)
  {
  }

  lemma StillSilent(s: State, st: Step, c: nat)
    requires ChannelInv(s) && Enabled(s, st) && Silent(s, c) && !st.Receive? && !st.RouterRoute?
    ensures Silent(Apply(s, st), c)
  {
    CallFrame(s, st);
    OtherStepsKeepBuffers(s, st);
    OtherStepsAnswerNothing(s, st);
    if !Environmental(st) && st.c == c {
      CallerKeepsChannel(s, st);
    }
  }

  /** Only a confirmation routed to the call ends its silence. */
  lemma SilentStep(s: State, st: Step, c: nat)
    requires ChannelInv(s) && Enabled(s, st) && Silent(s, c)
    requires st.RouterRoute? ==> !RegisteredAt(s, st.conf.number, c)
    ensures Silent(Apply(s, st), c)
  {
    if st.RouterRoute? {
      RouteEffect(s.core, st.conf.number, st.conf.ack);
    } else if !st.Receive? {
      StillSilent(s, st, c);
    }
  }

  // ----- evicted publishes -----

  ghost predicate Unregistered(s: State, c: nat) {
    forall t <- s.core.pending :: s.core.pending[t] != c
  }

  lemma UnregisteredStep(s: State, st: Step, c: nat)
    requires Enabled(s, st) && c in s.calls && HasChannel(s.calls[c].pc) && Unregistered(s, c)
    ensures Unregistered(Apply(s, st), c)
  {
    if !st.RegisterCall? {
      PendingFrame(s, st);
    }
  }

  lemma {:induction false} UnregisteredForever(s: State, steps: seq<Step>, c: nat)
    requires Run(s, steps) && ChannelInv(s) && Silent(s, c) && Unregistered(s, c)
    ensures Silent(Exec(s, steps), c)
    decreases |steps|
  {
    if steps != [] {
      ChannelStep(s, steps[0], {});
      SilentStep(s, steps[0], c);
      UnregisteredStep(s, steps[0], c);
      UnregisteredForever(Apply(s, steps[0]), steps[1..], c);
    }
  }

  /**
   In every run and every continuation of it, a publish evicted while it waits
   reports neither an ack nor a nack: only its time-out or its context can end the
   wait.
   */
  lemma EvictedNeverReports(channel: nat, steps: seq<Step>, c: nat, more: seq<Step>)
    requires Run(Init(channel), steps) && Run(Exec(Init(channel), steps), more)
    requires c in Exec(Init(channel), steps).calls && Waits(Exec(Init(channel), steps).calls[c].pc)
    requires c in EvictedBy(Init(channel), steps)
    ensures Silent(Exec(Exec(Init(channel), steps), more), c)
  {
    EvictionAlways(Init(channel), steps, {});
    assert {} + EvictedBy(Init(channel), steps) == EvictedBy(Init(channel), steps);
    VerdictAlways(Init(channel), steps);
    UnregisteredForever(Exec(Init(channel), steps), more, c);
  }

  // ----- confirmations that never come -----

  /** The number the call waits for, on the channel it was sent on. */
  function Awaited(call: Call): MsgNo {
    (call.sentOn, call.tag)
  }

  /** Some copy of the confirmation waits in a listener or is in a router's hands. */
  ghost predicate UnderWay(s: State, m: MsgNo)
    requires m in s.feed.verdict
  {
    m in s.feed.unread || Conf(m.0, m.1, s.feed.verdict[m]) in s.held
  }

  /** The confirmation the call waits for was decided, and every copy of it is used up. */
  ghost predicate Missed(s: State, c: nat) {
    && c in s.calls && WasSent(s.calls[c])
    && Awaited(s.calls[c]) in s.feed.verdict && !UnderWay(s, Awaited(s.calls[c]))
  }

  /** With epochs apart, a held confirmation that finds the call registered is the one it waits for. */
  lemma RoutedIsAwaited(s: State, f: Conf, c: nat)
    requires OriginInv(s) && f in s.held && RegisteredAt(s, f.number, c) && WasSent(s.calls[c])
    ensures Awaited(s.calls[c]) in s.feed.verdict && UnderWay(s, Awaited(s.calls[c]))
  {
    assert f.on == s.core.channelID == s.calls[c].epoch == s.calls[c].sentOn;
    assert s.calls[c].tag == f.number;
  }

  lemma EnvironmentMisses(s: State, st: Step, c: nat)
    requires Enabled(s, st) && Environmental(st) && Missed(s, c)
    ensures Missed(Apply(s, st), c)
  {
  }

  /** What a sent call knows about its message stays. */
  lemma CallStays(s: State, st: Step, c: nat)
    requires SentInv(s) && Enabled(s, st) && c in s.calls && WasSent(s.calls[c])
    ensures c in Apply(s, st).calls && WasSent(Apply(s, st).calls[c])
    ensures Apply(s, st).calls[c] == s.calls[c].(pc := Apply(s, st).calls[c].pc)
  {
    CallFrame(s, st);
    if !Environmental(st) && !st.SendOk? && st.c == c {
      CallerSent(s, st);
    }
  }

  lemma MissedStep(s: State, st: Step, c: nat)
    requires SentInv(s) && Enabled(s, st) && Missed(s, c)
    ensures Missed(Apply(s, st), c)
  {
    CallStays(s, st, c);
    if Environmental(st) {
      EnvironmentMisses(s, st, c);
    } else {
      CallFrame(s, st);
    }
  }

  /** Undecided, and whatever the broker decides on a dead channel goes unheard. */
  ghost predicate CutShort(s: State, c: nat) {
    && c in s.calls && WasSent(s.calls[c])
    && Awaited(s.calls[c]) !in s.feed.verdict && s.calls[c].sentOn in s.feed.dead
  }

  /** Closing the client closes its channel. */
  ghost predicate ClosedInv(s: State) {
    s.closed ==> s.client in s.feed.dead
  }

  lemma ClosedStep(s: State, st: Step)
    requires ClosedInv(s) && Enabled(s, st)
    ensures ClosedInv(Apply(s, st))
  {
    CallFrame(s, st);
    assert !Environmental(st) ==> Apply(s, st).closed == s.closed;
  }

  lemma EnvironmentCutsShort(s: State, st: Step, c: nat)
    requires HeldInv(s) && Enabled(s, st) && Environmental(st) && CutShort(s, c)
    ensures CutShort(Apply(s, st), c) || Missed(Apply(s, st), c)
  {
  }

  lemma CutShortStep(s: State, st: Step, c: nat)
    requires HeldInv(s) && SentInv(s) && Enabled(s, st) && CutShort(s, c)
    ensures CutShort(Apply(s, st), c) || Missed(Apply(s, st), c)
  {
    CallStays(s, st, c);
    if Environmental(st) {
      EnvironmentCutsShort(s, st, c);
    } else {
      CallFrame(s, st);
    }
  }

  /** The client has left the channel the call was sent on before it took as many messages as the call's tag. */
  ghost predicate Stranded(s: State, c: nat) {
    && c in s.calls && WasSent(s.calls[c]) && s.calls[c].sentOn < s.client
    && Count(s.broker.sent, s.calls[c].sentOn) < s.calls[c].tag
  }

  lemma StrandedStep(s: State, st: Step, c: nat)
    requires SentInv(s) && Enabled(s, st) && Stranded(s, c)
    ensures Stranded(Apply(s, st), c)
  {
    CallStays(s, st, c);
    CallFrame(s, st);
    CoreFrame(s, st);
  }

  lemma StrandedIsUndecided(s: State, c: nat)
    requires OwnerInv(s) && Stranded(s, c)
    ensures Awaited(s.calls[c]) !in s.feed.verdict
  {
  }

  /** The confirmation the call waits for cannot come any more. */
  ghost predicate Forsaken(s: State, c: nat) {
    Missed(s, c) || CutShort(s, c) || Stranded(s, c)
  }

  /** No confirmation can reach the call: it has lost its registration, or none is to come. */
  ghost predicate CutOff(s: State, c: nat) {
    Silent(s, c) && (Unregistered(s, c) || Forsaken(s, c))
  }

  lemma ForsakenStep(s: State, st: Step, c: nat)
    requires HeldInv(s) && SentInv(s) && Enabled(s, st) && Forsaken(s, c)
    ensures Forsaken(Apply(s, st), c)
  {
    if Missed(s, c) {
      MissedStep(s, st, c);
    } else if CutShort(s, c) {
      CutShortStep(s, st, c);
    } else {
      StrandedStep(s, st, c);
    }
  }

  lemma ForsakenNotRouted(s: State, f: Conf, c: nat)
    requires OriginInv(s) && f in s.held && Forsaken(s, c)
    ensures !RegisteredAt(s, f.number, c)
  {
    if RegisteredAt(s, f.number, c) {
      RoutedIsAwaited(s, f, c);
      if Stranded(s, c) {
        StrandedIsUndecided(s, c);
      }
      assert false;
    }
  }

  lemma CutOffStep(s: State, st: Step, c: nat)
    requires OriginInv(s) && Enabled(s, st) && CutOff(s, c)
    ensures CutOff(Apply(s, st), c)
  {
    if Unregistered(s, c) {
      SilentStep(s, st, c);
      UnregisteredStep(s, st, c);
    } else {
      if st.RouterRoute? {
        ForsakenNotRouted(s, st.conf, c);
      }
      SilentStep(s, st, c);
      ForsakenStep(s, st, c);
    }
  }

  // ----- who can still report -----

  ghost predicate ReportsAfter(s: State, c: nat, more: seq<Step>, v: bool) {
    Run(s, more) && Along(s, more, EpochsApart) && c in Exec(s, more).calls && Says(Exec(s, more).calls[c].pc, v)
  }

  /** Some continuation that keeps epochs apart makes the call report a verdict. */
  ghost predicate CanReport(s: State, c: nat) {
    exists more, v :: ReportsAfter(s, c, more, v)
  }

  lemma {:induction false} CutOffNeverReports(s: State, c: nat, more: seq<Step>, v: bool)
    requires OriginInv(s) && CutOff(s, c) && Run(s, more) && Along(s, more, EpochsApart)
    ensures !ReportsAfter(s, c, more, v)
    decreases |more|
  {
    if more != [] {
      OriginStep(s, more[0]);
      CutOffStep(s, more[0], c);
      CutOffNeverReports(Apply(s, more[0]), c, more[1..], v);
    }
  }

  lemma Earlier(s: State, st: Step, c: nat)
    requires Enabled(s, st) && EpochsApart(s, st) && CanReport(Apply(s, st), c)
    ensures CanReport(s, c)
  {
    var more, v :| ReportsAfter(Apply(s, st), c, more, v);
    assert ([st] + more)[1..] == more;
    assert ReportsAfter(s, c, [st] + more, v);
  }

  lemma AlreadyReports(s: State, c: nat, v: bool)
    requires c in s.calls && Says(s.calls[c].pc, v)
    ensures CanReport(s, c)
  {
    assert ReportsAfter(s, c, [], v);
  }

  lemma FromBuffer(s: State, c: nat)
    requires At(s, c, Sent) && ChanOf(s.core, c).buf != []
    ensures CanReport(s, c)
  {
    var s' := Apply(s, Receive(c));
    AlreadyReports(s', c, ChanOf(s.core, c).buf[0]);
    Earlier(s, Receive(c), c);
  }

  lemma FromHeld(s: State, c: nat, f: Conf)
    requires PendingClean(s.core) && At(s, c, Sent) && f in s.held && RegisteredAt(s, f.number, c)
    ensures CanReport(s, c)
  {
    RouteEffect(s.core, f.number, f.ack);
    FromBuffer(Apply(s, RouterRoute(f)), c);
    Earlier(s, RouterRoute(f), c);
  }

  /** The call waits after its send, registered in the epoch it was sent in. */
  ghost predicate InPlace(s: State, c: nat) {
    && PendingClean(s.core) && At(s, c, Sent) && RegisteredAt(s, s.calls[c].tag, c)
    && s.calls[c].sentOn == s.core.channelID
  }

  lemma FromCopy(s: State, c: nat)
    requires InPlace(s, c)
    requires Awaited(s.calls[c]) in s.feed.verdict && UnderWay(s, Awaited(s.calls[c]))
    ensures CanReport(s, c)
  {
    var call := s.calls[c];
    var conf := Conf(call.sentOn, call.tag, s.feed.verdict[Awaited(call)]);
    if conf in s.held {
      FromHeld(s, c, conf);
    } else {
      var st := RouterReceive(call.sentOn, call.tag);
      FromHeld(Apply(s, st), c, conf);
      Earlier(s, st, c);
    }
  }

  lemma FromUndecided(s: State, c: nat)
    requires InPlace(s, c) && 1 <= s.calls[c].tag <= Count(s.broker.sent, s.calls[c].sentOn)
    requires Awaited(s.calls[c]) !in s.feed.verdict
    requires s.calls[c].sentOn in s.feed.listening && s.calls[c].sentOn !in s.feed.dead
    ensures CanReport(s, c)
  {
    var st := Decide(s.calls[c].sentOn, s.calls[c].tag, true);
    FromCopy(Apply(s, st), c);
    Earlier(s, st, c);
  }

  /** The publisher listens to its channel, or the publish that reset the epoch is still to register the listener. */
  ghost predicate ListenInv(s: State) {
    s.core.channelID == 0 || s.core.channelID in s.feed.listening || exists d :: At(s, d, SetupDue)
  }

  lemma SetupDueStays(s: State, st: Step, d: nat)
    requires Enabled(s, st) && At(s, d, SetupDue) && st != Setup(d)
    ensures At(Apply(s, st), d, SetupDue)
  {
    CallFrame(s, st);
    assert !Environmental(st) ==> st.c != d;
  }

  lemma ListeningStays(s: State, st: Step)
    requires Enabled(s, st)
    ensures s.feed.listening <= Apply(s, st).feed.listening
  {
  }

  lemma ListenStep(s: State, st: Step)
    requires SeenInv(s) && ListenInv(s) && Enabled(s, st)
    ensures ListenInv(Apply(s, st))
  {
    CoreFrame(s, st);
    ListeningStays(s, st);
    if st.EnsureLock? && s.calls[st.c].seen != s.core.channelID {
      assert At(Apply(s, st), st.c, SetupDue);
    } else if st.Setup? {
      assert s.client == s.core.channelID;
    } else if d :| At(s, d, SetupDue) {
      SetupDueStays(s, st, d);
    }
  }

  /** Has found the client open and with a channel. */
  predicate PastCheck(pc: Pc) {
    pc.Ready? || Flying(pc) || pc.Sent? || pc.Dropping? || pc.Closing? || pc.Cleaning? || pc == Done(SendError)
  }

  /** There is no channel 0 and no tag 0. */
  ghost predicate PositiveInv(s: State) {
    && (forall c <- s.calls | PastCheck(s.calls[c].pc) :: s.client != 0)
    && (forall c <- s.calls | s.calls[c].pc.Tagged? :: s.calls[c].tag != 0)
    && 0 !in s.broker.sent && 0 !in s.core.pending
  }

  lemma CallerPositive(s: State, st: Step)
    requires Enabled(s, st) && !Environmental(st)
    ensures var call := Apply(s, st).calls[st.c];
            && (PastCheck(call.pc) ==>
                  || (st.Check? && s.client != 0)
                  || (st.c in s.calls && PastCheck(s.calls[st.c].pc))
                  || (st.BeginSlot? && PastCheck(s.calls[st.prev].pc)))
            && (call.pc.Tagged? ==> call.tag != 0)
  {
  }

  lemma NumbersPositive(s: State, st: Step)
    requires PositiveInv(s) && Enabled(s, st)
    ensures 0 !in Apply(s, st).broker.sent && 0 !in Apply(s, st).core.pending
  {
    if !st.RegisterCall? {
      PendingFrame(s, st);
    }
    if !st.SendOk? && !st.SendErr? {
      CoreFrame(s, st);
    }
  }

  lemma PositiveStep(s: State, st: Step)
    requires PositiveInv(s) && Enabled(s, st)
    ensures PositiveInv(Apply(s, st))
  {
    CallFrame(s, st);
    NumbersPositive(s, st);
    if !Environmental(st) {
      CallerPositive(s, st);
    }
  }

  ghost predicate ReadyInv(s: State) {
    ListenInv(s) && PositiveInv(s) && TagsBelow(s) && ClosedInv(s)
  }

  lemma {:induction false} ListensAlways(s: State, steps: seq<Step>)
    requires Run(s, steps) && Along(s, steps, EpochsApart) && OriginInv(s) && ReadyInv(s)
    ensures OriginInv(Exec(s, steps)) && ReadyInv(Exec(s, steps))
    decreases |steps|
  {
    if steps != [] {
      OriginStep(s, steps[0]);
      ListenStep(s, steps[0]);
      PositiveStep(s, steps[0]);
      TagsBelowStep(s, steps[0]);
      ClosedStep(s, steps[0]);
      ListensAlways(Apply(s, steps[0]), steps[1..]);
    }
  }

  // ----- further publishes bring the number a call waits for -----

  lemma {:induction false} Above(ids: set<nat>) returns (d: nat)
    ensures forall i <- ids :: i < d
  {
    d := 0;
    if ids != {} {
      var i :| i in ids;
      var e := Above(ids - {i});
      d := if i < e then e else i + 1;
      assert forall j <- ids :: j == i || j in ids - {i};
    }
  }

  /** A call that has read the client's channel gets ready. */
  lemma GetsReady(s: State, c: nat, d: nat)
    requires At(s, d, Read) && s.calls[d].seen == s.core.channelID && !s.closed && s.client != 0
    requires CanReport(Move(s, d, Ready), c)
    ensures CanReport(s, c)
  {
    var s1 := Apply(s, EnsureLock(d));
    assert Apply(s1, Check(d)) == Move(s, d, Ready);
    Earlier(s1, Check(d), c);
    Earlier(s, EnsureLock(d), c);
  }

  /** A new call `d` gets ready. */
  lemma Joins(s: State, c: nat, d: nat)
    requires d !in s.calls && !s.closed && s.client == s.core.channelID != 0
    requires CanReport(Put(s, d, Call(Single, Ready, s.client, 0, 0, 0, 0, 0)), c)
    ensures CanReport(s, c)
  {
    var s1 := Apply(s, Begin(d, Single));
    var s2 := Apply(s1, EnsureRead(d));
    assert Move(s2, d, Ready) == Put(s, d, Call(Single, Ready, s.client, 0, 0, 0, 0, 0));
    GetsReady(s2, c, d);
    Earlier(s1, EnsureRead(d), c);
    Earlier(s, Begin(d, Single), c);
  }

  /** A ready call takes the next tag and sends. */
  ghost function Publishes(s: State, d: nat): State
    requires d in s.calls
  {
    var tag := s.core.deliveryTag + 1;
    AfterSendOk(Put(s.(core := Register(s.core.(deliveryTag := tag), tag, d)), d,
                    s.calls[d].(pc := Registered, tag := tag, epoch := s.core.channelID)), d)
  }

  lemma RegistersAndSends(s: State, c: nat, d: nat)
    requires At(s, d, Tagged) && (forall f <- s.held :: f.on == s.core.channelID) && s.client !in s.feed.dead
    requires CanReport(AfterSendOk(Apply(s, RegisterCall(d)), d), c)
    ensures CanReport(s, c)
  {
    Earlier(Apply(s, RegisterCall(d)), SendOk(d), c);
    Earlier(s, RegisterCall(d), c);
  }

  lemma Sends(s: State, c: nat, d: nat)
    requires At(s, d, Ready) && (forall f <- s.held :: f.on == s.core.channelID) && s.client !in s.feed.dead
    requires CanReport(Publishes(s, d), c)
    ensures CanReport(s, c)
  {
    var s1 := Apply(s, Increment(d));
    assert AfterSendOk(Apply(s1, RegisterCall(d)), d) == Publishes(s, d);
    RegistersAndSends(s1, c, d);
    Earlier(s, Increment(d), c);
  }

  /** The call waits on the client's channel, listened to, for a number not decided yet. */
  ghost predicate CanWait(s: State, c: nat) {
    && InPlace(s, c) && s.client == s.core.channelID != 0 && !s.closed && s.client !in s.feed.dead
    && 1 <= s.calls[c].tag <= s.core.deliveryTag && s.calls[c].sentOn in s.feed.listening
    && Awaited(s.calls[c]) !in s.feed.verdict
    && (forall f <- s.held :: f.on == s.core.channelID)
  }

  lemma PublishesKeeps(s: State, c: nat, d: nat)
    requires CanWait(s, c) && d !in s.calls && d !in s.core.chans
    ensures var s' := Publishes(Put(s, d, Call(Single, Ready, s.client, 0, 0, 0, 0, 0)), d);
            && CanWait(s', c) && s'.calls[c] == s.calls[c]
            && Count(s'.broker.sent, s.client) == Count(s.broker.sent, s.client) + 1
  {
    var tag := s.core.deliveryTag + 1;
    RegisterKeepsClean(s.core.(deliveryTag := tag), tag, d);
  }

  lemma {:induction false} FromMoreSends(s: State, c: nat)
    requires CanWait(s, c)
    ensures CanReport(s, c)
    decreases s.calls[c].tag - Count(s.broker.sent, s.client)
  {
    if s.calls[c].tag <= Count(s.broker.sent, s.client) {
      FromUndecided(s, c);
    } else {
      var d := Above(s.calls.Keys + s.core.chans.Keys);
      var ready := Put(s, d, Call(Single, Ready, s.client, 0, 0, 0, 0, 0));
      PublishesKeeps(s, c, d);
      FromMoreSends(Publishes(ready, d), c);
      Sends(ready, c, d);
      Joins(s, c, d);
    }
  }

  /** Tags in use are not ahead of the counter. */
  ghost predicate TagsBelow(s: State) {
    && (forall t <- s.core.pending :: t <= s.core.deliveryTag)
    && (forall c <- s.calls | s.calls[c].pc.Tagged? :: s.calls[c].tag <= s.core.deliveryTag)
  }

  lemma CallerTagBelow(s: State, st: Step)
    requires Enabled(s, st) && !Environmental(st)
    ensures Apply(s, st).calls[st.c].pc.Tagged? <==> st.Increment?
    ensures st.Increment? ==> Apply(s, st).calls[st.c].tag == Apply(s, st).core.deliveryTag == s.core.deliveryTag + 1
  {
  }

  lemma TagsBelowStep(s: State, st: Step)
    requires SeenInv(s) && TagsBelow(s) && Enabled(s, st)
    ensures TagsBelow(Apply(s, st))
  {
    CallFrame(s, st);
    CoreFrame(s, st);
    if !Environmental(st) {
      CallerTagBelow(s, st);
    }
    if st.EnsureLock? && s.calls[st.c].seen != s.core.channelID {
      ResetFindsNoneInFlight(s, st.c);
      assert forall c <- s.calls :: !s.calls[c].pc.Tagged?;
    } else if !st.RegisterCall? {
      PendingFrame(s, st);
    }
  }

  /**
   A verdict is in the call's channel; or the call is registered, and the confirmation
   it waits for is under way, or its channel lives and the number was or can still be
   given out.
   */
  ghost predicate Answerable(s: State, c: nat)
    requires c in s.calls
  {
    var call := s.calls[c];
    || ChanOf(s.core, c).buf != []
    || (&& RegisteredAt(s, call.tag, c)
        && (if Awaited(call) in s.feed.verdict then UnderWay(s, Awaited(call))
            else && call.sentOn !in s.feed.dead
                 && (call.tag <= Count(s.broker.sent, call.sentOn) || call.sentOn == s.client)))
  }

  lemma UnanswerableIsCutOff(s: State, c: nat)
    requires OriginInv(s) && At(s, c, Sent) && !Answerable(s, c)
    ensures CutOff(s, c)
  {
    var call := s.calls[c];
    if !RegisteredAt(s, call.tag, c) {
      assert Unregistered(s, c);
    } else {
      RegisteredInPlace(s, c);
      assert Missed(s, c) || CutShort(s, c) || Stranded(s, c);
    }
  }

  lemma RegisteredInPlace(s: State, c: nat)
    requires OriginInv(s) && At(s, c, Sent) && RegisteredAt(s, s.calls[c].tag, c)
    ensures InPlace(s, c) && WasSent(s.calls[c])
    ensures forall f <- s.held :: f.on == s.core.channelID
    ensures s.core.channelID <= s.client
  {
    assert s.calls[c].sentOn == s.calls[c].epoch == s.core.channelID;
  }

  /** With a listener in place: the number is decided next, or further publishes bring it first. */
  lemma ListenedCanReport(s: State, c: nat)
    requires InPlace(s, c) && (forall f <- s.held :: f.on == s.core.channelID)
    requires 1 <= s.calls[c].tag <= s.core.deliveryTag && s.core.channelID != 0
    requires Awaited(s.calls[c]) !in s.feed.verdict
    requires s.calls[c].sentOn in s.feed.listening && s.calls[c].sentOn !in s.feed.dead
    requires s.calls[c].tag <= Count(s.broker.sent, s.calls[c].sentOn) || (s.calls[c].sentOn == s.client && !s.closed)
    ensures CanReport(s, c)
  {
    if s.calls[c].tag <= Count(s.broker.sent, s.calls[c].sentOn) {
      FromUndecided(s, c);
    } else {
      FromMoreSends(s, c);
    }
  }

  lemma UndecidedCanReport(s: State, c: nat)
    requires InPlace(s, c) && SeenInv(s) && ReadyInv(s) && (forall f <- s.held :: f.on == s.core.channelID)
    requires Awaited(s.calls[c]) !in s.feed.verdict && s.core.channelID != 0 && s.core.channelID !in s.feed.dead
    requires s.calls[c].tag <= Count(s.broker.sent, s.calls[c].sentOn) || s.calls[c].sentOn == s.client
    ensures CanReport(s, c)
  {
    assert s.calls[c].tag != 0;
    if s.core.channelID in s.feed.listening {
      ListenedCanReport(s, c);
    } else {
      var d :| At(s, d, SetupDue);
      assert s.client == s.core.channelID;
      var s' := Apply(s, Setup(d));
      assert s'.core == s.core && s'.calls[c] == s.calls[c];
      ListenedCanReport(s', c);
      Earlier(s, Setup(d), c);
    }
  }

  lemma AnswerableCanReport(s: State, c: nat)
    requires OriginInv(s) && ReadyInv(s) && At(s, c, Sent) && Answerable(s, c)
    ensures CanReport(s, c)
  {
    if ChanOf(s.core, c).buf != [] {
      FromBuffer(s, c);
    } else {
      RegisteredInPlace(s, c);
      if Awaited(s.calls[c]) in s.feed.verdict {
        FromCopy(s, c);
      } else {
        SentOnAChannel(s, c);
        UndecidedCanReport(s, c);
      }
    }
  }

  lemma SentOnAChannel(s: State, c: nat)
    requires SentInv(s) && OwnersSent(s) && PositiveInv(s) && At(s, c, Sent)
    ensures s.calls[c].sentOn != 0
  {
    assert WasSent(s.calls[c]);
    assert (s.calls[c].sentOn, s.calls[c].number) in s.broker.owner;
  }

  /**
   Main result.  In every run that keeps epochs apart, a publish that waits after its
   send can still report a verdict if and only if it is answerable.
   */
  lemma CanReportIffAnswerable(channel: nat, steps: seq<Step>, c: nat)
    requires Run(Init(channel), steps) && Along(Init(channel), steps, EpochsApart)
    requires At(Exec(Init(channel), steps), c, Sent)
    ensures CanReport(Exec(Init(channel), steps), c) <==> Answerable(Exec(Init(channel), steps), c)
  {
    ListensAlways(Init(channel), steps);
    var s := Exec(Init(channel), steps);
    if Answerable(s, c) {
      AnswerableCanReport(s, c);
    } else {
      UnanswerableIsCutOff(s, c);
      forall more, v | Run(s, more) && Along(s, more, EpochsApart)
        ensures !ReportsAfter(s, c, more, v)
      {
        CutOffNeverReports(s, c, more, v);
      }
    }
  }
}
