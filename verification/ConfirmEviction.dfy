/**
 Which waiting publishes keep their place in the map.  Registrations are deleted and
 overwritten by tag, not by owner, and tags start again with every epoch, so one
 publish can take another's registration away.
 */
module ConfirmEviction {
  import opened ConfirmCore
  import opened ConfirmProtocol
  import opened ConfirmSafety

  predicate Waits(pc: Pc) {
    pc.Registered? || pc.Sent?
  }

  /** A confirmation with its tag would reach the call, or its result channel is closed and wakes it. */
  ghost predicate HoldsPlace(s: State, c: nat)
    requires c in s.calls
  {
    (s.calls[c].tag in s.core.pending && s.core.pending[s.calls[c].tag] == c) || !ChanOf(s.core, c).open
  }

  /** The registration of another call that a step deletes or overwrites, its channel left open. */
  ghost function Evicted(s: State, st: Step): set<nat>
    requires Enabled(s, st)
  {
    match st
    case RegisterCall(c) => Holder(s.core.pending, s.calls[c].tag) - {c}
    case Cleanup(c) => Holder(s.core.pending, s.calls[c].tag) - {c}
    case Drop(c) => Holder(s.core.pending, s.calls[c].tag) - {c}
    case _ => {}
  }

  function Holder(pending: map<nat, nat>, tag: nat): set<nat> {
    if tag in pending then {pending[tag]} else {}
  }

  /** A waiting call has its place unless it was evicted; then its channel is open and nowhere in the map. */
  ghost predicate EvictionInv(s: State, gone: set<nat>) {
    && gone <= s.core.chans.Keys
    && (forall c <- s.calls | Waits(s.calls[c].pc) :: c !in gone ==> HoldsPlace(s, c))
    && (forall c <- s.calls | Waits(s.calls[c].pc) :: c in gone ==>
          ChanOf(s.core, c).open && forall t <- s.core.pending :: s.core.pending[t] != c)
  }

  /** Only a registration puts anything into the map. */
  lemma PendingFrame(s: State, st: Step)
    requires Enabled(s, st) && !st.RegisterCall?
    ensures var pending' := Apply(s, st).core.pending;
            forall t <- pending' :: t in s.core.pending && pending'[t] == s.core.pending[t]
  {
    if Environmental(st) {
      assert !st.RouterRoute? && !st.Sweep? ==> Apply(s, st).core == s.core;
    } else {
      CallerPending(s, st);
    }
  }

  lemma CallerPending(s: State, st: Step)
    requires Enabled(s, st) && !Environmental(st) && !st.RegisterCall?
    ensures var pending' := Apply(s, st).core.pending;
            pending' == s.core.pending || pending' == map[] ||
            (st.c in s.calls && pending' == s.core.pending - {s.calls[st.c].tag})
  {
  }

  /** A step that leaves map and channels alone, and lets no new call start to wait. */
  lemma QuietStep(s: State, s': State, gone: set<nat>)
    requires EvictionInv(s, gone)
    requires s'.core.pending == s.core.pending && s'.core.chans == s.core.chans
    requires NoNewWaiters(s, s')
    ensures EvictionInv(s', gone)
  {
  }

  lemma CallerWaits(s: State, st: Step)
    requires Enabled(s, st) && !Environmental(st) && !st.RegisterCall?
    ensures Waits(Apply(s, st).calls[st.c].pc) ==>
              st.c in s.calls && Waits(s.calls[st.c].pc) && Apply(s, st).calls[st.c].tag == s.calls[st.c].tag
  {
  }

  lemma WaitersFrame(s: State, st: Step)
    requires Enabled(s, st) && !st.RegisterCall?
    ensures NoNewWaiters(s, Apply(s, st))
  {
    CallFrame(s, st);
    if !Environmental(st) {
      CallerWaits(s, st);
    }
  }

  lemma SweptStep(s: State, core: Core, gone: set<nat>)
    requires ChannelInv(s) && EvictionInv(s, gone)
    requires core.pending == map[] && core.chans == CloseAll(s.core).chans
    ensures EvictionInv(s.(core := core), gone)
  {
    CloseAllEffect(s.core);
    forall c <- s.calls | Waits(s.calls[c].pc) && c !in gone
      ensures !ChanOf(core, c).open
    {
      assert HoldsPlace(s, c);
    }
  }

  lemma RoutedStep(s: State, f: Conf, gone: set<nat>)
    requires ChannelInv(s) && EvictionInv(s, gone) && Enabled(s, RouterRoute(f))
    ensures EvictionInv(Apply(s, RouterRoute(f)), gone)
  {
  }

  lemma RegisteredStep(s: State, c: nat, gone: set<nat>)
    requires ChannelInv(s) && EvictionInv(s, gone) && Enabled(s, RegisterCall(c))
    ensures EvictionInv(Apply(s, RegisterCall(c)), gone + Evicted(s, RegisterCall(c)))
  {
  }

  lemma ForgottenStep(s: State, core: Core, tag: nat, owner: nat, gone: set<nat>)
    requires ChannelInv(s) && EvictionInv(s, gone)
    requires core == Forget(s.core, tag)
    requires owner in s.calls && !Waits(s.calls[owner].pc)
    ensures EvictionInv(s.(core := core), gone + (Holder(s.core.pending, tag) - {owner}))
  {
  }

  lemma EvictionStep(s: State, st: Step, gone: set<nat>)
    requires ChannelInv(s) && EvictionInv(s, gone) && Enabled(s, st)
    ensures EvictionInv(Apply(s, st), gone + Evicted(s, st))
  {
    assert gone + {} == gone;
    if st.RegisterCall? {
      RegisteredStep(s, st.c, gone);
    } else if st.RouterRoute? {
      RoutedStep(s, st.conf, gone);
    } else {
      WaitersFrame(s, st);
      OtherSteps(s, st, gone);
    }
  }

  ghost predicate NoNewWaiters(s: State, s': State) {
    forall c <- s'.calls | Waits(s'.calls[c].pc) ::
      c in s.calls && Waits(s.calls[c].pc) && s'.calls[c].tag == s.calls[c].tag
  }

  lemma ClosingSteps(s: State, st: Step, gone: set<nat>)
    requires ChannelInv(s) && EvictionInv(s, gone) && Enabled(s, st) && (st.Sweep? || st.EnsureLock?)
    requires NoNewWaiters(s, Apply(s, st))
    ensures EvictionInv(Apply(s, st), gone)
  {
    var s' := Apply(s, st);
    if st.Sweep? {
      SweptStep(s, CloseAll(s.core), gone);
    } else if s.calls[st.c].seen == s.core.channelID {
      QuietStep(s, s', gone);
    } else {
      SweptStep(s, ResetTo(s.core, s.calls[st.c].seen), gone);
      QuietStep(s.(core := s'.core), s', gone);
    }
  }

  lemma ForgettingSteps(s: State, st: Step, gone: set<nat>)
    requires ChannelInv(s) && EvictionInv(s, gone) && Enabled(s, st) && (st.Cleanup? || st.Drop?)
    requires NoNewWaiters(s, Apply(s, st))
    ensures EvictionInv(Apply(s, st), gone + Evicted(s, st))
  {
    var s' := Apply(s, st);
    ForgottenStep(s, s'.core, s.calls[st.c].tag, st.c, gone);
    QuietStep(s.(core := s'.core), s', gone + Evicted(s, st));
  }

  /** A call that does not wait afterwards touches its own channel only. */
  lemma OwnChannelKeeps(s: State, s': State, c: nat, gone: set<nat>)
    requires EvictionInv(s, gone) && NoNewWaiters(s, s')
    requires c in s'.calls && !Waits(s'.calls[c].pc)
    requires s'.core.pending == s.core.pending && s.core.chans.Keys <= s'.core.chans.Keys
    requires forall d <- s'.calls | d != c :: ChanOf(s'.core, d) == ChanOf(s.core, d)
    ensures EvictionInv(s', gone)
  {
  }

  lemma OwnChannelSteps(s: State, st: Step, gone: set<nat>)
    requires EvictionInv(s, gone) && Enabled(s, st) && (st.CloseOwn? || st.Receive?)
    requires NoNewWaiters(s, Apply(s, st))
    ensures EvictionInv(Apply(s, st), gone)
  {
    OwnChannelKeeps(s, Apply(s, st), st.c, gone);
  }

  lemma OtherSteps(s: State, st: Step, gone: set<nat>)
    requires ChannelInv(s) && EvictionInv(s, gone) && Enabled(s, st) && !st.RegisterCall? && !st.RouterRoute?
    requires NoNewWaiters(s, Apply(s, st))
    ensures EvictionInv(Apply(s, st), gone + Evicted(s, st))
  {
    assert gone + {} == gone;
    if st.Sweep? || st.EnsureLock? {
      ClosingSteps(s, st, gone);
    } else if st.Cleanup? || st.Drop? {
      ForgettingSteps(s, st, gone);
    } else if st.CloseOwn? || st.Receive? {
      OwnChannelSteps(s, st, gone);
    } else {
      LeavesMapAlone(s, st);
      QuietStep(s, Apply(s, st), gone);
    }
  }

  lemma LeavesMapAlone(s: State, st: Step)
    requires Enabled(s, st) && !st.RegisterCall? && !st.RouterRoute? && !st.Sweep? && !st.EnsureLock?
    requires !st.Cleanup? && !st.Drop? && !st.CloseOwn? && !st.Receive?
    ensures Apply(s, st).core.pending == s.core.pending && Apply(s, st).core.chans == s.core.chans
  {
    if Environmental(st) {
      assert Apply(s, st).core == s.core;
    }
  }

  /** All the evictions of a run. */
  ghost function EvictedBy(s: State, steps: seq<Step>): set<nat>
    requires Run(s, steps)
    decreases |steps|
  {
    if steps == [] then {} else Evicted(s, steps[0]) + EvictedBy(Apply(s, steps[0]), steps[1..])
  }

  lemma {:induction false} EvictionAlways(s: State, steps: seq<Step>, gone: set<nat>)
    requires Run(s, steps) && ChannelInv(s) && EvictionInv(s, gone)
    ensures EvictionInv(Exec(s, steps), gone + EvictedBy(s, steps))
    decreases |steps|
  {
    if steps == [] {
      assert gone + {} == gone;
    } else {
      ChannelStep(s, steps[0], {});
      EvictionStep(s, steps[0], gone);
      EvictionAlways(Apply(s, steps[0]), steps[1..], gone + Evicted(s, steps[0]));
      assert gone + Evicted(s, steps[0]) + EvictedBy(Apply(s, steps[0]), steps[1..]) == gone + EvictedBy(s, steps);
    }
  }

  /**
   Main result.  In every run, a publish that waits for its confirmation is still
   registered, or has been woken, exactly when no other publish has deleted or
   overwritten its registration.
   */
  lemma HoldsPlaceIffNotEvicted(channel: nat, steps: seq<Step>, c: nat)
    requires Run(Init(channel), steps)
    requires c in Exec(Init(channel), steps).calls && Waits(Exec(Init(channel), steps).calls[c].pc)
    ensures HoldsPlace(Exec(Init(channel), steps), c) <==> c !in EvictedBy(Init(channel), steps)
  {
    EvictionAlways(Init(channel), steps, {});
    assert {} + EvictedBy(Init(channel), steps) == EvictedBy(Init(channel), steps);
  }

  /** A time-out of the previous epoch, cleaned up late, evicts a publish of the new one. */
  lemma LateCleanupEvicts() returns (steps: seq<Step>)
    ensures Run(Init(1), steps)
    ensures var s := Exec(Init(1), steps);
            At(s, 1, Sent) && s.core.channelID == s.calls[1].sentOn == 2 && !HoldsPlace(s, 1)
  {
    var s: State;
    steps, s := TimedOutBeforeReset();
    steps, s := Extend(Init(1), steps, s, Increment(1));
    steps, s := Extend(Init(1), steps, s, RegisterCall(1));
    steps, s := Extend(Init(1), steps, s, SendOk(1));
    steps, s := Extend(Init(1), steps, s, Cleanup(0));
    assert s.core.pending == map[] && s.core.chans[1].open;
  }

  lemma TimedOutBeforeReset() returns (steps: seq<Step>, s: State)
    ensures Run(Init(1), steps) && Exec(Init(1), steps) == s
    ensures At(s, 0, Cleaning(Unconfirmed)) && s.calls[0].tag == 1
    ensures At(s, 1, Ready) && s.client == s.core.channelID == 2
    ensures s.core.deliveryTag == 0 && s.core.pending == map[] && s.feed.dead == {}
  {
    steps, s := Registration(Init(1), [], Init(1), 0, Single);
    steps, s := Extend(Init(1), steps, s, SendOk(0));
    steps, s := Extend(Init(1), steps, s, TimeOut(0));
    steps, s := Reconnection(Init(1), steps, s, 1);
  }
}
