/**
 Channel safety of the confirm protocol, over every interleaving: when is no
 result channel ever closed twice, sent to after close, or blocked on while the
 publisher's mutex is held?
 */
module ConfirmSafety {
  import opened ConfirmCore
  import opened ConfirmProtocol

  predicate HasChannel(pc: Pc) {
    pc.Registered? || pc.Sent? || pc.Dropping? || pc.Closing? || pc.Cleaning? || pc.Done?
  }

  predicate OwnsChannel(pc: Pc) {
    pc.Registered? || pc.Sent? || pc.Dropping? || pc.Closing?
  }

  ghost predicate ChannelInv(s: State) {
    && PendingClean(s.core)
    && (forall t <- s.core.pending ::
          && s.core.pending[t] in s.calls
          && s.calls[s.core.pending[t]].tag == t
          && !s.calls[s.core.pending[t]].pc.Closing?)
    && (forall c <- s.core.chans :: c in s.calls && HasChannel(s.calls[c].pc))
    && (forall c <- s.calls | OwnsChannel(s.calls[c].pc) :: c in s.core.chans)
  }

  /** The registrations that a step takes out of `pending` by closing their channels. */
  ghost function Taken(s: State, st: Step): set<nat>
    requires Enabled(s, st)
  {
    match st
    case Sweep(_) => s.core.pending.Values
    case EnsureLock(c) => if s.calls[c].seen == s.core.channelID then {} else s.core.pending.Values
    case RouterRoute(conf) => if conf.number in s.core.pending then {s.core.pending[conf.number]} else {}
    case _ => {}
  }

  /** Before a call closes its own channel, that channel is open unless the call was struck. */
  ghost predicate StruckInv(s: State, struck: set<nat>) {
    && struck <= s.core.chans.Keys
    && (forall c <- s.calls | MayStillClose(s.calls[c].pc) :: ChanOf(s.core, c).open <==> c !in struck)
  }

  predicate TouchesChannels(st: Step) {
    st.EnsureLock? || st.RegisterCall? || st.Receive? || st.Cleanup? || st.Drop? || st.CloseOwn? ||
    st.RouterRoute? || st.Sweep?
  }

  predicate MayStillClose(pc: Pc) {
    pc.Registered? || pc.Dropping? || pc.Closing?
  }

  /** One call moves on; pending map and channels stay as they are. */
  lemma MoveStep(s: State, s': State, c: nat, struck: set<nat>)
    requires ChannelInv(s)
    requires c in s'.calls && s'.calls == s.calls[c := s'.calls[c]]
    requires s'.core.pending == s.core.pending && s'.core.chans == s.core.chans
    requires c in s.core.chans ==> HasChannel(s'.calls[c].pc) && s'.calls[c].tag == s.calls[c].tag
    requires OwnsChannel(s'.calls[c].pc) ==> c in s.calls && OwnsChannel(s.calls[c].pc)
    requires MayStillClose(s'.calls[c].pc) ==> c in s.calls && MayStillClose(s.calls[c].pc)
    requires !s'.calls[c].pc.Closing?
    ensures ChannelInv(s')
    ensures StruckInv(s, struck) ==> StruckInv(s', struck)
  {
  }

  lemma LocalMove(s: State, st: Step)
    requires Enabled(s, st) && !TouchesChannels(st) && !Environmental(st)
    requires st.c in s.core.chans ==> st.c in s.calls && HasChannel(s.calls[st.c].pc)
    ensures var s', c := Apply(s, st), st.c;
            && c in s'.calls && s'.calls == s.calls[c := s'.calls[c]]
            && s'.core == s.core.(deliveryTag := s'.core.deliveryTag)
            && (c in s.core.chans ==> HasChannel(s'.calls[c].pc) && s'.calls[c].tag == s.calls[c].tag)
            && (OwnsChannel(s'.calls[c].pc) ==> c in s.calls && OwnsChannel(s.calls[c].pc))
            && (MayStillClose(s'.calls[c].pc) ==> c in s.calls && MayStillClose(s.calls[c].pc))
            && !s'.calls[c].pc.Closing?
  {
  }

  /** What every step keeps, and the only way it can fault. */
  ghost predicate StepIsSafe(s: State, st: Step, struck: set<nat>)
    requires Enabled(s, st)
  {
    && ChannelInv(Apply(s, st))
    && (StruckInv(s, struck) ==>
          && StruckInv(Apply(s, st), struck + Taken(s, st))
          && Apply(s, st).core.fault ==
             if st.CloseOwn? && st.c in struck && s.core.fault.NoFault? then DoubleClose else s.core.fault)
  }

  lemma LocalStep(s: State, st: Step, struck: set<nat>)
    requires ChannelInv(s) && Enabled(s, st) && !TouchesChannels(st) && !Environmental(st)
    ensures StepIsSafe(s, st, struck)
  {
    assert struck + {} == struck;
    LocalMove(s, st);
    MoveStep(s, Apply(s, st), st.c, struck);
  }

  lemma OutsideStep(s: State, st: Step, struck: set<nat>)
    requires ChannelInv(s) && Enabled(s, st) && !TouchesChannels(st) && Environmental(st)
    ensures StepIsSafe(s, st, struck)
  {
    assert struck + {} == struck;
    assert Apply(s, st).core == s.core && Apply(s, st).calls == s.calls;
  }

  lemma SweepStep(s: State, struck: set<nat>)
    requires ChannelInv(s)
    ensures ChannelInv(s.(core := CloseAll(s.core)))
    ensures StruckInv(s, struck) ==> StruckInv(s.(core := CloseAll(s.core)), struck + s.core.pending.Values)
    ensures CloseAll(s.core).fault == s.core.fault
  {
  }

  lemma SweepIsSafe(s: State, on: nat, struck: set<nat>)
    requires ChannelInv(s) && Enabled(s, Sweep(on))
    ensures StepIsSafe(s, Sweep(on), struck)
  {
  }

  lemma EnsureLockStep(s: State, c: nat, struck: set<nat>)
    requires ChannelInv(s) && Enabled(s, EnsureLock(c))
    ensures StepIsSafe(s, EnsureLock(c), struck)
  {
    if s.calls[c].seen == s.core.channelID {
      assert struck + {} == struck;
      MoveStep(s, Apply(s, EnsureLock(c)), c, struck);
    } else {
      SweepStep(s, struck);
      var swept := s.(core := CloseAll(s.core));
      MoveStep(swept, Apply(s, EnsureLock(c)), c, struck + s.core.pending.Values);
    }
  }

  lemma RegisterStep(s: State, c: nat, struck: set<nat>)
    requires ChannelInv(s) && Enabled(s, RegisterCall(c))
    ensures StepIsSafe(s, RegisterCall(c), struck)
  {
  }

  /** A channel that a call can read from is closed, so it is not pending. */
  lemma ReceiveStep(s: State, c: nat, struck: set<nat>)
    requires ChannelInv(s) && Enabled(s, Receive(c))
    ensures StepIsSafe(s, Receive(c), struck)
  {
    assert struck + {} == struck;
    assert forall t <- s.core.pending :: s.core.pending[t] != c;
    var ch := s.core.chans[c];
    if ch.buf == [] {
      MoveStep(s, Apply(s, Receive(c)), c, struck);
    } else {
      var drained := s.(core := s.core.(chans := s.core.chans[c := ch.(buf := ch.buf[1..])]));
      DrainKeeps(s, drained, c, struck);
      MoveStep(drained, Apply(s, Receive(c)), c, struck);
    }
  }

  lemma DrainKeeps(s: State, s': State, c: nat, struck: set<nat>)
    requires ChannelInv(s) && At(s, c, Sent)
    requires forall t <- s.core.pending :: s.core.pending[t] != c
    requires exists buf :: s' == s.(core := s.core.(chans := s.core.chans[c := s.core.chans[c].(buf := buf)]))
    ensures ChannelInv(s')
    ensures StruckInv(s, struck) ==> StruckInv(s', struck)
  {
  }

  lemma ForgetKeeps(s: State, s': State, tag: nat, struck: set<nat>)
    requires ChannelInv(s) && s' == s.(core := Forget(s.core, tag))
    ensures ChannelInv(s')
    ensures StruckInv(s, struck) ==> StruckInv(s', struck)
    ensures forall t <- s'.core.pending :: s'.calls[s'.core.pending[t]].tag != tag
  {
  }

  lemma ForgetStep(s: State, st: Step, struck: set<nat>)
    requires ChannelInv(s) && Enabled(s, st) && (st.Cleanup? || st.Drop?)
    ensures StepIsSafe(s, st, struck)
  {
    assert struck + {} == struck;
    var tag := s.calls[st.c].tag;
    var forgot := s.(core := Forget(s.core, tag));
    ForgetKeeps(s, forgot, tag, struck);
    UnpendingMove(forgot, Apply(s, st), st.c, struck);
  }

  /** A call that is no longer pending may also move on to closing its channel. */
  lemma UnpendingMove(s: State, s': State, c: nat, struck: set<nat>)
    requires ChannelInv(s) && c in s.calls && (s.calls[c].pc.Cleaning? || s.calls[c].pc.Dropping?)
    requires forall t <- s.core.pending :: s.core.pending[t] != c
    requires c in s'.calls && s' == Move(s, c, s'.calls[c].pc)
    requires s'.calls[c].pc.Done? || (s'.calls[c].pc.Closing? && s.calls[c].pc.Dropping?)
    ensures ChannelInv(s')
    ensures StruckInv(s, struck) ==> StruckInv(s', struck)
  {
  }

  lemma CloseOwnKeeps(s: State, s': State, c: nat, struck: set<nat>)
    requires ChannelInv(s) && At(s, c, Closing) && s' == Move(s.(core := CloseChan(s.core, c)), c, Done(SendError))
    ensures ChannelInv(s')
    ensures StruckInv(s, struck) ==> StruckInv(s', struck)
  {
    assert forall t <- s.core.pending :: s.core.pending[t] != c;
  }

  lemma CloseOwnStep(s: State, c: nat, struck: set<nat>)
    requires ChannelInv(s) && Enabled(s, CloseOwn(c))
    ensures StepIsSafe(s, CloseOwn(c), struck)
  {
    assert struck + {} == struck;
    CloseOwnKeeps(s, Apply(s, CloseOwn(c)), c, struck);
  }

  lemma RouteStep(s: State, conf: Conf, struck: set<nat>)
    requires ChannelInv(s) && Enabled(s, RouterRoute(conf))
    ensures StepIsSafe(s, RouterRoute(conf), struck)
  {
    RouteEffect(s.core, conf.number, conf.ack);
  }

  lemma TouchingStep(s: State, st: Step, struck: set<nat>)
    requires ChannelInv(s) && Enabled(s, st) && TouchesChannels(st) && !Environmental(st)
    ensures StepIsSafe(s, st, struck)
  {
    match st
    case EnsureLock(c) => EnsureLockStep(s, c, struck);
    case RegisterCall(c) => RegisterStep(s, c, struck);
    case Receive(c) => ReceiveStep(s, c, struck);
    case Cleanup(c) => ForgetStep(s, st, struck);
    case Drop(c) => ForgetStep(s, st, struck);
    case CloseOwn(c) => CloseOwnStep(s, c, struck);
  }

  lemma ChannelStep(s: State, st: Step, struck: set<nat>)
    requires ChannelInv(s) && Enabled(s, st)
    ensures StepIsSafe(s, st, struck)
  {
    if !TouchesChannels(st) && Environmental(st) {
      OutsideStep(s, st, struck);
    } else if !TouchesChannels(st) {
      LocalStep(s, st, struck);
    } else if st.Sweep? {
      SweepIsSafe(s, st.on, struck);
    } else if st.RouterRoute? {
      RouteStep(s, st.conf, struck);
    } else {
      TouchingStep(s, st, struck);
    }
  }

  /**
   No batch slot whose send failed closes its channel after a sweep, an epoch
   reset or a routed confirmation has taken its registration.
   */
  ghost predicate CleanCloses(s: State, steps: seq<Step>, struck: set<nat>)
    requires Run(s, steps)
    decreases |steps|
  {
    steps == [] ||
    ((steps[0].CloseOwn? ==> steps[0].c !in struck) &&
     CleanCloses(Apply(s, steps[0]), steps[1..], struck + Taken(s, steps[0])))
  }

  lemma {:induction false} FaultIsForever(s: State, steps: seq<Step>, struck: set<nat>)
    requires Run(s, steps) && ChannelInv(s) && StruckInv(s, struck)
    requires !s.core.fault.NoFault?
    ensures !Exec(s, steps).core.fault.NoFault?
    decreases |steps|
  {
    if steps != [] {
      ChannelStep(s, steps[0], struck);
      FaultIsForever(Apply(s, steps[0]), steps[1..], struck + Taken(s, steps[0]));
    }
  }

  lemma {:induction false} FaultFreeFrom(s: State, steps: seq<Step>, struck: set<nat>)
    requires Run(s, steps) && ChannelInv(s) && StruckInv(s, struck) && s.core.fault.NoFault?
    ensures ChannelInv(Exec(s, steps))
    ensures Exec(s, steps).core.fault.NoFault? <==> CleanCloses(s, steps, struck)
    decreases |steps|
  {
    if steps != [] {
      var s1, rest, struck1 := Apply(s, steps[0]), steps[1..], struck + Taken(s, steps[0]);
      ChannelStep(s, steps[0], struck);
      if s1.core.fault.NoFault? {
        FaultFreeFrom(s1, rest, struck1);
      } else {
        FaultIsForever(s1, rest, struck1);
        ChannelInvAlways(s1, rest);
      }
    }
  }

  lemma {:induction false} ChannelInvAlways(s: State, steps: seq<Step>)
    requires Run(s, steps) && ChannelInv(s)
    ensures ChannelInv(Exec(s, steps))
    decreases |steps|
  {
    if steps != [] {
      ChannelStep(s, steps[0], {});
      ChannelInvAlways(Apply(s, steps[0]), steps[1..]);
    }
  }

  /**
   Main result.  In every run, every channel in `pending` is open, empty and
   stored under one tag, and the run is free of panics and of blocking under the
   mutex exactly when its batch send failures close undisturbed channels.
   */
  lemma ChannelSafety(channel: nat, steps: seq<Step>)
    requires Run(Init(channel), steps)
    ensures PendingClean(Exec(Init(channel), steps).core)
    ensures Exec(Init(channel), steps).core.fault.NoFault? <==> CleanCloses(Init(channel), steps, {})
  {
    FaultFreeFrom(Init(channel), steps, {});
  }

  lemma {:induction false} NoFailedSlotIsClean(s: State, steps: seq<Step>, struck: set<nat>)
    requires Run(s, steps)
    requires forall i | 0 <= i < |steps| :: !steps[i].CloseOwn?
    ensures CleanCloses(s, steps, struck)
    decreases |steps|
  {
    if steps != [] {
      NoFailedSlotIsClean(Apply(s, steps[0]), steps[1..], struck + Taken(s, steps[0]));
    }
  }

  /** Any number of `Publish` calls, and of batches whose sends succeed, is safe under every interleaving. */
  lemma PublishIsAlwaysSafe(channel: nat, steps: seq<Step>)
    requires Run(Init(channel), steps)
    requires forall i | 0 <= i < |steps| :: !steps[i].CloseOwn?
    ensures Exec(Init(channel), steps).core.fault.NoFault?
  {
    NoFailedSlotIsClean(Init(channel), steps, {});
    ChannelSafety(channel, steps);
  }

  lemma SweptSlot() returns (steps: seq<Step>, s: State)
    ensures Run(Init(1), steps) && Exec(Init(1), steps) == s
    ensures At(s, 0, Registered) && s.calls[0].kind == Batch && s.core.pending == map[]
    ensures ChanOf(s.core, 0) == Chan(false, [], 1) && s.core.fault.NoFault?
  {
    steps, s := Registration(Init(1), [], Init(1), 0, Batch);
    assert 0 in s.core.pending.Values by { assert s.core.pending[1] == 0; }
    steps, s := Extend(Init(1), steps, s, Die(1));
    steps, s := Extend(Init(1), steps, s, Sweep(1));
  }

  /** The hypothesis is needed: a sweep between a batch slot's registration and its failed send panics. */
  lemma SweepThenFailedSlotPanics() returns (steps: seq<Step>)
    ensures Run(Init(1), steps)
    ensures Exec(Init(1), steps).core.fault == DoubleClose
  {
    var s: State;
    steps, s := SweptSlot();
    steps, s := Extend(Init(1), steps, s, SendErr(0));
    steps, s := Extend(Init(1), steps, s, Drop(0));
    steps, s := Extend(Init(1), steps, s, CloseOwn(0));
  }
}
