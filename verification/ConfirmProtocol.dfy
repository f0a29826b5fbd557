/**
 The publisher-confirm protocol as an interleaved step system.

 The steps are the atomic sections of `Publish`, of one slot of
 `PublishBatchPipeline`, of `ensureConfirmsSetup` and of the confirmation router,
 plus the broker's own moves.  An AMQP channel is identified by a fresh number,
 so a reconnect is `Swap`; a channel dies when its connection fails or the client is
 closed, and may live on after a reconnect that was asked for.  The broker numbers
 the sends it accepts 1, 2, 3, ... on each channel and decides each number once.  A
 copy of the confirmation goes to each listener that the publisher has registered on
 the channel by then, if the channel lives; each copy is received at most once.

 Routers are modelled by the multiset `held` of confirmations that some router has
 received and not yet routed: the shared `confirms` field lets any live router
 read any epoch's confirmations, and nothing orders a router against a reset.
 A router sweeps when it finds a listener closed, that is when a channel listened to
 has died.  A time-out or a cancellation may happen at any time.
 */
module ConfirmProtocol {
  import opened ConfirmCore

  datatype Kind = Single | Batch

  datatype Outcome =
    | Acked           // Publish returns nil
    | Nacked          // ErrPublishNotConfirmed
    | Unconfirmed     // ErrPublishConfirmTimeout: closed result channel or time-out
    | Cancelled       // the context's error
    | SendError       // the AMQP library refused the send
    | ClientClosed
    | NoChannel

  datatype Pc =
    | Start
    | Read            // has read the client's channel, before locking the publisher
    | SetupDue        // has reset the epoch, must register a new confirm channel
    | Checking
    | Ready           // passed the closed / no-channel checks
    | Tagged          // has its delivery tag
    | Registered      // its result channel is in `pending`
    | Sent            // waits for its confirmation
    | Dropping        // batch slot whose send failed, before deleting its entry
    | Closing         // batch slot whose send failed, before closing its channel, no lock held
    | Cleaning(outcome: Outcome)
    | Done(result: Outcome)

  datatype Call = Call(
    kind: Kind,
    pc: Pc,
    seen: nat,     // channel read in ensureConfirmsSetup
    tag: nat,      // local delivery tag
    epoch: nat,    // publisher's channelID when registered
    sentOn: nat,   // channel the message was sent on
    number: nat,   // number the broker gave the message on that channel
    lag: nat)      // sends that had failed on that channel by then

  type MsgNo = (nat, nat)  // AMQP channel, broker's number on it

  datatype Conf = Conf(on: nat, number: nat, ack: bool)

  datatype Broker = Broker(
    sent: map<nat, nat>,         // per channel, how many sends were accepted
    failed: map<nat, nat>,       // per channel, how many sends failed
    owner: map<MsgNo, nat>)      // which call sent the message

  /** The way of the confirmations from the broker to the routers. */
  datatype Feed = Feed(
    verdict: map<MsgNo, bool>,   // ack (true) or nack (false)
    listening: multiset<nat>,    // the publisher's listeners, by channel
    heard: set<MsgNo>,           // decided while the channel lived and was listened to: the others are lost
    unread: multiset<MsgNo>,     // copies of confirmations that no router has received yet
    dead: set<nat>)              // channels on which nothing can be sent or heard any more

  datatype State = State(
    core: Core,
    client: nat,                 // the client's current AMQP channel; 0 is none
    closed: bool,
    calls: map<nat, Call>,
    broker: Broker,
    feed: Feed,
    held: multiset<Conf>,
    source: map<nat, nat>)       // channel whose confirmation filled a call's result channel

  datatype Step =
    | Begin(c: nat, kind: Kind)
    | BeginSlot(c: nat, prev: nat)      // the next message of a batch, no new ensureConfirmsSetup
    | EnsureRead(c: nat)
    | EnsureLock(c: nat)
    | Setup(c: nat)
    | Check(c: nat)
    | Increment(c: nat)
    | RegisterCall(c: nat)
    | SendOk(c: nat)
    | SendErr(c: nat)
    | Receive(c: nat)
    | TimeOut(c: nat)
    | Cancel(c: nat)
    | Cleanup(c: nat)
    | Drop(c: nat)
    | CloseOwn(c: nat)
    | Decide(on: nat, number: nat, ack: bool)
    | RouterReceive(on: nat, number: nat)
    | RouterRoute(conf: Conf)
    | Sweep(on: nat)                    // a router finds the listener on this channel closed
    | Swap
    | Die(on: nat)
    | CloseClient

  function Count(m: map<nat, nat>, k: nat): nat {
    if k in m then m[k] else 0
  }

  /** `NotifyPublish` on a channel, which does nothing when there is none. */
  function Listen(f: Feed, channel: nat): Feed {
    if channel == 0 then f else f.(listening := f.listening + multiset{channel})
  }

  /** A new publisher on a client whose channel is `channel` (0 when it has none). */
  function Init(channel: nat): State {
    State(Core(channel, 0, map[], map[], NoFault), channel, false, map[],
          Broker(map[], map[], map[]), Listen(Feed(map[], multiset{}, {}, multiset{}, {}), channel),
          multiset{}, map[])
  }

  predicate At(s: State, c: nat, pc: Pc) {
    c in s.calls && s.calls[c].pc == pc
  }

  predicate Enabled(s: State, st: Step) {
    match st
    case Begin(c, _) => c !in s.calls
    case BeginSlot(c, prev) =>
      && c !in s.calls && prev in s.calls && s.calls[prev].kind == Batch
      && (s.calls[prev].pc.Sent? || s.calls[prev].pc == Done(SendError))
    case EnsureRead(c) => At(s, c, Start)
    case EnsureLock(c) => At(s, c, Read)
    case Setup(c) => At(s, c, SetupDue)
    case Check(c) => At(s, c, Checking)
    case Increment(c) => At(s, c, Ready)
    case RegisterCall(c) => At(s, c, Tagged)
    case SendOk(c) => At(s, c, Registered) && s.client !in s.feed.dead
    case SendErr(c) => At(s, c, Registered)
    case Receive(c) => At(s, c, Sent) && (ChanOf(s.core, c).buf != [] || !ChanOf(s.core, c).open)
    case TimeOut(c) => At(s, c, Sent)
    case Cancel(c) => At(s, c, Sent)
    case Cleanup(c) => c in s.calls && s.calls[c].pc.Cleaning?
    case Drop(c) => At(s, c, Dropping)
    case CloseOwn(c) => At(s, c, Closing)
    case Decide(on, n, _) => 1 <= n <= Count(s.broker.sent, on) && (on, n) !in s.feed.verdict
    case RouterReceive(on, n) => (on, n) in s.feed.verdict && (on, n) in s.feed.unread
    case RouterRoute(conf) => conf in s.held
    case Sweep(on) => on in s.feed.listening && on in s.feed.dead
    case Swap => !s.closed
    case Die(on) => 1 <= on <= s.client
    case CloseClient => true
  }

  function Put(s: State, c: nat, call: Call): State {
    s.(calls := s.calls[c := call])
  }

  function Move(s: State, c: nat, pc: Pc): State
    requires c in s.calls
  {
    Put(s, c, s.calls[c].(pc := pc))
  }

  /** What a waiting call does with the value it reads from its result channel. */
  function AfterReceive(s: State, c: nat): State
    requires c in s.calls
  {
    var ch := ChanOf(s.core, c);
    if ch.buf == [] then
      Move(s, c, if s.calls[c].kind == Single then Cleaning(Unconfirmed) else Done(Unconfirmed))
    else
      var s1 := s.(core := s.core.(chans := s.core.chans[c := ch.(buf := ch.buf[1..])]));
      Move(s1, c,
           if ch.buf[0] then Done(Acked)
           else if s.calls[c].kind == Single then Cleaning(Nacked) else Done(Nacked))
  }

  function AfterSendOk(s: State, c: nat): State
    requires c in s.calls
  {
    var on := s.client;
    var n := Count(s.broker.sent, on) + 1;
    var b := s.broker.(sent := s.broker.sent[on := n], owner := s.broker.owner[(on, n) := c]);
    Put(s.(broker := b), c,
        s.calls[c].(pc := Sent, sentOn := on, number := n, lag := Count(s.broker.failed, on)))
  }

  function AfterSendErr(s: State, c: nat): State
    requires c in s.calls
  {
    var on := s.client;
    var b := s.broker.(failed := s.broker.failed[on := Count(s.broker.failed, on) + 1]);
    Move(s.(broker := b), c, if s.calls[c].kind == Single then Cleaning(SendError) else Dropping)
  }

  /** A decision reaches every listener of a living channel. */
  function AfterDecide(f: Feed, on: nat, n: nat, ack: bool): Feed {
    var copies := if on in f.dead then 0 else f.listening[on];
    f.(verdict := f.verdict[(on, n) := ack],
       heard := if copies > 0 then f.heard + {(on, n)} else f.heard,
       unread := f.unread[(on, n) := copies])
  }

  /** A router receives one copy. */
  function AfterPickUp(s: State, on: nat, n: nat): State
    requires (on, n) in s.feed.verdict
  {
    s.(held := s.held + multiset{Conf(on, n, s.feed.verdict[(on, n)])},
       feed := s.feed.(unread := s.feed.unread - multiset{(on, n)}))
  }

  function Bury(f: Feed, on: nat): Feed {
    f.(dead := f.dead + {on})
  }

  function AfterRoute(s: State, conf: Conf): State {
    s.(core := RouteConfirm(s.core, conf.number, conf.ack),
       held := s.held - multiset{conf},
       source := if conf.number in s.core.pending
                 then s.source[s.core.pending[conf.number] := conf.on] else s.source)
  }

  ghost function Apply(s: State, st: Step): State
    requires Enabled(s, st)
  {
    match st
    case Begin(c, kind) => Put(s, c, Call(kind, Start, 0, 0, 0, 0, 0, 0))
    case BeginSlot(c, prev) => Put(s, c, Call(Batch, Ready, s.calls[prev].seen, 0, 0, 0, 0, 0))
    case EnsureRead(c) => Put(s, c, s.calls[c].(pc := Read, seen := s.client))
    case EnsureLock(c) =>
      if s.calls[c].seen == s.core.channelID then Move(s, c, Checking)
      else Move(s.(core := ResetTo(s.core, s.calls[c].seen)), c, SetupDue)
    case Setup(c) => Move(s.(feed := Listen(s.feed, s.client)), c, Checking)
    case Check(c) =>
      Move(s, c, if s.closed then Done(ClientClosed) else if s.client == 0 then Done(NoChannel) else Ready)
    case Increment(c) =>
      Put(s.(core := s.core.(deliveryTag := s.core.deliveryTag + 1)), c,
          s.calls[c].(pc := Tagged, tag := s.core.deliveryTag + 1))
    case RegisterCall(c) =>
      Put(s.(core := Register(s.core, s.calls[c].tag, c)), c,
          s.calls[c].(pc := Registered, epoch := s.core.channelID))
    case SendOk(c) => AfterSendOk(s, c)
    case SendErr(c) => AfterSendErr(s, c)
    case Receive(c) => AfterReceive(s, c)
    case TimeOut(c) => Move(s, c, Cleaning(Unconfirmed))
    case Cancel(c) => Move(s, c, if s.calls[c].kind == Single then Cleaning(Cancelled) else Done(Cancelled))
    case Cleanup(c) =>
      Move(s.(core := Forget(s.core, s.calls[c].tag)), c, Done(s.calls[c].pc.outcome))
    case Drop(c) => Move(s.(core := Forget(s.core, s.calls[c].tag)), c, Closing)
    case CloseOwn(c) => Move(s.(core := CloseChan(s.core, c)), c, Done(SendError))
    case Decide(on, n, ack) => s.(feed := AfterDecide(s.feed, on, n, ack))
    case RouterReceive(on, n) => AfterPickUp(s, on, n)
    case RouterRoute(conf) => AfterRoute(s, conf)
    case Sweep(_) => s.(core := CloseAll(s.core))
    case Swap => s.(client := s.client + 1)
    case Die(on) => s.(feed := Bury(s.feed, on))
    case CloseClient => s.(closed := true, feed := Bury(s.feed, s.client))
  }

  /** Steps of the broker, the routers and the client; every other step belongs to call `st.c`. */
  predicate Environmental(st: Step) {
    st.Decide? || st.RouterReceive? || st.RouterRoute? || st.Sweep? || st.Swap? || st.Die? ||
    st.CloseClient?
  }

  lemma CallFrame(s: State, st: Step)
    requires Enabled(s, st)
    ensures Environmental(st) ==> Apply(s, st).calls == s.calls
    ensures !Environmental(st) ==>
              && st.c in Apply(s, st).calls
              && Apply(s, st).calls == s.calls[st.c := Apply(s, st).calls[st.c]]
              && Apply(s, st).source == s.source && Apply(s, st).held == s.held
              && Apply(s, st).feed == s.feed.(listening := Apply(s, st).feed.listening)
              && Apply(s, st).client == s.client
  {
    if Environmental(st) {
      OutsideFrame(s, st);
    } else {
      CallerFrame(s, st);
      FeedFrame(s, st);
    }
  }

  lemma OutsideFrame(s: State, st: Step)
    requires Enabled(s, st) && Environmental(st)
    ensures Apply(s, st).calls == s.calls
  {
  }

  lemma CallerFrame(s: State, st: Step)
    requires Enabled(s, st) && !Environmental(st)
    ensures st.c in Apply(s, st).calls && Apply(s, st).calls == s.calls[st.c := Apply(s, st).calls[st.c]]
  {
  }

  lemma FeedFrame(s: State, st: Step)
    requires Enabled(s, st) && !Environmental(st)
    ensures Apply(s, st).source == s.source && Apply(s, st).held == s.held && Apply(s, st).client == s.client
    ensures Apply(s, st).feed == s.feed.(listening := Apply(s, st).feed.listening)
  {
  }

  /** Only an epoch reset and an increment move the counter, only a reset the channel. */
  lemma CoreFrame(s: State, st: Step)
    requires Enabled(s, st)
    ensures !st.EnsureLock? ==> Apply(s, st).core.channelID == s.core.channelID
    ensures !st.EnsureLock? && !st.Increment? ==> Apply(s, st).core.deliveryTag == s.core.deliveryTag
    ensures !st.SendOk? && !st.SendErr? ==>
              Apply(s, st).broker.sent == s.broker.sent && Apply(s, st).broker.failed == s.broker.failed
  {
    BrokerFrame(s, st);
    CounterFrame(s, st);
  }

  lemma CounterFrame(s: State, st: Step)
    requires Enabled(s, st)
    ensures !st.EnsureLock? ==> Apply(s, st).core.channelID == s.core.channelID
    ensures !st.EnsureLock? && !st.Increment? ==> Apply(s, st).core.deliveryTag == s.core.deliveryTag
  {
    if Environmental(st) {
      OutsideLeavesCounters(s, st);
    }
  }

  lemma OutsideLeavesCounters(s: State, st: Step)
    requires Enabled(s, st) && Environmental(st)
    ensures Apply(s, st).core.channelID == s.core.channelID && Apply(s, st).core.deliveryTag == s.core.deliveryTag
  {
    if !st.RouterRoute? && !st.Sweep? {
      assert Apply(s, st).core == s.core;
    }
  }

  /** Only a send that is accepted adds a message, only one that fails a failure. */
  lemma BrokerFrame(s: State, st: Step)
    requires Enabled(s, st)
    ensures !st.SendOk? ==> Apply(s, st).broker.sent == s.broker.sent && Apply(s, st).broker.owner == s.broker.owner
    ensures !st.SendErr? ==> Apply(s, st).broker.failed == s.broker.failed
  {
    if !st.SendOk? && !st.SendErr? {
      OthersLeaveBroker(s, st);
    }
  }

  lemma OthersLeaveBroker(s: State, st: Step)
    requires Enabled(s, st) && !st.SendOk? && !st.SendErr?
    ensures Apply(s, st).broker == s.broker
  {
  }

  // ----- runs -----

  /** `steps` can be executed from `s`. */
  ghost predicate Run(s: State, steps: seq<Step>)
    decreases |steps|
  {
    steps == [] || (Enabled(s, steps[0]) && Run(Apply(s, steps[0]), steps[1..]))
  }

  ghost function Exec(s: State, steps: seq<Step>): State
    requires Run(s, steps)
    decreases |steps|
  {
    if steps == [] then s else Exec(Apply(s, steps[0]), steps[1..])
  }

  /** Each step of the run satisfies the scheduling hypothesis `h` in the state it is taken from. */
  ghost predicate Along(s: State, steps: seq<Step>, h: (State, Step) -> bool)
    requires Run(s, steps)
    decreases |steps|
  {
    steps == [] || (h(s, steps[0]) && Along(Apply(s, steps[0]), steps[1..], h))
  }

  // ----- building concrete runs -----

  lemma {:induction false} Extend(s0: State, steps: seq<Step>, s: State, st: Step)
    returns (steps': seq<Step>, s': State)
    requires Run(s0, steps) && Exec(s0, steps) == s && Enabled(s, st)
    ensures steps' == steps + [st] && s' == Apply(s, st)
    ensures Run(s0, steps') && Exec(s0, steps') == s'
    decreases |steps|
  {
    steps', s' := steps + [st], Apply(s, st);
    if steps == [] {
      assert steps' == [st] && [st][1..] == [];
    } else {
      var rest, _ := Extend(Apply(s0, steps[0]), steps[1..], s, st);
      assert steps'[1..] == rest;
    }
  }

  /** A call that finds its epoch in place gets ready to publish. */
  lemma Admission(s0: State, steps: seq<Step>, s: State, c: nat, kind: Kind)
    returns (steps': seq<Step>, s': State)
    requires Run(s0, steps) && Exec(s0, steps) == s
    requires c !in s.calls && s.client == s.core.channelID != 0 && !s.closed
    ensures Run(s0, steps') && Exec(s0, steps') == s'
    ensures s' == Put(s, c, Call(kind, Ready, s.client, 0, 0, 0, 0, 0))
  {
    steps', s' := Extend(s0, steps, s, Begin(c, kind));
    steps', s' := Extend(s0, steps', s', EnsureRead(c));
    steps', s' := Extend(s0, steps', s', EnsureLock(c));
    steps', s' := Extend(s0, steps', s', Check(c));
  }

  /** It then runs up to its registration. */
  lemma Registration(s0: State, steps: seq<Step>, s: State, c: nat, kind: Kind)
    returns (steps': seq<Step>, s': State)
    requires Run(s0, steps) && Exec(s0, steps) == s
    requires c !in s.calls && s.client == s.core.channelID != 0 && !s.closed
    ensures Run(s0, steps') && Exec(s0, steps') == s'
    ensures var tag := s.core.deliveryTag + 1;
            s' == s.(core := Register(s.core.(deliveryTag := tag), tag, c),
                     calls := s.calls[c := Call(kind, Registered, s.client, tag, s.client, 0, 0, 0)])
  {
    steps', s' := Admission(s0, steps, s, c, kind);
    steps', s' := Extend(s0, steps', s', Increment(c));
    steps', s' := Extend(s0, steps', s', RegisterCall(c));
  }

  /** The client reconnects, and call `c` has seen it. */
  lemma Reconnected(s0: State, steps: seq<Step>, s: State, c: nat)
    returns (steps': seq<Step>, s': State)
    requires Run(s0, steps) && Exec(s0, steps) == s && c !in s.calls && !s.closed
    ensures Run(s0, steps') && Exec(s0, steps') == s'
    ensures s' == s.(client := s.client + 1, calls := s.calls[c := Call(Single, Read, s.client + 1, 0, 0, 0, 0, 0)])
  {
    steps', s' := Extend(s0, steps, s, Swap);
    steps', s' := Extend(s0, steps', s', Begin(c, Single));
    steps', s' := Extend(s0, steps', s', EnsureRead(c));
  }

  /** It resets the epoch, whatever the routers still hold. */
  lemma Reset(s0: State, steps: seq<Step>, s: State, c: nat)
    returns (steps': seq<Step>, s': State)
    requires Run(s0, steps) && Exec(s0, steps) == s
    requires c !in s.calls && !s.closed && s.core.channelID == s.client
    ensures Run(s0, steps') && Exec(s0, steps') == s'
    ensures s' == s.(core := ResetTo(s.core, s.client + 1), client := s.client + 1,
                     calls := s.calls[c := Call(Single, SetupDue, s.client + 1, 0, 0, 0, 0, 0)])
  {
    steps', s' := Reconnected(s0, steps, s, c);
    steps', s' := Extend(s0, steps', s', EnsureLock(c));
  }

  /** It then listens on the new channel and gets ready. */
  lemma Reconnection(s0: State, steps: seq<Step>, s: State, c: nat)
    returns (steps': seq<Step>, s': State)
    requires Run(s0, steps) && Exec(s0, steps) == s
    requires c !in s.calls && !s.closed && s.core.channelID == s.client
    ensures Run(s0, steps') && Exec(s0, steps') == s'
    ensures s' == s.(core := ResetTo(s.core, s.client + 1), client := s.client + 1,
                     feed := s.feed.(listening := s.feed.listening + multiset{s.client + 1}),
                     calls := s.calls[c := Call(Single, Ready, s.client + 1, 0, 0, 0, 0, 0)])
  {
    steps', s' := Reset(s0, steps, s, c);
    steps', s' := Extend(s0, steps', s', Setup(c));
    steps', s' := Extend(s0, steps', s', Check(c));
  }
}
