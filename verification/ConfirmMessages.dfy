/**
 Which message a call has sent, over every interleaving: the broker's numbers and the
 calls' own records agree, so a reported verdict belongs to one definite message.
 */
module ConfirmMessages {
  import opened ConfirmProtocol
  import opened ConfirmSafety
  import opened ConfirmVerdicts

  predicate WasSent(call: Call) {
    call.number > 0
  }

  predicate MustBeSent(pc: Pc) {
    pc.Sent? || Says(pc, true) || Says(pc, false)
  }

  ghost predicate SentInv(s: State) {
    && (forall c <- s.calls | WasSent(s.calls[c]) ::
          var call := s.calls[c];
          && HasChannel(call.pc) && !call.pc.Registered?
          && (call.sentOn, call.number) in s.broker.owner
          && s.broker.owner[(call.sentOn, call.number)] == c)
    && (forall c <- s.calls | MustBeSent(s.calls[c].pc) :: WasSent(s.calls[c]))
  }

  /** Every numbered message was sent by the call the broker's number belongs to. */
  ghost predicate OwnersSent(s: State) {
    forall m <- s.broker.owner ::
      1 <= m.1 <= Count(s.broker.sent, m.0) && s.broker.owner[m] in s.calls &&
      s.calls[s.broker.owner[m]].sentOn == m.0 && s.calls[s.broker.owner[m]].number == m.1
  }

  ghost predicate NumbersOwned(b: Broker) {
    forall e: nat, n: nat | 1 <= n <= Count(b.sent, e) :: (e, n) in b.owner
  }

  ghost predicate DecidedOwned(s: State) {
    forall m <- s.feed.verdict :: m in s.broker.owner
  }

  ghost predicate OwnerInv(s: State) {
    OwnersSent(s) && NumbersOwned(s.broker) && DecidedOwned(s)
  }

  /** Only `SendOk` writes what a call knows about its message, and only a new call starts without. */
  lemma CallerKeepsMessage(s: State, st: Step)
    requires Enabled(s, st) && !Environmental(st) && !st.SendOk?
    ensures var call := Apply(s, st).calls[st.c];
            if st.c in s.calls then
              && call.number == s.calls[st.c].number && call.sentOn == s.calls[st.c].sentOn
              && call.lag == s.calls[st.c].lag
            else !WasSent(call)
  {
  }

  /** A call that has sent neither registers nor sends again, and keeps its tag. */
  lemma CallerStaysSent(s: State, st: Step)
    requires Enabled(s, st) && !Environmental(st) && !st.SendOk?
    requires st.c in s.calls && HasChannel(s.calls[st.c].pc) && !s.calls[st.c].pc.Registered?
    ensures var call := Apply(s, st).calls[st.c];
            && HasChannel(call.pc) && !call.pc.Registered?
            && call.tag == s.calls[st.c].tag && call.epoch == s.calls[st.c].epoch
  {
  }

  lemma CallerMustBeSent(s: State, st: Step)
    requires Enabled(s, st) && !Environmental(st) && !st.SendOk?
    ensures MustBeSent(Apply(s, st).calls[st.c].pc) ==> st.c in s.calls && MustBeSent(s.calls[st.c].pc)
  {
  }

  lemma SendOkKeepsSent(s: State, c: nat)
    requires SentInv(s) && Enabled(s, SendOk(c))
    requires (s.client, Count(s.broker.sent, s.client) + 1) !in s.broker.owner
    ensures SentInv(Apply(s, SendOk(c)))
  {
  }

  lemma SendOkKeepsOwners(s: State, c: nat)
    requires SentInv(s) && OwnerInv(s) && Enabled(s, SendOk(c))
    ensures OwnerInv(Apply(s, SendOk(c)))
  {
    assert NumbersOwned(Apply(s, SendOk(c)).broker);
    SendOkKeepsOwnersSent(s, c);
  }

  lemma SendOkKeepsOwnersSent(s: State, c: nat)
    requires SentInv(s) && OwnersSent(s) && Enabled(s, SendOk(c))
    ensures OwnersSent(Apply(s, SendOk(c)))
  {
    assert !WasSent(s.calls[c]);
    assert forall k <- s.broker.owner :: s.broker.owner[k] != c;
  }

  /** Nothing that a call knows about its message is forgotten. */
  ghost predicate MessagesKept(s: State, s': State) {
    forall c <- s.calls | WasSent(s.calls[c]) ::
      && c in s'.calls && s'.calls[c] == s.calls[c].(pc := s'.calls[c].pc)
  }

  lemma CallerSent(s: State, st: Step)
    requires Enabled(s, st) && !Environmental(st) && !st.SendOk?
    requires st.c in s.calls && WasSent(s.calls[st.c]) ==>
               HasChannel(s.calls[st.c].pc) && !s.calls[st.c].pc.Registered?
    ensures var call := Apply(s, st).calls[st.c];
            && (WasSent(call) <==> st.c in s.calls && WasSent(s.calls[st.c]))
            && (WasSent(call) ==> HasChannel(call.pc) && !call.pc.Registered? && call == s.calls[st.c].(pc := call.pc))
  {
    CallerKeepsMessage(s, st);
    if st.c in s.calls && WasSent(s.calls[st.c]) {
      CallerStaysSent(s, st);
    }
  }

  lemma OthersKeepMessages(s: State, st: Step)
    requires SentInv(s) && Enabled(s, st) && !st.SendOk?
    ensures MessagesKept(s, Apply(s, st))
  {
    CallFrame(s, st);
    if !Environmental(st) {
      CallerSent(s, st);
    }
  }

  lemma OthersKeepSent(s: State, st: Step)
    requires SentInv(s) && Enabled(s, st) && !st.SendOk?
    ensures SentInv(Apply(s, st))
  {
    CallFrame(s, st);
    BrokerFrame(s, st);
    OthersKeepMessages(s, st);
    if !Environmental(st) {
      CallerSent(s, st);
      CallerMustBeSent(s, st);
    }
  }

  lemma OthersKeepNumbers(s: State, st: Step)
    requires NumbersOwned(s.broker) && DecidedOwned(s) && Enabled(s, st) && !st.SendOk?
    ensures NumbersOwned(Apply(s, st).broker) && DecidedOwned(Apply(s, st))
  {
    BrokerFrame(s, st);
    if !Environmental(st) {
      CallFrame(s, st);
    }
  }

  lemma OthersKeepOwners(s: State, st: Step)
    requires SentInv(s) && OwnersSent(s) && Enabled(s, st) && !st.SendOk?
    ensures OwnersSent(Apply(s, st))
  {
    OthersKeepMessages(s, st);
    BrokerFrame(s, st);
    CoreFrame(s, st);
    assert forall m <- s.broker.owner :: WasSent(s.calls[s.broker.owner[m]]);
  }

  lemma SentStep(s: State, st: Step)
    requires SentInv(s) && OwnerInv(s) && Enabled(s, st)
    ensures SentInv(Apply(s, st)) && OwnerInv(Apply(s, st))
  {
    if st.SendOk? {
      SendOkKeepsSent(s, st.c);
      SendOkKeepsOwners(s, st.c);
    } else {
      OthersKeepSent(s, st);
      OthersKeepOwners(s, st);
      OthersKeepNumbers(s, st);
    }
  }

  lemma {:induction false} MessagesAlways(s: State, steps: seq<Step>)
    requires Run(s, steps) && VerdictInv(s) && SentInv(s) && OwnerInv(s)
    ensures VerdictInv(Exec(s, steps)) && SentInv(Exec(s, steps)) && OwnerInv(Exec(s, steps))
    decreases |steps|
  {
    if steps != [] {
      VerdictStep(s, steps[0]);
      SentStep(s, steps[0]);
      MessagesAlways(Apply(s, steps[0]), steps[1..]);
    }
  }

  /** The broker's answer to the very message that call `c` sent. */
  ghost predicate OwnVerdict(s: State, c: nat, v: bool) {
    && c in s.calls
    && var own := (s.calls[c].sentOn, s.calls[c].number);
       && own in s.broker.owner && s.broker.owner[own] == c
       && own in s.feed.verdict && s.feed.verdict[own] == v
  }

  lemma AnswerOwner(s: State, c: nat, v: bool)
    requires SentInv(s) && OwnerInv(s) && Backed(s, c, v) && Says(s.calls[c].pc, v)
    ensures AnsweredBy(s, c, v)
  {
    var call := s.calls[c];
    assert WasSent(call);
    assert (s.source[c], call.tag) in s.broker.owner;
  }

  /**
   Call `c` reports the verdict `v` on the message with its tag as number on the
   channel that answered it, and that is its own message exactly if it was sent on
   that channel and its tag is its number.
   */
  ghost predicate AnsweredBy(s: State, c: nat, v: bool)
    requires c in s.calls
  {
    && Backed(s, c, v)
    && var call := s.calls[c];
       var own, answering := (call.sentOn, call.number), (s.source[c], call.tag);
       && own in s.broker.owner && s.broker.owner[own] == c && answering in s.broker.owner
       && (s.broker.owner[answering] == c <==> s.source[c] == call.sentOn && call.tag == call.number)
  }

  /**
   In every interleaving a reported verdict is the broker's on a definite message,
   and it is on the publish's own message if and only if the confirmation came from
   the channel of the send and the tag is the number the broker gave the message.
   */
  lemma OwnMessageExactly(channel: nat, steps: seq<Step>, c: nat, v: bool)
    requires Run(Init(channel), steps)
    requires c in Exec(Init(channel), steps).calls
    requires Exec(Init(channel), steps).calls[c].pc == Done(if v then Acked else Nacked)
    ensures AnsweredBy(Exec(Init(channel), steps), c, v)
  {
    MessagesAlways(Init(channel), steps);
    var s := Exec(Init(channel), steps);
    assert Says(s.calls[c].pc, v);
    assert Backed(s, c, v);
    AnswerOwner(s, c, v);
  }
}
