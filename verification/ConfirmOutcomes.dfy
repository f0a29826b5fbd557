/**
 How a publish ends, told from its own steps: each error it can return belongs to the
 one step that causes it, over every interleaving.
 */
module ConfirmOutcomes {
  import opened ConfirmCore
  import opened ConfirmProtocol

  /** Some step of the run is as `h` says, in the state it is taken from. */
  ghost predicate Happens(s: State, steps: seq<Step>, h: (State, Step) -> bool)
    requires Run(s, steps)
    decreases |steps|
  {
    steps != [] && (h(s, steps[0]) || Happens(Apply(s, steps[0]), steps[1..], h))
  }

  /** The step of call `c` that settles how it ends, and the outcome it leads to. */
  predicate Causes(s: State, st: Step, c: nat, o: Outcome) {
    match o
    case SendError => st == SendErr(c)
    case Cancelled => st == Cancel(c)
    case ClientClosed => st == Check(c) && s.closed
    case NoChannel => st == Check(c) && !s.closed && s.client == 0
    case Acked => st == Receive(c) && ChanOf(s.core, c).buf != [] && ChanOf(s.core, c).buf[0]
    case Nacked => st == Receive(c) && ChanOf(s.core, c).buf != [] && !ChanOf(s.core, c).buf[0]
    case Unconfirmed => st == TimeOut(c) || (st == Receive(c) && ChanOf(s.core, c).buf == [])
  }

  /** The call's end is settled, and it is on its way there: batch slots delete and close after a failed send. */
  predicate EndsIn(pc: Pc, o: Outcome) {
    pc == Cleaning(o) || pc == Done(o) || (o == SendError && (pc.Dropping? || pc.Closing?))
  }

  /** Steps that settle how the call ends. */
  predicate Settling(st: Step) {
    st.SendErr? || st.Cancel? || st.Check? || st.Receive? || st.TimeOut?
  }

  /** Steps on the way to an end that is settled. */
  predicate Finishing(st: Step) {
    st.Cleanup? || st.Drop? || st.CloseOwn?
  }

  lemma ReceiveEnds(s: State, c: nat, o: Outcome)
    requires Enabled(s, Receive(c))
    ensures EndsIn(Apply(s, Receive(c)).calls[c].pc, o) <==> Causes(s, Receive(c), c, o)
  {
  }

  lemma CheckEnds(s: State, c: nat, o: Outcome)
    requires Enabled(s, Check(c))
    ensures EndsIn(Apply(s, Check(c)).calls[c].pc, o) <==> Causes(s, Check(c), c, o)
  {
  }

  lemma GivesUpEnds(s: State, st: Step, o: Outcome)
    requires Enabled(s, st) && (st.SendErr? || st.Cancel? || st.TimeOut?)
    ensures EndsIn(Apply(s, st).calls[st.c].pc, o) <==> Causes(s, st, st.c, o)
  {
  }

  lemma SettlingEnds(s: State, st: Step, o: Outcome)
    requires Enabled(s, st) && Settling(st)
    ensures EndsIn(Apply(s, st).calls[st.c].pc, o) <==> Causes(s, st, st.c, o)
    ensures !EndsIn(s.calls[st.c].pc, o)
  {
    if st.Receive? {
      ReceiveEnds(s, st.c, o);
    } else if st.Check? {
      CheckEnds(s, st.c, o);
    } else {
      GivesUpEnds(s, st, o);
    }
  }

  lemma FinishingEnds(s: State, st: Step, o: Outcome)
    requires Enabled(s, st) && Finishing(st)
    ensures EndsIn(Apply(s, st).calls[st.c].pc, o) <==> EndsIn(s.calls[st.c].pc, o)
    ensures !Causes(s, st, st.c, o)
  {
  }

  lemma OthersEndNothing(s: State, st: Step, o: Outcome)
    requires Enabled(s, st) && !Environmental(st) && !Settling(st) && !Finishing(st)
    ensures !EndsIn(Apply(s, st).calls[st.c].pc, o) && (st.c in s.calls ==> !EndsIn(s.calls[st.c].pc, o))
  {
  }

  lemma CausesOwn(s: State, st: Step, c: nat, o: Outcome)
    requires Causes(s, st, c, o)
    ensures Settling(st) && !Environmental(st) && st.c == c
  {
  }

  /** A step settles the end of a call exactly if it is a cause of it. */
  lemma EndsStep(s: State, st: Step, c: nat, o: Outcome)
    requires Enabled(s, st)
    ensures c in Apply(s, st).calls && EndsIn(Apply(s, st).calls[c].pc, o) <==>
            Causes(s, st, c, o) || (c in s.calls && EndsIn(s.calls[c].pc, o))
  {
    CallFrame(s, st);
    if Environmental(st) || st.c != c {
      if Causes(s, st, c, o) {
        CausesOwn(s, st, c, o);
      }
    } else if Settling(st) {
      SettlingEnds(s, st, o);
    } else {
      if Causes(s, st, c, o) {
        CausesOwn(s, st, c, o);
      }
      if Finishing(st) {
        FinishingEnds(s, st, o);
      } else {
        OthersEndNothing(s, st, o);
      }
    }
  }

  function Cause(c: nat, o: Outcome): (State, Step) -> bool {
    (s, st) => Causes(s, st, c, o)
  }

  lemma {:induction false} EndsFrom(s: State, steps: seq<Step>, c: nat, o: Outcome)
    requires Run(s, steps)
    ensures c in Exec(s, steps).calls && EndsIn(Exec(s, steps).calls[c].pc, o) <==>
            Happens(s, steps, Cause(c, o)) || (c in s.calls && EndsIn(s.calls[c].pc, o))
    decreases |steps|
  {
    if steps != [] {
      EndsStep(s, steps[0], c, o);
      EndsFrom(Apply(s, steps[0]), steps[1..], c, o);
    }
  }

  // ----- a call that never sent -----

  predicate Early(pc: Pc) {
    pc.Start? || pc.Read? || pc.SetupDue? || pc.Checking? || EndsIn(pc, ClientClosed) || EndsIn(pc, NoChannel)
  }

  /** A call that has not passed the checks has taken no tag and sent nothing. */
  ghost predicate EarlyInv(s: State) {
    forall c <- s.calls | Early(s.calls[c].pc) :: SentNothing(s, c)
  }

  /** Only these steps of a call leave it early. */
  predicate Opening(st: Step) {
    st.Begin? || st.EnsureRead? || st.EnsureLock? || st.Setup? || st.Check? || st.Cleanup?
  }

  lemma OthersPassOn(s: State, st: Step)
    requires Enabled(s, st) && !Environmental(st) && !Opening(st)
    ensures !Early(Apply(s, st).calls[st.c].pc)
  {
  }

  lemma CallerEarly(s: State, st: Step)
    requires Enabled(s, st) && Opening(st) && Early(Apply(s, st).calls[st.c].pc)
    ensures Apply(s, st).broker == s.broker
    ensures st.c in s.calls ==> Early(s.calls[st.c].pc)
    ensures var call := Apply(s, st).calls[st.c];
            if st.c in s.calls then call.number == s.calls[st.c].number && call.tag == s.calls[st.c].tag
            else call.number == 0 && call.tag == 0
  {
  }

  /** Messages belong to calls that exist. */
  ghost predicate OwnersExist(s: State) {
    forall m <- s.broker.owner :: s.broker.owner[m] in s.calls
  }

  lemma OwnersStep(s: State, st: Step)
    requires OwnersExist(s) && Enabled(s, st)
    ensures OwnersExist(Apply(s, st))
  {
    CallFrame(s, st);
    BrokerFrame(s, st);
  }

  /** What holds of a call that is early. */
  ghost predicate SentNothing(s: State, c: nat)
    requires c in s.calls
  {
    s.calls[c].number == 0 && s.calls[c].tag == 0 && forall m <- s.broker.owner :: s.broker.owner[m] != c
  }

  lemma OthersStayEarly(s: State, st: Step, c: nat)
    requires EarlyInv(s) && OwnersExist(s) && Enabled(s, st) && (Environmental(st) || st.c != c)
    requires c in Apply(s, st).calls && Early(Apply(s, st).calls[c].pc)
    ensures SentNothing(Apply(s, st), c)
  {
    CallFrame(s, st);
    BrokerFrame(s, st);
    assert SentNothing(s, c);
  }

  lemma CallerStaysEarly(s: State, st: Step)
    requires EarlyInv(s) && OwnersExist(s) && Enabled(s, st) && !Environmental(st)
    requires Early(Apply(s, st).calls[st.c].pc)
    ensures SentNothing(Apply(s, st), st.c)
  {
    if !Opening(st) {
      OthersPassOn(s, st);
    }
    CallerEarly(s, st);
    assert st.c in s.calls ==> SentNothing(s, st.c);
  }

  lemma EarlyStep(s: State, st: Step)
    requires OwnersExist(s) && EarlyInv(s) && Enabled(s, st)
    ensures EarlyInv(Apply(s, st))
  {
    forall c <- Apply(s, st).calls | Early(Apply(s, st).calls[c].pc)
      ensures SentNothing(Apply(s, st), c)
    {
      if !Environmental(st) && st.c == c {
        CallerStaysEarly(s, st);
      } else {
        OthersStayEarly(s, st, c);
      }
    }
  }

  lemma {:induction false} EarlyAlways(s: State, steps: seq<Step>)
    requires Run(s, steps) && OwnersExist(s) && EarlyInv(s)
    ensures OwnersExist(Exec(s, steps)) && EarlyInv(Exec(s, steps))
    decreases |steps|
  {
    if steps != [] {
      OwnersStep(s, steps[0]);
      EarlyStep(s, steps[0]);
      EarlyAlways(Apply(s, steps[0]), steps[1..]);
    }
  }

  /**
   Main result.  In every interleaving a publish that has finished returned the error
   of a refused send, a cancellation, a closed client, a missing channel, a time-out
   or closed result channel, a nack, or nil, exactly if its own steps have the one
   that causes it; and one that found the client closed or without channel has
   neither taken a tag nor sent a message.
   */
  lemma OutcomeExactly(channel: nat, steps: seq<Step>, c: nat, o: Outcome)
    requires Run(Init(channel), steps)
    requires c in Exec(Init(channel), steps).calls && Exec(Init(channel), steps).calls[c].pc.Done?
    ensures var s := Exec(Init(channel), steps);
            && (s.calls[c].pc == Done(o) <==> Happens(Init(channel), steps, Cause(c, o)))
            && (s.calls[c].pc == Done(ClientClosed) || s.calls[c].pc == Done(NoChannel) ==>
                  SentNothing(s, c))
  {
    EndsFrom(Init(channel), steps, c, o);
    EarlyAlways(Init(channel), steps);
  }

  // ----- who cleans up -----

  /** What has happened to a call: its time-out, its cleanup, and the two steps of a batch slot whose send failed. */
  datatype Past = Past(timedOut: bool, cleaned: bool, dropped: bool, closed: bool)

  const NOTHING := Past(false, false, false, false)

  function PastAfter(p: Past, st: Step, c: nat): Past {
    Past(p.timedOut || st == TimeOut(c), p.cleaned || st == Cleanup(c),
         p.dropped || st == Drop(c), p.closed || st == CloseOwn(c))
  }

  /** A publish that is not confirmed cleans up, whatever the reason; a batch slot only after a time-out. */
  predicate CleansUp(kind: Kind, o: Outcome, p: Past) {
    if kind == Single then o == SendError || o == Cancelled || o == Unconfirmed || o == Nacked else p.timedOut
  }

  /** How far a call has come, and what it has done for it. */
  predicate PastFits(call: Call, p: Past) {
    match call.pc
    case Cleaning(o) =>
      && !p.cleaned && !p.dropped && !p.closed && CleansUp(call.kind, o, p)
      && (call.kind == Batch ==> o == Unconfirmed)
    case Dropping => call.kind == Batch && p == NOTHING
    case Closing => call.kind == Batch && p == NOTHING.(dropped := true)
    case Done(o) =>
      && (p.cleaned <==> CleansUp(call.kind, o, p))
      && (p.dropped <==> call.kind == Batch && o == SendError) && (p.closed <==> p.dropped)
    case _ => p == NOTHING
  }

  ghost predicate Fits(s: State, c: nat, p: Past) {
    if c in s.calls then PastFits(s.calls[c], p) else p == NOTHING
  }

  lemma ReceiveFits(s: State, c: nat, p: Past)
    requires Enabled(s, Receive(c)) && PastFits(s.calls[c], p)
    ensures PastFits(Apply(s, Receive(c)).calls[c], PastAfter(p, Receive(c), c))
  {
  }

  lemma SettlingFits(s: State, st: Step, p: Past)
    requires Enabled(s, st) && Settling(st) && PastFits(s.calls[st.c], p)
    ensures PastFits(Apply(s, st).calls[st.c], PastAfter(p, st, st.c))
  {
    if st.Receive? {
      ReceiveFits(s, st.c, p);
    }
  }

  lemma FinishingFits(s: State, st: Step, p: Past)
    requires Enabled(s, st) && Finishing(st) && PastFits(s.calls[st.c], p)
    ensures PastFits(Apply(s, st).calls[st.c], PastAfter(p, st, st.c))
  {
  }

  lemma OthersFit(s: State, st: Step, p: Past)
    requires Enabled(s, st) && !Environmental(st) && !Settling(st) && !Finishing(st) && Fits(s, st.c, p)
    ensures PastFits(Apply(s, st).calls[st.c], PastAfter(p, st, st.c))
  {
  }

  lemma NothingNew(st: Step, c: nat, p: Past)
    requires Environmental(st) || st.c != c
    ensures PastAfter(p, st, c) == p
  {
  }

  lemma Unmoved(s: State, st: Step, c: nat)
    requires Enabled(s, st) && (Environmental(st) || st.c != c)
    ensures c in Apply(s, st).calls <==> c in s.calls
    ensures c in s.calls ==> Apply(s, st).calls[c] == s.calls[c]
  {
    CallFrame(s, st);
  }

  lemma FitsStep(s: State, st: Step, c: nat, p: Past)
    requires Enabled(s, st) && Fits(s, c, p)
    ensures Fits(Apply(s, st), c, PastAfter(p, st, c))
  {
    if Environmental(st) || st.c != c {
      Unmoved(s, st, c);
      NothingNew(st, c, p);
    } else {
      CallFrame(s, st);
      if Settling(st) {
        SettlingFits(s, st, p);
      } else if Finishing(st) {
        FinishingFits(s, st, p);
      } else {
        OthersFit(s, st, p);
      }
    }
  }

  lemma {:induction false} FitsFrom(s: State, steps: seq<Step>, c: nat, p: Past)
    requires Run(s, steps) && Fits(s, c, p)
    ensures Fits(Exec(s, steps), c, Past(p.timedOut || TimeOut(c) in steps, p.cleaned || Cleanup(c) in steps,
                                         p.dropped || Drop(c) in steps, p.closed || CloseOwn(c) in steps))
    decreases |steps|
  {
    if steps != [] {
      FitsStep(s, steps[0], c, p);
      FitsFrom(Apply(s, steps[0]), steps[1..], c, PastAfter(p, steps[0], c));
      assert steps == [steps[0]] + steps[1..];
    }
  }

  /** Which step began the call. */
  predicate Began(st: Step, c: nat, kind: Kind) {
    st == Begin(c, kind) || (kind == Batch && st.BeginSlot? && st.c == c)
  }

  lemma CallerKind(s: State, st: Step)
    requires Enabled(s, st) && !Environmental(st)
    ensures var kind := Apply(s, st).calls[st.c].kind;
            if st.c in s.calls then kind == s.calls[st.c].kind else Began(st, st.c, kind)
    ensures st.c in s.calls <==> !st.Begin? && !st.BeginSlot?
  {
  }

  /** A call is of the kind its first step says: a publish, or one slot of a batch. */
  lemma {:induction false} KindExactly(s: State, steps: seq<Step>, c: nat)
    requires Run(s, steps) && c !in s.calls && c in Exec(s, steps).calls
    ensures exists i | 0 <= i < |steps| :: Began(steps[i], c, Exec(s, steps).calls[c].kind)
    decreases |steps|
  {
    var s' := Apply(s, steps[0]);
    CallFrame(s, steps[0]);
    if c in s'.calls {
      CallerKind(s, steps[0]);
      KindStays(s', steps[1..], c);
      assert Began(steps[0], c, Exec(s, steps).calls[c].kind);
    } else {
      KindExactly(s', steps[1..], c);
      var i :| 0 <= i < |steps[1..]| && Began(steps[1..][i], c, Exec(s, steps).calls[c].kind);
      assert Began(steps[i + 1], c, Exec(s, steps).calls[c].kind);
    }
  }

  lemma {:induction false} KindStays(s: State, steps: seq<Step>, c: nat)
    requires Run(s, steps) && c in s.calls
    ensures c in Exec(s, steps).calls && Exec(s, steps).calls[c].kind == s.calls[c].kind
    decreases |steps|
  {
    if steps != [] {
      CallFrame(s, steps[0]);
      if !Environmental(steps[0]) {
        CallerKind(s, steps[0]);
      }
      KindStays(Apply(s, steps[0]), steps[1..], c);
    }
  }

  /**
   In every interleaving a publish that has finished has run its cleanup exactly if it
   registered and did not return nil; a slot of a batch has done so exactly if it
   timed out, and has deleted its entry and closed its channel exactly if its send
   failed.
   */
  lemma CleansUpExactly(channel: nat, steps: seq<Step>, c: nat, o: Outcome)
    requires Run(Init(channel), steps)
    requires c in Exec(Init(channel), steps).calls && Exec(Init(channel), steps).calls[c].pc == Done(o)
    ensures var call := Exec(Init(channel), steps).calls[c];
            && (Cleanup(c) in steps <==>
                  if call.kind == Single then o == SendError || o == Cancelled || o == Unconfirmed || o == Nacked
                  else TimeOut(c) in steps)
            && (Drop(c) in steps <==> call.kind == Batch && o == SendError)
            && (CloseOwn(c) in steps <==> call.kind == Batch && o == SendError)
            && exists i | 0 <= i < |steps| :: Began(steps[i], c, call.kind)
  {
    KindExactly(Init(channel), steps, c);
    FitsFrom(Init(channel), steps, c, NOTHING);
  }
}
