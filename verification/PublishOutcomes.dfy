/**
 What the confirm protocol makes of a publish, in the terms the retry handler and
 the bulk requeue depend on: what the caller was told, and what the broker did.
 */
module PublishOutcomes {
  import M = Messages
  import opened ConfirmProtocol
  import opened ConfirmVerdicts
  import opened ConfirmMessages
  import opened ConfirmOrigin
  import opened ConfirmSoundness
  import opened ConfirmHazards
  import opened ConfirmLosses

  /** The broker has acked the very message that call `c` sent, so far. */
  ghost predicate TakenByBroker(s: State, c: nat)
    requires c in s.calls
  {
    OwnVerdict(s, c, true)
  }

  /** The call's message, if it sent one, has got its verdict from the broker. */
  ghost predicate IsDecided(s: State, c: nat)
    requires c in s.calls
  {
    WasSent(s.calls[c]) ==> (s.calls[c].sentOn, s.calls[c].number) in s.feed.verdict
  }

  /** How the publish fared, by what the broker has decided so far; final once its message is decided. */
  ghost function VerdictOn(s: State, c: nat): M.PublishVerdict
    requires c in s.calls && s.calls[c].pc.Done?
  {
    if s.calls[c].pc == Done(Acked) then
      if TakenByBroker(s, c) then M.Confirmed else M.FalselyConfirmed
    else
      if TakenByBroker(s, c) then M.TakenButErrored else M.Refused
  }

  lemma DoneStays(s: State, st: Step, c: nat)
    requires Enabled(s, st) && c in s.calls && s.calls[c].pc.Done?
    ensures c in Apply(s, st).calls && Apply(s, st).calls[c] == s.calls[c]
  {
    CallFrame(s, st);
    assert !Environmental(st) ==> st.c != c;
  }

  lemma FinalAcross(s: State, s': State, c: nat)
    requires SentInv(s) && OwnersSent(s) && SentInv(s') && OwnersSent(s') && Keeps(s, s')
    requires c in s.calls && s.calls[c].pc.Done? && IsDecided(s, c)
    requires c in s'.calls && s'.calls[c] == s.calls[c]
    ensures IsDecided(s', c) && VerdictOn(s', c) == VerdictOn(s, c)
  {
    assert !WasSent(s.calls[c]) ==> !OwnVerdict(s, c, true) && !OwnVerdict(s', c, true);
  }

  lemma FinalStep(s: State, st: Step, c: nat)
    requires VerdictInv(s) && SentInv(s) && OwnerInv(s) && Enabled(s, st)
    requires c in s.calls && s.calls[c].pc.Done? && IsDecided(s, c)
    ensures c in Apply(s, st).calls && Apply(s, st).calls[c] == s.calls[c] && IsDecided(Apply(s, st), c)
    ensures VerdictOn(Apply(s, st), c) == VerdictOn(s, c)
  {
    DoneStays(s, st, c);
    SentStep(s, st);
    KeepsStep(s, st);
    FinalAcross(s, Apply(s, st), c);
  }

  /** In every interleaving, once the broker has decided a finished publish's message, how it fared is final. */
  lemma {:induction false} VerdictIsFinal(s: State, more: seq<Step>, c: nat)
    requires VerdictInv(s) && SentInv(s) && OwnerInv(s) && Run(s, more)
    requires c in s.calls && s.calls[c].pc.Done? && IsDecided(s, c)
    ensures c in Exec(s, more).calls && Exec(s, more).calls[c] == s.calls[c]
    ensures VerdictOn(Exec(s, more), c) == VerdictOn(s, c)
    decreases |more|
  {
    if more != [] {
      FinalStep(s, more[0], c);
      VerdictStep(s, more[0]);
      SentStep(s, more[0]);
      VerdictIsFinal(Apply(s, more[0]), more[1..], c);
    }
  }

  /**
   In a run that sends in tag order, a publish with no failed send before it on its
   channel that reports a verdict reports it truthfully and for good: in every
   continuation nil means that the broker took the message, and
   ErrPublishNotConfirmed that it did not.
   */
  lemma SoundPublishIsTruthful(channel: nat, steps: seq<Step>, c: nat, more: seq<Step>)
    requires Run(Init(channel), steps) && Along(Init(channel), steps, InTagOrder)
    requires Run(Exec(Init(channel), steps), more)
    requires c in Exec(Init(channel), steps).calls && Exec(Init(channel), steps).calls[c].lag == 0
    requires Exec(Init(channel), steps).calls[c].pc == Done(Acked)
             || Exec(Init(channel), steps).calls[c].pc == Done(Nacked)
    ensures var s, later := Exec(Init(channel), steps), Exec(Exec(Init(channel), steps), more);
            && IsDecided(s, c) && c in later.calls && later.calls[c].pc == s.calls[c].pc
            && VerdictOn(later, c) == if s.calls[c].pc == Done(Acked) then M.Confirmed else M.Refused
  {
    var s := Exec(Init(channel), steps);
    ConfirmSoundness.ConfirmSoundness(channel, steps, c, s.calls[c].pc == Done(Acked));
    MessagesAlways(Init(channel), steps);
    VerdictIsFinal(s, more, c);
  }

  /** In general it can be: here the broker nacked what `Publish` reported as a success. */
  lemma FalselyConfirmedIsReachable() returns (steps: seq<Step>)
    ensures Run(Init(1), steps)
    ensures var s := Exec(Init(1), steps);
            At(s, 0, Done(Acked)) && IsDecided(s, 0) && VerdictOn(s, 0).FalselyConfirmed?
  {
    steps := ReorderedSendsSwapVerdicts();
  }

  /** And an error can hide an ack, even with epochs apart: the ack nobody listened for ends in a time-out. */
  lemma TakenButErroredIsReachable() returns (steps: seq<Step>)
    ensures Run(Init(1), steps) && Along(Init(1), steps, EpochsApart)
    ensures var s := Exec(Init(1), steps);
            At(s, 1, Done(Unconfirmed)) && IsDecided(s, 1) && VerdictOn(s, 1).TakenButErrored?
  {
    var s: State;
    steps, s := AckedBeforeListener();
    steps, s := ExtendApart(steps, s, TimeOut(1));
    steps, s := ExtendApart(steps, s, Cleanup(1));
  }
}
