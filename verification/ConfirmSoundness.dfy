/**
 Confirm soundness: under which schedules is the verdict that `Publish` reports
 the broker's verdict on the very message it sent?
 */
module ConfirmSoundness {
  import opened ConfirmProtocol
  import opened ConfirmTags
  import opened ConfirmVerdicts
  import opened ConfirmMessages
  import opened ConfirmOrigin

  /**
   Scheduling hypotheses: epochs are kept apart, and the publishes between their
   increment and their send, any number of them, send in the order of their tags.
   */
  ghost predicate InTagOrder(s: State, st: Step) {
    && EpochsApart(s, st)
    && ((st.SendOk? || st.SendErr?) && st.c in s.calls ==>
          forall d <- InFlight(s) :: s.calls[st.c].tag <= s.calls[d].tag)
  }

  /** The sends attempted on the publisher's channel. */
  function Attempts(s: State): nat {
    Count(s.broker.sent, s.core.channelID) + Count(s.broker.failed, s.core.channelID)
  }

  ghost function FlightTags(s: State): set<nat> {
    set c | c in s.calls && Flying(s.calls[c].pc) :: s.calls[c].tag
  }

  /** The tags in flight are exactly those after the sends attempted, each held once. */
  ghost predicate FlightInv(s: State) {
    && (forall t: nat :: t in FlightTags(s) <==> Attempts(s) < t <= s.core.deliveryTag)
    && (forall c, d | c in InFlight(s) && d in InFlight(s) && c != d :: s.calls[c].tag != s.calls[d].tag)
  }

  /** A message was sent after as many failures as its tag is ahead of its number. */
  ghost predicate LagInv(s: State) {
    forall c <- s.calls | WasSent(s.calls[c]) :: s.calls[c].tag == s.calls[c].number + s.calls[c].lag
  }

  lemma CallerFlyingTag(s: State, st: Step)
    requires Enabled(s, st) && !Environmental(st) && Flying(Apply(s, st).calls[st.c].pc)
    ensures if st.Increment? then Apply(s, st).calls[st.c].tag == s.core.deliveryTag + 1
            else st.c in s.calls && Apply(s, st).calls[st.c].tag == s.calls[st.c].tag
  {
  }

  /** Calls that are in flight before and after a step keep their tags. */
  lemma FlyingTagsKept(s: State, st: Step)
    requires Enabled(s, st)
    ensures var s' := Apply(s, st);
            forall c | c in InFlight(s) && c in InFlight(s') :: s'.calls[c].tag == s.calls[c].tag
    ensures st.Increment? ==> Apply(s, st).calls[st.c].tag == s.core.deliveryTag + 1
  {
    CallFrame(s, st);
    FlightAfter(s, st);
    if !Environmental(st) && Flying(Apply(s, st).calls[st.c].pc) {
      CallerFlyingTag(s, st);
    }
  }

  /** The call with the least tag in flight has the first tag after the sends attempted. */
  lemma LeastTag(s: State, c: nat)
    requires FlightInv(s) && c in InFlight(s)
    requires forall d <- InFlight(s) :: s.calls[c].tag <= s.calls[d].tag
    ensures s.calls[c].tag == Attempts(s) + 1
  {
    assert s.calls[c].tag in FlightTags(s);
    var first := Attempts(s) + 1;
    assert first in FlightTags(s);
    var d :| d in s.calls && Flying(s.calls[d].pc) && s.calls[d].tag == first;
    assert d in InFlight(s);
  }

  lemma TagsAfterIncrement(s: State, s': State, c: nat)
    requires FlightInv(s) && c !in InFlight(s) && InFlight(s') == InFlight(s) + {c}
    requires forall d <- InFlight(s) :: s'.calls[d].tag == s.calls[d].tag
    requires s'.calls[c].tag == s'.core.deliveryTag == s.core.deliveryTag + 1
    requires Attempts(s') == Attempts(s) <= s.core.deliveryTag
    ensures FlightInv(s')
  {
    TagsOf(s);
    TagsOf(s');
    forall d <- InFlight(s)
      ensures s.calls[d].tag <= s.core.deliveryTag
    {
      assert s.calls[d].tag in FlightTags(s);
    }
    assert FlightTags(s') == FlightTags(s) + {s'.calls[c].tag};
  }

  lemma TagsOf(s: State)
    ensures FlightTags(s) == set c | c in InFlight(s) :: s.calls[c].tag
  {
  }

  lemma TagsAfterSend(s: State, s': State, c: nat)
    requires FlightInv(s) && c in InFlight(s) && InFlight(s') == InFlight(s) - {c}
    requires forall d <- InFlight(s') :: s'.calls[d].tag == s.calls[d].tag
    requires s'.core.deliveryTag == s.core.deliveryTag
    requires s.calls[c].tag == Attempts(s) + 1 == Attempts(s')
    ensures FlightInv(s')
  {
    TagsOf(s);
    TagsOf(s');
    assert FlightTags(s') == FlightTags(s) - {s.calls[c].tag};
  }

  lemma TagsUnchanged(s: State, s': State)
    requires FlightInv(s) && InFlight(s') == InFlight(s)
    requires forall d <- InFlight(s') :: s'.calls[d].tag == s.calls[d].tag
    requires s'.core.deliveryTag == s.core.deliveryTag && Attempts(s') == Attempts(s)
    ensures FlightInv(s')
  {
    TagsOf(s);
    TagsOf(s');
    assert FlightTags(s') == FlightTags(s);
  }

  lemma TagsAfterReset(s: State, c: nat)
    requires SeenInv(s) && Enabled(s, EnsureLock(c)) && s.calls[c].seen != s.core.channelID
    ensures FlightInv(Apply(s, EnsureLock(c)))
  {
    var s' := Apply(s, EnsureLock(c));
    FlightAfter(s, EnsureLock(c));
    ResetFindsNoneInFlight(s, c);
    assert s.calls[c].seen == s.client > s.core.channelID;
    assert FlightTags(s') == {} by { TagsOf(s'); }
  }

  lemma FlightStep(s: State, st: Step)
    requires SeenInv(s) && Accounted(s) && FlightInv(s) && Enabled(s, st) && InTagOrder(s, st)
    ensures FlightInv(Apply(s, st))
  {
    var s' := Apply(s, st);
    if st.EnsureLock? && s.calls[st.c].seen != s.core.channelID {
      TagsAfterReset(s, st.c);
      return;
    }
    FlightAfter(s, st);
    FlyingTagsKept(s, st);
    CoreFrame(s, st);
    if st.Increment? {
      TagsAfterIncrement(s, s', st.c);
    } else if st.SendOk? || st.SendErr? {
      assert s.core.channelID == s.client;
      LeastTag(s, st.c);
      TagsAfterSend(s, s', st.c);
    } else {
      TagsUnchanged(s, s');
    }
  }

  lemma SendOkLag(s: State, c: nat)
    requires SeenInv(s) && FlightInv(s) && Enabled(s, SendOk(c)) && InTagOrder(s, SendOk(c))
    ensures var call := Apply(s, SendOk(c)).calls[c]; call.tag == call.number + call.lag
  {
    assert s.core.channelID == s.client;
    assert c in InFlight(s);
    LeastTag(s, c);
  }

  lemma LagStep(s: State, st: Step)
    requires SeenInv(s) && SentInv(s) && FlightInv(s) && LagInv(s) && Enabled(s, st) && InTagOrder(s, st)
    ensures LagInv(Apply(s, st))
  {
    CallFrame(s, st);
    if st.SendOk? {
      SendOkLag(s, st.c);
    } else if !Environmental(st) {
      CallerSent(s, st);
    }
  }

  ghost predicate SoundnessInv(s: State) {
    OriginInv(s) && Accounted(s) && FlightInv(s) && LagInv(s)
  }

  lemma {:induction false} SoundnessAlways(s: State, steps: seq<Step>)
    requires Run(s, steps) && Along(s, steps, InTagOrder) && SoundnessInv(s)
    ensures SoundnessInv(Exec(s, steps))
    decreases |steps|
  {
    if steps != [] {
      OriginStep(s, steps[0]);
      AccountedStep(s, steps[0]);
      FlightStep(s, steps[0]);
      LagStep(s, steps[0]);
      SoundnessAlways(Apply(s, steps[0]), steps[1..]);
    }
  }

  lemma LagIsShift(s: State, c: nat, v: bool)
    requires EpochInv(s) && SentInv(s) && OwnerInv(s) && HomeInv(s) && LagInv(s)
    requires Backed(s, c, v) && Says(s.calls[c].pc, v)
    ensures ReportsVerdictAt(s, c, v, s.calls[c].lag)
  {
    assert WasSent(s.calls[c]);
    assert s.calls[c].lag == s.calls[c].tag - s.calls[c].number;
    VerdictOrigin(s, c, v);
  }

  lemma SoundAtFirst(channel: nat)
    ensures SoundnessInv(Init(channel))
  {
    assert InFlight(Init(channel)) == {} && FlightTags(Init(channel)) == {};
  }

  /**
   Main result.  In every run that sends in tag order, across any number of
   reconnects and with any number of publishes in flight, a publish that reports an
   ack or a nack reports the broker's verdict on the message numbered `lag` places
   after its own on the same channel, where `lag` is the number of sends that had
   failed on that channel before its own; so the verdict is the one on its own
   message exactly when no earlier send failed.
   */
  lemma ConfirmSoundness(channel: nat, steps: seq<Step>, c: nat, v: bool)
    requires Run(Init(channel), steps) && Along(Init(channel), steps, InTagOrder)
    requires c in Exec(Init(channel), steps).calls
    requires Exec(Init(channel), steps).calls[c].pc == Done(if v then Acked else Nacked)
    ensures var s := Exec(Init(channel), steps);
            ReportsVerdictAt(s, c, v, s.calls[c].lag)
  {
    SoundAtFirst(channel);
    SoundnessAlways(Init(channel), steps);
    var s := Exec(Init(channel), steps);
    assert Says(s.calls[c].pc, v);
    assert Backed(s, c, v);
    LagIsShift(s, c, v);
  }
}
