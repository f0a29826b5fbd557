/**
 What a batch reports, told from the fates of its messages: which events count as
 successes, which are listed as failures, with which error, and what is returned.
 */
module BatchFates {
  import opened Messages
  import opened Batch

  /** The publisher has no error to report: with confirms only an ack will do. */
  predicate Delivered(fate: Fate, confirms: bool) {
    if confirms then fate.Acked? else !fate.SendFails?
  }

  /** The error that tells of this fate. */
  predicate TellsOf(fate: Fate, confirms: bool, error: Error) {
    match error
    case PublishRejected => fate.SendFails?
    case NotConfirmed => confirms && fate.Nacked?
    case ConfirmTimeout => confirms && (fate.TimesOut? || fate.ResultChannelClosed?)
    case ContextDone => confirms && fate.ContextEnds?
    case _ => false
  }

  /** The event goes through: it serialises, the client is open and has a channel, and it is delivered. */
  predicate GoesThrough(e: Event, fate: Fate, link: Link) {
    e.body.Some? && !link.closed && link.hasChannel && Delivered(fate, link.confirms)
  }

  predicate Explains(e: Event, fate: Fate, link: Link, error: Error) {
    if e.body.None? then error == SerialiseError
    else if link.closed then error == ClientClosed
    else if !link.hasChannel then error == NoChannel
    else TellsOf(fate, link.confirms, error)
  }

  lemma FateIsTold(fate: Fate, confirms: bool)
    ensures ErrorOf(fate, confirms).None? <==> Delivered(fate, confirms)
    ensures ErrorOf(fate, confirms).Some? ==> TellsOf(fate, confirms, ErrorOf(fate, confirms).value)
  {
  }

  lemma ErrorIsExplained(e: Event, fate: Fate, link: Link)
    ensures PublishError(e, fate, link).None? <==> GoesThrough(e, fate, link)
    ensures PublishError(e, fate, link).Some? ==> Explains(e, fate, link, PublishError(e, fate, link).value)
  {
    FateIsTold(fate, link.confirms);
  }

  // ----- results as lists -----

  function Fine(errs: seq<Option<Error>>): nat {
    if errs == [] then 0 else Fine(errs[..|errs| - 1]) + (if errs[|errs| - 1].None? then 1 else 0)
  }

  /** One entry for each error, with its index and event, in order. */
  function Entries(events: seq<Event>, errs: seq<Option<Error>>): seq<BatchError>
    requires |errs| <= |events|
  {
    if errs == [] then []
    else
      var n := |errs| - 1;
      Entries(events, errs[..n]) + if errs[n].Some? then [BatchError(n, events[n], errs[n].value)] else []
  }

  lemma {:induction false} AddUpLists(r: BatchResult, events: seq<Event>, errs: seq<Option<Error>>, n: nat)
    requires n <= |events| && n <= |errs|
    ensures var q := AddUp(r, events, errs, n);
            && q.total == r.total && q.success == r.success + Fine(errs[..n])
            && q.failed == r.failed + n - Fine(errs[..n]) && q.errors == r.errors + Entries(events, errs[..n])
  {
    if n > 0 {
      AddUpLists(r, events, errs, n - 1);
      assert errs[..n][..n - 1] == errs[..n - 1];
    }
  }

  lemma {:induction false} AddFailuresLists(r: BatchResult, events: seq<Event>, errs: seq<Option<Error>>, n: nat)
    requires n <= |events| && n <= |errs|
    ensures var q := AddFailures(r, events, errs, n);
            && q.total == r.total && q.success == r.success
            && q.failed == r.failed + n - Fine(errs[..n]) && q.errors == r.errors + Entries(events, errs[..n])
  {
    if n > 0 {
      AddFailuresLists(r, events, errs, n - 1);
      assert errs[..n][..n - 1] == errs[..n - 1];
    }
  }

  /** The list has every error, with its index and event, and no other entry. */
  ghost predicate Records(events: seq<Event>, errs: seq<Option<Error>>, list: seq<BatchError>)
    requires |errs| <= |events|
  {
    && (forall b <- list :: b.index < |errs| && errs[b.index] == Some(b.error) && b.event == events[b.index])
    && (forall i | 0 <= i < |errs| && errs[i].Some? :: BatchError(i, events[i], errs[i].value) in list)
  }

  lemma OneMoreRecord(events: seq<Event>, errs: seq<Option<Error>>, list: seq<BatchError>)
    requires 0 < |errs| <= |events| && Records(events, errs[..|errs| - 1], list)
    ensures var n := |errs| - 1;
            var last := if errs[n].Some? then [BatchError(n, events[n], errs[n].value)] else [];
            Records(events, errs, list + last)
  {
  }

  lemma {:induction false} EntriesRecord(events: seq<Event>, errs: seq<Option<Error>>)
    requires |errs| <= |events|
    ensures Records(events, errs, Entries(events, errs))
  {
    if errs != [] {
      EntriesRecord(events, errs[..|errs| - 1]);
      OneMoreRecord(events, errs, Entries(events, errs[..|errs| - 1]));
    }
  }

  lemma {:induction false} EntriesIncrease(events: seq<Event>, errs: seq<Option<Error>>)
    requires |errs| <= |events|
    ensures |Entries(events, errs)| == |errs| - Fine(errs)
    ensures Increasing(Entries(events, errs), |errs|)
  {
    if errs != [] {
      EntriesIncrease(events, errs[..|errs| - 1]);
    }
  }

  lemma EntriesHold(events: seq<Event>, errs: seq<Option<Error>>)
    requires |errs| <= |events|
    ensures Records(events, errs, Entries(events, errs))
    ensures |Entries(events, errs)| == |errs| - Fine(errs)
    ensures Increasing(Entries(events, errs), |errs|)
  {
    EntriesRecord(events, errs);
    EntriesIncrease(events, errs);
  }

  // ----- counting from the events and fates -----

  function ThroughCount(events: seq<Event>, fates: seq<Fate>, link: Link): nat
    requires |events| == |fates|
  {
    if events == [] then 0
    else
      var n := |events| - 1;
      ThroughCount(events[..n], fates[..n], link) + (if GoesThrough(events[n], fates[n], link) then 1 else 0)
  }

  function DeliveredCount(fates: seq<Fate>, confirms: bool): nat {
    if fates == [] then 0
    else DeliveredCount(fates[..|fates| - 1], confirms) + (if Delivered(fates[|fates| - 1], confirms) then 1 else 0)
  }

  lemma {:induction false} FineSequential(events: seq<Event>, fates: seq<Fate>, link: Link)
    requires |events| == |fates|
    ensures Fine(SequentialErrors(events, fates, link)) == ThroughCount(events, fates, link)
  {
    if events != [] {
      var n := |events| - 1;
      FineSequential(events[..n], fates[..n], link);
      ErrorIsExplained(events[n], fates[n], link);
      assert SequentialErrors(events, fates, link)[..n] == SequentialErrors(events[..n], fates[..n], link);
    }
  }

  lemma {:induction false} FinePipelined(fates: seq<Fate>, confirms: bool)
    ensures Fine(PipelineErrors(fates, confirms)) == DeliveredCount(fates, confirms)
  {
    if fates != [] {
      var n := |fates| - 1;
      FinePipelined(fates[..n], confirms);
      FateIsTold(fates[n], confirms);
      assert PipelineErrors(fates, confirms)[..n] == PipelineErrors(fates[..n], confirms);
    }
  }

  lemma {:induction false} FineSerialised(events: seq<Event>)
    ensures Fine(SerialiseErrors(events)) == |events| - CountFailing(events)
  {
    if events != [] {
      var n := |events| - 1;
      FineSerialised(events[..n]);
      assert SerialiseErrors(events)[..n] == SerialiseErrors(events[..n]);
    }
  }

  /** The messages of the events that serialise. */
  function Carried(events: seq<Event>): seq<Wire> {
    if events == [] then []
    else
      var e := events[|events| - 1];
      Carried(events[..|events| - 1]) + if e.body.Some? then [Wire(e.exchange, e.typ, e.body.value)] else []
  }

  lemma {:induction false} SentAreCarried(events: seq<Event>, link: Link)
    ensures SentFor(events, link) == if link.closed || !link.hasChannel then [] else Carried(events)
  {
    if events != [] {
      SentAreCarried(events[..|events| - 1], link);
    }
  }

  /** The list has exactly one entry with this index, and it is this one. */
  ghost predicate ListedOnce(errors: seq<BatchError>, b: BatchError) {
    b in errors && forall i, j | 0 <= i < j < |errors| :: !(errors[i].index == b.index && errors[j].index == b.index)
  }

  ghost predicate Unlisted(errors: seq<BatchError>, i: nat) {
    forall b <- errors :: b.index != i
  }

  /**
   Sequential publishing without FailFast: the successes are the events that went
   through, and every other event is listed exactly once, with the error that
   explains it.
   */
  lemma SequentialFates(events: seq<Event>, fates: seq<Fate>, link: Link)
    requires |fates| == |events|
    ensures var s := SequentialOutcome(events, fates, link, false);
            && s.1 == None && s.0.total == |events|
            && s.0.success == ThroughCount(events, fates, link) && s.0.failed == |events| - s.0.success
            && s.2 == (if link.closed || !link.hasChannel then [] else Carried(events))
            && (forall i | 0 <= i < |events| && GoesThrough(events[i], fates[i], link) :: Unlisted(s.0.errors, i))
            && (forall i | 0 <= i < |events| && !GoesThrough(events[i], fates[i], link) ::
                  exists e :: Explains(events[i], fates[i], link, e)
                              && ListedOnce(s.0.errors, BatchError(i, events[i], e)))
  {
    var errs := SequentialErrors(events, fates, link);
    assert errs[..|events|] == errs;
    AddUpLists(Start(events), events, errs, |events|);
    SentAreCarried(events, link);
    assert events[..|events|] == events;
    EntriesHold(events, errs);
    FineSequential(events, fates, link);
    var errors := SequentialOutcome(events, fates, link, false).0.errors;
    assert errors == Entries(events, errs);
    forall i | 0 <= i < |events| && !GoesThrough(events[i], fates[i], link)
      ensures exists e :: Explains(events[i], fates[i], link, e) && ListedOnce(errors, BatchError(i, events[i], e))
    {
      ErrorIsExplained(events[i], fates[i], link);
      assert ListedOnce(errors, BatchError(i, events[i], errs[i].value));
    }
    forall i | 0 <= i < |events| && GoesThrough(events[i], fates[i], link)
      ensures Unlisted(errors, i)
    {
      ErrorIsExplained(events[i], fates[i], link);
    }
  }

  lemma {:induction false} NoErrors(events: seq<Event>, errs: seq<Option<Error>>)
    requires |errs| <= |events| && forall i | 0 <= i < |errs| :: errs[i].None?
    ensures Entries(events, errs) == [] && Fine(errs) == |errs|
  {
    if errs != [] {
      NoErrors(events, errs[..|errs| - 1]);
    }
  }

  /** What adding up to the first error gives. */
  lemma AddUpToFirst(events: seq<Event>, errs: seq<Option<Error>>, k: nat)
    requires k < |errs| == |events| && (forall j | 0 <= j < k :: errs[j].None?) && errs[k].Some?
    ensures AddUp(Start(events), events, errs, k + 1)
            == BatchResult(|events|, k, 1, [BatchError(k, events[k], errs[k].value)])
    ensures Extent(errs, true) == k + 1 && ReturnedError(errs, true) == errs[k]
  {
    FirstErrorIs(errs, k);
    AddUpLists(Start(events), events, errs, k + 1);
    assert errs[..k + 1][..k] == errs[..k];
    NoErrors(events, errs[..k]);
  }

  /**
   Under FailFast sequential publishing returns the error that explains the first
   event that does not go through, with the events before it as successes; if all
   go through there is no error.
   */
  lemma SequentialFailsFast(events: seq<Event>, fates: seq<Fate>, link: Link, k: nat)
    requires k <= |fates| == |events| && forall j | 0 <= j < k :: GoesThrough(events[j], fates[j], link)
    requires k < |events| ==> !GoesThrough(events[k], fates[k], link)
    ensures var s := SequentialOutcome(events, fates, link, true);
            && (if k == |events| then s.0 == BatchResult(k, k, 0, []) && s.1 == None
                else exists e :: && Explains(events[k], fates[k], link, e) && s.1 == Some(e)
                                 && s.0 == BatchResult(|events|, k, 1, [BatchError(k, events[k], e)]))
            && s.2 == (if link.closed || !link.hasChannel then []
                       else Carried(events[..if k < |events| then k + 1 else k]))
  {
    var errs := SequentialErrors(events, fates, link);
    forall j | 0 <= j < |events|
      ensures errs[j].None? <==> GoesThrough(events[j], fates[j], link)
      ensures errs[j].Some? ==> Explains(events[j], fates[j], link, errs[j].value)
    {
      ErrorIsExplained(events[j], fates[j], link);
    }
    if k < |events| {
      AddUpToFirst(events, errs, k);
    } else {
      FirstErrorIs(errs, k);
      AddUpLists(Start(events), events, errs, k);
      assert errs[..k] == errs;
      NoErrors(events, errs);
    }
    SentAreCarried(events[..Extent(errs, true)], link);
  }

  /** Nothing is in the way of the pipeline: the client is open, has a channel, and no wait is cut short. */
  predicate Flows(fates: seq<Fate>, link: Link) {
    !link.closed && link.hasChannel && !(link.confirms && exists i | 0 <= i < |fates| :: fates[i].ContextEnds?)
  }

  lemma BothLists(events: seq<Event>, ser: seq<Option<Error>>, errs: seq<Option<Error>>)
    requires |ser| == |errs| == |events|
    ensures var r := AddUp(AddFailures(Start(events), events, ser, |events|), events, errs, |events|);
            && r.total == |events| && r.success == Fine(errs)
            && r.failed == |events| - Fine(ser) + |events| - Fine(errs)
            && r.errors == Entries(events, ser) + Entries(events, errs)
  {
    assert ser[..|events|] == ser && errs[..|events|] == errs;
    AddFailuresLists(Start(events), events, ser, |events|);
    AddUpLists(AddFailures(Start(events), events, ser, |events|), events, errs, |events|);
  }

  lemma PipelineLists(events: seq<Event>, fates: seq<Fate>, link: Link)
    requires |fates| == |events| && Flows(fates, link)
    ensures var p := PipelineOutcome(events, fates, link, false);
            var ser, errs := SerialiseErrors(events), PipelineErrors(fates, link.confirms);
            && p.1 == None && p.2 == WiresOf(events)
            && p.0 == AddUp(AddFailures(Start(events), events, ser, |events|), events, errs, |events|)
  {
  }

  /** Every message not delivered and every event not serialised is listed, and nothing else. */
  ghost predicate Lists(events: seq<Event>, fates: seq<Fate>, confirms: bool, errors: seq<BatchError>)
    requires |fates| == |events|
  {
    && (forall i | 0 <= i < |events| && !Delivered(fates[i], confirms) ::
          exists e :: TellsOf(fates[i], confirms, e) && BatchError(i, events[i], e) in errors)
    && (forall i | 0 <= i < |events| && events[i].body.None? :: BatchError(i, events[i], SerialiseError) in errors)
    && (forall b <- errors ::
          && b.index < |events| && b.event == events[b.index]
          && (TellsOf(fates[b.index], confirms, b.error)
              || (b.error == SerialiseError && events[b.index].body.None?)))
  }

  lemma ListsBoth(
    events: seq<Event>, fates: seq<Fate>, confirms: bool, ser: seq<Option<Error>>, errs: seq<Option<Error>>,
    first: seq<BatchError>, second: seq<BatchError>)
    requires |fates| == |events| == |ser| == |errs| && Told(fates, confirms, errs)
    requires forall i | 0 <= i < |events| :: ser[i] == if events[i].body.Some? then None else Some(SerialiseError)
    requires Records(events, ser, first) && Records(events, errs, second)
    ensures Lists(events, fates, confirms, first + second)
  {
    forall i | 0 <= i < |events| && !Delivered(fates[i], confirms)
      ensures exists e :: TellsOf(fates[i], confirms, e) && BatchError(i, events[i], e) in first + second
    {
      assert BatchError(i, events[i], errs[i].value) in second;
    }
    forall i | 0 <= i < |events| && events[i].body.None?
      ensures BatchError(i, events[i], SerialiseError) in first + second
    {
      assert BatchError(i, events[i], ser[i].value) in first;
    }
  }

  /**
   Pipelined publishing without FailFast: the successes are the messages delivered,
   every other one is listed with the error that tells of its fate, every event that
   did not serialise is listed as well, and nothing else is; each event's message is
   sent with its exchange, type and body, or as the zero message.
   */
  lemma PipelineFates(events: seq<Event>, fates: seq<Fate>, link: Link)
    requires |fates| == |events| && Flows(fates, link)
    ensures var p := PipelineOutcome(events, fates, link, false);
            && p.1 == None && p.0.total == |events|
            && p.0.success == DeliveredCount(fates, link.confirms)
            && p.0.failed == |events| - p.0.success + CountFailing(events) && |p.0.errors| == p.0.failed
            && Lists(events, fates, link.confirms, p.0.errors)
            && |p.2| == |events|
            && (forall i | 0 <= i < |events| ::
                  p.2[i] == if events[i].body.Some? then Wire(events[i].exchange, events[i].typ, events[i].body.value)
                            else Wire("", "", ""))
  {
    var ser, errs := SerialiseErrors(events), PipelineErrors(fates, link.confirms);
    PipelineLists(events, fates, link);
    BothLists(events, ser, errs);
    EntriesHold(events, ser);
    EntriesHold(events, errs);
    PipelineErrorsTell(fates, link.confirms);
    ListsBoth(events, fates, link.confirms, ser, errs, Entries(events, ser), Entries(events, errs));
    FinePipelined(fates, link.confirms);
    FineSerialised(events);
  }

  /** The errors tell of the fates, slot by slot. */
  ghost predicate Told(fates: seq<Fate>, confirms: bool, errs: seq<Option<Error>>) {
    && |errs| == |fates|
    && (forall i | 0 <= i < |fates| ::
          && (errs[i].None? <==> Delivered(fates[i], confirms))
          && (errs[i].Some? ==> TellsOf(fates[i], confirms, errs[i].value)))
  }

  lemma PipelineErrorsTell(fates: seq<Fate>, confirms: bool)
    ensures Told(fates, confirms, PipelineErrors(fates, confirms))
  {
    forall i | 0 <= i < |fates|
      ensures PipelineErrors(fates, confirms)[i].None? <==> Delivered(fates[i], confirms)
      ensures PipelineErrors(fates, confirms)[i].Some? ==>
                TellsOf(fates[i], confirms, PipelineErrors(fates, confirms)[i].value)
    {
      FateIsTold(fates[i], confirms);
    }
  }

  /** Under FailFast the pipeline returns the error that tells of the first message not delivered. */
  lemma PipelineFailsFast(events: seq<Event>, fates: seq<Fate>, link: Link, k: nat)
    requires k <= |fates| == |events| && Flows(fates, link) && forall e <- events :: e.body.Some?
    requires (forall j | 0 <= j < k :: Delivered(fates[j], link.confirms))
    requires k < |events| ==> !Delivered(fates[k], link.confirms)
    ensures var p := PipelineOutcome(events, fates, link, true);
            if k == |events| then p.0 == BatchResult(k, k, 0, []) && p.1 == None
            else exists e :: && TellsOf(fates[k], link.confirms, e) && p.1 == Some(e)
                             && p.0 == BatchResult(|events|, k, 1, [BatchError(k, events[k], e)])
  {
    var ser, errs := SerialiseErrors(events), PipelineErrors(fates, link.confirms);
    FirstErrorIs(ser, |events|);
    NoFailuresAddNothing(Start(events), events, ser, |events|);
    PipelineErrorsTell(fates, link.confirms);
    if k < |events| {
      AddUpToFirst(events, errs, k);
    } else {
      FirstErrorIs(errs, k);
      AddUpLists(Start(events), events, errs, k);
      assert errs[..k] == errs;
      NoErrors(events, errs);
    }
  }

  lemma {:induction false} SomeFails(events: seq<Event>)
    ensures (exists e :: e in events && e.body.None?) <==> FirstError(SerialiseErrors(events)) < |events|
  {
    var ser := SerialiseErrors(events);
    if exists e :: e in events && e.body.None? {
      var e :| e in events && e.body.None?;
      var i :| 0 <= i < |events| && events[i] == e;
      assert ser[i].Some?;
    } else if FirstError(ser) < |events| {
      assert events[FirstError(ser)] in events;
    }
  }

  lemma SerialiseFailuresOnly(events: seq<Event>, n: nat)
    requires n <= |events|
    ensures var base := AddFailures(Start(events), events, SerialiseErrors(events), n);
            && base.success == 0 && base.total == |events|
            && (forall b <- base.errors :: b.error == SerialiseError && b.index < |events|
                                           && b.event == events[b.index] && b.event.body.None?)
  {
    var ser := SerialiseErrors(events);
    AddFailuresLists(Start(events), events, ser, n);
    EntriesHold(events, ser[..n]);
    var list := Entries(events, ser[..n]);
    assert AddFailures(Start(events), events, ser, n).errors == list;
    forall b <- list
      ensures b.error == SerialiseError && b.index < |events| && b.event == events[b.index] && b.event.body.None?
    {
      assert ser[..n][b.index] == ser[b.index];
    }
  }

  /**
   What stops a pipelined batch: under FailFast the first event that does not
   serialise, before anything is sent; then a closed client or a missing channel;
   then a context that ends during a wait.  The result then lists only events that
   did not serialise.
   */
  lemma PipelineStops(events: seq<Event>, fates: seq<Fate>, link: Link, failFast: bool)
    requires |fates| == |events|
    requires !Flows(fates, link) || (failFast && exists e :: e in events && e.body.None?)
    ensures var p := PipelineOutcome(events, fates, link, failFast);
            && p.0.success == 0 && p.0.total == |events|
            && p.1 == Some(if failFast && exists e :: e in events && e.body.None? then SerialiseError
                           else if link.closed then ClientClosed else if !link.hasChannel then NoChannel
                           else ContextDone)
            && (p.2 == [] <==> p.1 != Some(ContextDone) || events == [])
            && (forall b <- p.0.errors :: b.error == SerialiseError && b.index < |events|
                                          && b.event == events[b.index] && b.event.body.None?)
  {
    SomeFails(events);
    SerialiseFailuresOnly(events, Extent(SerialiseErrors(events), failFast));
  }
}
