/**
 Batch publishing: the sequential loop over `Publish`, and the pipelined form that
 sends everything first and collects the confirmations afterwards.
 */
module Batch {
  import opened Messages

  /** A message on the wire; a slot whose event did not serialise keeps the zero value. */
  datatype Wire = Wire(exchange: string, key: string, body: string)

  const ZERO := Wire("", "", "")

  /** An event; `body` is its JSON, or nothing if it cannot be serialised. */
  datatype Event = Event(exchange: string, typ: string, body: Option<string>)

  datatype Error =
    | SerialiseError
    | PublishRejected
    | NotConfirmed
    | ConfirmTimeout
    | ContextDone
    | ClientClosed
    | NoChannel

  /** What happens to one message: the send fails, or this is how the wait for its confirmation ends. */
  datatype Fate = SendFails | Acked | Nacked | ResultChannelClosed | TimesOut | ContextEnds

  /** The client while the batch runs. */
  datatype Link = Link(closed: bool, hasChannel: bool, confirms: bool)

  datatype BatchError = BatchError(index: nat, event: Event, error: Error)

  datatype BatchResult = BatchResult(total: nat, success: nat, failed: nat, errors: seq<BatchError>)

  predicate Serialises(e: Event) {
    e.body.Some?
  }

  function WireOf(e: Event): Wire {
    if Serialises(e) then Wire(e.exchange, e.typ, e.body.value) else ZERO
  }

  function WiresOf(events: seq<Event>): seq<Wire> {
    seq(|events|, i requires 0 <= i < |events| => WireOf(events[i]))
  }

  function LinkError(link: Link): Option<Error> {
    if link.closed then Some(ClientClosed) else if !link.hasChannel then Some(NoChannel) else None
  }

  /** What the caller is told about a message with this fate. */
  function ErrorOf(fate: Fate, confirms: bool): Option<Error> {
    if fate.SendFails? then Some(PublishRejected)
    else if !confirms then None
    else
      match fate
      case Nacked => Some(NotConfirmed)
      case ResultChannelClosed => Some(ConfirmTimeout)
      case TimesOut => Some(ConfirmTimeout)
      case ContextEnds => Some(ContextDone)
      case _ => None
  }

  /** The error `EventBus.Publish` returns for an event. */
  function PublishError(e: Event, fate: Fate, link: Link): Option<Error> {
    if !Serialises(e) then Some(SerialiseError)
    else if LinkError(link).Some? then LinkError(link)
    else ErrorOf(fate, link.confirms)
  }

  // ----- reference results -----

  function AddFailure(r: BatchResult, i: nat, e: Event, error: Error): BatchResult {
    r.(failed := r.failed + 1, errors := r.errors + [BatchError(i, e, error)])
  }

  function AddOne(r: BatchResult, i: nat, e: Event, error: Option<Error>): BatchResult {
    if error.Some? then AddFailure(r, i, e, error.value) else r.(success := r.success + 1)
  }

  /** Adds up the outcomes of the first `n` events. */
  function AddUp(r: BatchResult, events: seq<Event>, errs: seq<Option<Error>>, n: nat): BatchResult
    requires n <= |events| && n <= |errs|
  {
    if n == 0 then r else AddOne(AddUp(r, events, errs, n - 1), n - 1, events[n - 1], errs[n - 1])
  }

  /** The index of the first error, or the length if there is none. */
  function FirstError(errs: seq<Option<Error>>): (k: nat)
    ensures k <= |errs|
    ensures forall j | 0 <= j < k :: errs[j].None?
    ensures k < |errs| ==> errs[k].Some?
  {
    if errs == [] || errs[0].Some? then 0
    else
      var k := 1 + FirstError(errs[1..]);
      assert forall j | 0 < j < k :: errs[j] == errs[1..][j - 1];
      k
  }

  lemma FirstErrorIs(errs: seq<Option<Error>>, k: nat)
    requires k <= |errs| && (forall j | 0 <= j < k :: errs[j].None?) && (k < |errs| ==> errs[k].Some?)
    ensures FirstError(errs) == k
  {
  }

  /** How many events are accounted for: all, or up to the first error when failing fast. */
  function Extent(errs: seq<Option<Error>>, failFast: bool): nat {
    if failFast && FirstError(errs) < |errs| then FirstError(errs) + 1 else |errs|
  }

  function ReturnedError(errs: seq<Option<Error>>, failFast: bool): Option<Error> {
    if failFast && FirstError(errs) < |errs| then errs[FirstError(errs)] else None
  }

  function SequentialErrors(events: seq<Event>, fates: seq<Fate>, link: Link): seq<Option<Error>>
    requires |fates| == |events|
  {
    seq(|events|, i requires 0 <= i < |events| => PublishError(events[i], fates[i], link))
  }

  function PipelineErrors(fates: seq<Fate>, confirms: bool): seq<Option<Error>> {
    seq(|fates|, i requires 0 <= i < |fates| => ErrorOf(fates[i], confirms))
  }

  function SerialiseErrors(events: seq<Event>): seq<Option<Error>> {
    seq(|events|, i requires 0 <= i < |events| => if Serialises(events[i]) then None else Some(SerialiseError))
  }

  /** Records the failures among the first `n` events and nothing about the others. */
  function AddFailures(r: BatchResult, events: seq<Event>, errs: seq<Option<Error>>, n: nat): BatchResult
    requires n <= |events| && n <= |errs|
  {
    if n == 0 then r
    else
      var q := AddFailures(r, events, errs, n - 1);
      if errs[n - 1].Some? then AddFailure(q, n - 1, events[n - 1], errs[n - 1].value) else q
  }

  function Start(events: seq<Event>): BatchResult {
    BatchResult(|events|, 0, 0, [])
  }

  // ----- the code -----

  /** What is handed to the broker for one event; nothing if it does not serialise or there is no channel. */
  function SendOne(e: Event, link: Link): seq<Wire> {
    if Serialises(e) && LinkError(link).None? then [WireOf(e)] else []
  }

  function SentFor(events: seq<Event>, link: Link): seq<Wire> {
    if events == [] then [] else SentFor(events[..|events| - 1], link) + SendOne(events[|events| - 1], link)
  }

  /** One event after the other, each waiting for its confirmation. */
  method PublishSequential(events: seq<Event>, fates: seq<Fate>, link: Link, failFast: bool)
    returns (result: BatchResult, err: Option<Error>, sent: seq<Wire>)
    requires |fates| == |events|
    ensures (result, err, sent) == SequentialOutcome(events, fates, link, failFast)
  {
    ghost var errs := SequentialErrors(events, fates, link);
    result, err, sent := Start(events), None, [];
    var attempted := 0;
    while attempted < |events|
      invariant attempted <= |events| && err == None
      invariant failFast ==> forall j | 0 <= j < attempted :: errs[j].None?
      invariant result == AddUp(Start(events), events, errs, attempted)
      invariant sent == SentFor(events[..attempted], link)
    {
      var i := attempted;
      var e := PublishError(events[i], fates[i], link);
      assert events[..i + 1][..i] == events[..i];
      sent := sent + SendOne(events[i], link);
      attempted := attempted + 1;
      if e.Some? {
        result := result.(failed := result.failed + 1, errors := result.errors + [BatchError(i, events[i], e.value)]);
        if failFast {
          FirstErrorIs(errs, i);
          err := e;
          return;
        }
      } else {
        result := result.(success := result.success + 1);
      }
    }
    if failFast {
      FirstErrorIs(errs, |errs|);
    }
    assert events[..|events|] == events;
  }

  /** The context ended while the pipeline was waiting for a confirmation. */
  predicate WaitCut(fates: seq<Fate>, confirms: bool) {
    confirms && exists i | 0 <= i < |fates| :: fates[i].ContextEnds?
  }

  /**
   Sends every message, then waits for the confirmations in order; the errors are
   filled in place.
   */
  method SendAll(messages: seq<Wire>, fates: seq<Fate>, confirms: bool)
    returns (errs: seq<Option<Error>>, fatal: Option<Error>, sent: seq<Wire>)
    requires |fates| == |messages|
    ensures sent == messages && |errs| == |messages|
    ensures fatal == if WaitCut(fates, confirms) then Some(ContextDone) else None
    ensures fatal.None? ==> errs == PipelineErrors(fates, confirms)
  {
    var n := |messages|;
    var messageErrors := new Option<Error>[n](_ => None);
    sent, fatal := [], None;
    for i := 0 to n
      invariant sent == messages[..i]
      invariant forall j | 0 <= j < n ::
                  messageErrors[j] == if j < i && fates[j].SendFails? then Some(PublishRejected) else None
    {
      sent := sent + [messages[i]];
      if fates[i].SendFails? {
        messageErrors[i] := Some(PublishRejected);
      }
    }
    assert messages[..n] == messages;
    if !confirms {
      errs := messageErrors[..];
      return;
    }
    for i := 0 to n
      invariant forall j | 0 <= j < i :: !fates[j].ContextEnds? && messageErrors[j] == ErrorOf(fates[j], true)
      invariant forall j | i <= j < n :: messageErrors[j] == if fates[j].SendFails? then Some(PublishRejected) else None
    {
      if messageErrors[i].None? {
        match fates[i]
        case ResultChannelClosed => messageErrors[i] := Some(ConfirmTimeout);
        case Nacked => messageErrors[i] := Some(NotConfirmed);
        case TimesOut => messageErrors[i] := Some(ConfirmTimeout);
        case ContextEnds =>
          errs, fatal := messageErrors[..], Some(ContextDone);
          return;
        case _ =>
      }
    }
    errs := messageErrors[..];
  }

  method SerialiseAll(events: seq<Event>, failFast: bool)
    returns (result: BatchResult, messages: seq<Wire>, err: Option<Error>)
    ensures var errs := SerialiseErrors(events);
            && result == AddFailures(Start(events), events, errs, Extent(errs, failFast))
            && err == ReturnedError(errs, failFast)
    ensures err.None? ==> messages == WiresOf(events)
  {
    ghost var errs := SerialiseErrors(events);
    result, messages, err := Start(events), [], None;
    var i := 0;
    while i < |events|
      invariant i <= |events| == |errs| && err == None && messages == WiresOf(events)[..i]
      invariant failFast ==> forall j | 0 <= j < i :: errs[j].None?
      invariant result == AddFailures(Start(events), events, errs, i)
    {
      if !Serialises(events[i]) {
        result := AddFailure(result, i, events[i], SerialiseError);
        if failFast {
          FirstErrorIs(errs, i);
          err := Some(SerialiseError);
          return;
        }
      }
      messages := messages + [WireOf(events[i])];
      i := i + 1;
    }
    if failFast {
      FirstErrorIs(errs, |errs|);
    }
  }

  method CountResults(start: BatchResult, events: seq<Event>, errs: seq<Option<Error>>, failFast: bool)
    returns (result: BatchResult, err: Option<Error>)
    requires |errs| == |events|
    ensures result == AddUp(start, events, errs, Extent(errs, failFast))
    ensures err == ReturnedError(errs, failFast)
  {
    result, err := start, None;
    for i := 0 to |errs|
      invariant failFast ==> forall j | 0 <= j < i :: errs[j].None?
      invariant result == AddUp(start, events, errs, i) && err == None
    {
      result := AddOne(result, i, events[i], errs[i]);
      if errs[i].Some? && failFast {
        FirstErrorIs(errs, i);
        err := errs[i];
        return;
      }
    }
    if failFast {
      FirstErrorIs(errs, |errs|);
    }
  }

  /** The pipelined batch. */
  method PublishPipelined(events: seq<Event>, fates: seq<Fate>, link: Link, failFast: bool)
    returns (result: BatchResult, err: Option<Error>, sent: seq<Wire>)
    requires |fates| == |events| > 0
    ensures (result, err, sent) == PipelineOutcome(events, fates, link, failFast)
  {
    var messages;
    result, messages, err := SerialiseAll(events, failFast);
    sent := [];
    if err.Some? {
      return;
    }
    if LinkError(link).Some? {
      err := LinkError(link);
      return;
    }
    var messageErrors, fatal;
    messageErrors, fatal, sent := SendAll(messages, fates, link.confirms);
    if fatal.Some? {
      err := fatal;
      return;
    }
    result, err := CountResults(result, events, messageErrors, failFast);
  }

  function PipelineOutcome(events: seq<Event>, fates: seq<Fate>, link: Link, failFast: bool)
    : (BatchResult, Option<Error>, seq<Wire>)
    requires |fates| == |events|
  {
    var serErrs, errs := SerialiseErrors(events), PipelineErrors(fates, link.confirms);
    var base := AddFailures(Start(events), events, serErrs, Extent(serErrs, failFast));
    if ReturnedError(serErrs, failFast).Some? then (base, ReturnedError(serErrs, failFast), [])
    else if LinkError(link).Some? then (base, LinkError(link), [])
    else if WaitCut(fates, link.confirms) then (base, Some(ContextDone), WiresOf(events))
    else (AddUp(base, events, errs, Extent(errs, failFast)), ReturnedError(errs, failFast), WiresOf(events))
  }

  function SequentialOutcome(events: seq<Event>, fates: seq<Fate>, link: Link, failFast: bool)
    : (BatchResult, Option<Error>, seq<Wire>)
    requires |fates| == |events|
  {
    var errs := SequentialErrors(events, fates, link);
    (AddUp(Start(events), events, errs, Extent(errs, failFast)), ReturnedError(errs, failFast),
     SentFor(events[..Extent(errs, failFast)], link))
  }

  // ----- pipelining refines sequential publishing -----

  lemma {:induction false} NoFailuresAddNothing(r: BatchResult, events: seq<Event>, errs: seq<Option<Error>>, n: nat)
    requires n <= |events| && n <= |errs| && forall i | 0 <= i < n :: errs[i].None?
    ensures AddFailures(r, events, errs, n) == r
  {
    if n > 0 {
      NoFailuresAddNothing(r, events, errs, n - 1);
    }
  }

  lemma {:induction false} AllAreSent(events: seq<Event>, link: Link)
    requires LinkError(link).None? && forall i | 0 <= i < |events| :: Serialises(events[i])
    ensures SentFor(events, link) == WiresOf(events)
  {
    if events != [] {
      AllAreSent(events[..|events| - 1], link);
    }
  }

  /**
   If the client stays open, the context is not cancelled and every event
   serialises, then for the same fates both modes return the same result and the
   same error, for either setting of FailFast; the pipeline sends every event, the
   sequential mode the events up to and including the first failure under FailFast.
   */
  lemma PipelineRefinesSequential(events: seq<Event>, fates: seq<Fate>, link: Link, failFast: bool)
    requires |fates| == |events|
    requires LinkError(link).None? && !WaitCut(fates, link.confirms)
    requires forall i | 0 <= i < |events| :: Serialises(events[i])
    ensures var p := PipelineOutcome(events, fates, link, failFast);
            var s := SequentialOutcome(events, fates, link, failFast);
            && p.0 == s.0 && p.1 == s.1
            && p.2 == WiresOf(events)
            && s.2 == WiresOf(events[..Extent(SequentialErrors(events, fates, link), failFast)])
            && s.2 <= p.2
            && (s.2 == p.2 <==> !failFast || FirstError(SequentialErrors(events, fates, link)) + 1 >= |events|)
  {
    var serErrs, errs := SerialiseErrors(events), PipelineErrors(fates, link.confirms);
    assert SequentialErrors(events, fates, link) == errs;
    FirstErrorIs(serErrs, |events|);
    NoFailuresAddNothing(Start(events), events, serErrs, |events|);
    AllAreSent(events[..Extent(errs, failFast)], link);
  }

  // ----- accounting -----

  /** The list of errors describes the failures: each entry holds the event at its index. */
  predicate Describes(r: BatchResult, events: seq<Event>) {
    && |r.errors| == r.failed
    && forall j | 0 <= j < |r.errors| ::
         r.errors[j].index < |events| && r.errors[j].event == events[r.errors[j].index]
  }

  predicate Increasing(errors: seq<BatchError>, below: nat) {
    && (forall j | 0 <= j < |errors| :: errors[j].index < below)
    && (forall i, j | 0 <= i < j < |errors| :: errors[i].index < errors[j].index)
  }

  lemma {:induction false} AddUpAccounts(r: BatchResult, events: seq<Event>, errs: seq<Option<Error>>, n: nat)
    requires n <= |events| && n <= |errs| && Describes(r, events)
    ensures var q := AddUp(r, events, errs, n);
            && Describes(q, events) && q.total == r.total
            && q.success + q.failed == r.success + r.failed + n
            && (r.errors == [] ==> Increasing(q.errors, n))
            && (forall b <- q.errors :: b in r.errors || (b.index < n && errs[b.index] == Some(b.error)))
  {
    if n > 0 {
      AddUpAccounts(r, events, errs, n - 1);
    }
  }

  /** Sequential publishing without FailFast accounts for every event once, in order. */
  lemma SequentialAccounting(events: seq<Event>, fates: seq<Fate>, link: Link)
    requires |fates| == |events|
    ensures var r := SequentialOutcome(events, fates, link, false).0;
            && r.total == |events| && r.success + r.failed == r.total
            && Describes(r, events) && Increasing(r.errors, |events|)
            && (forall b <- r.errors :: PublishError(events[b.index], fates[b.index], link) == Some(b.error))
  {
    AddUpAccounts(Start(events), events, SequentialErrors(events, fates, link), |events|);
  }

  function CountFailing(events: seq<Event>): nat {
    if events == [] then 0
    else CountFailing(events[..|events| - 1]) + (if Serialises(events[|events| - 1]) then 0 else 1)
  }

  lemma {:induction false} AddFailuresAccounts(events: seq<Event>, n: nat)
    requires n <= |events|
    ensures var q := AddFailures(Start(events), events, SerialiseErrors(events), n);
            Describes(q, events) && q.total == |events| && q.success == 0 && q.failed == CountFailing(events[..n])
  {
    if n > 0 {
      AddFailuresAccounts(events, n - 1);
      assert events[..n][..n - 1] == events[..n - 1];
    }
  }

  /**
   Pipelined publishing without FailFast counts an event that did not serialise
   twice, because its empty slot is sent and counted as well: the totals agree
   exactly when every event serialised.
   */
  lemma PipelineAccounting(events: seq<Event>, fates: seq<Fate>, link: Link)
    requires |fates| == |events|
    requires PipelineOutcome(events, fates, link, false).1.None?
    ensures var p := PipelineOutcome(events, fates, link, false);
            var r := p.0;
            && r.total == |events| && Describes(r, events)
            && r.success + r.failed == r.total + CountFailing(events)
            && (r.success + r.failed == r.total <==> forall i | 0 <= i < |events| :: Serialises(events[i]))
            && |p.2| == |events|
            && (forall i | 0 <= i < |events| && !Serialises(events[i]) :: p.2[i] == ZERO)
  {
    var base := AddFailures(Start(events), events, SerialiseErrors(events), |events|);
    AddFailuresAccounts(events, |events|);
    assert events[..|events|] == events;
    AddUpAccounts(base, events, PipelineErrors(fates, link.confirms), |events|);
    CountFailingZero(events);
  }

  lemma {:induction false} CountFailingZero(events: seq<Event>)
    ensures CountFailing(events) == 0 <==> forall i | 0 <= i < |events| :: Serialises(events[i])
  {
    if events != [] {
      CountFailingZero(events[..|events| - 1]);
    }
  }

  // ----- the entry point -----

  method PublishBatch(events: seq<Event>, fates: seq<Fate>, link: Link, usePipelining: bool, failFast: bool)
    returns (result: BatchResult, err: Option<Error>)
    requires |fates| == |events|
    ensures events == [] ==> result == BatchResult(0, 0, 0, []) && err == None
    ensures events != [] && usePipelining ==>
              var p := PipelineOutcome(events, fates, link, failFast); result == p.0 && err == p.1
    ensures events != [] && !usePipelining ==>
              var s := SequentialOutcome(events, fates, link, failFast); result == s.0 && err == s.1
  {
    if events == [] {
      return BatchResult(0, 0, 0, []), None;
    }
    if usePipelining {
      var sent;
      result, err, sent := PublishPipelined(events, fates, link, failFast);
    } else {
      var sent;
      result, err, sent := PublishSequential(events, fates, link, failFast);
    }
  }
}
