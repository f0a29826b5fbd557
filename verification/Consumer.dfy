/**
 One worker of the consumer and the retry handler, on deliveries whose header
 tables are shared, mutable objects: the handler writes the new count into the
 delivery's own table.
 */
module Consumer {
  import opened Messages
  import opened CircuitBreaker
  import opened BreakerHistory

  class HeaderTable {
    var entries: Table

    constructor (entries: Table)
      ensures this.entries == entries
    {
      this.entries := entries;
    }
  }

  /** A delivery is passed by value, its header table (possibly nil) by reference. */
  datatype Delivery = Delivery(
    exchange: string, key: string, body: string, headers: HeaderTable?,
    contentType: string, priority: int, deliveryMode: int, identity: Identity)

  ghost function Snapshot(d: Delivery): Message
    reads d.headers
  {
    Message(d.exchange, d.key, d.body, if d.headers == null then map[] else d.headers.entries,
            d.contentType, d.priority, d.deliveryMode, d.identity)
  }

  datatype RetryResult = Republished | MaxRetriesExceeded | PublishError

  /**
   Retries the delivery.  Whatever the publish reports, the delivery's own header
   table has the incremented count once the publish was attempted.
   */
  method Retry(d: Delivery, maxRetries: int, verdict: PublishVerdict)
    returns (r: RetryResult, sent: Option<Message>)
    modifies d.headers
    ensures var m := old(Snapshot(d));
            if GetRetryCount(m.headers) >= maxRetries then
              r == MaxRetriesExceeded && sent == None && Snapshot(d) == m
            else
              && r == (if ReportedOk(verdict) then Republished else PublishError)
              && sent == Some(Republication(m))
              && (d.headers != null ==> d.headers.entries == Republication(m).headers)
  {
    var count := if d.headers == null then 0 else GetRetryCount(d.headers.entries);
    if count >= maxRetries {
      return MaxRetriesExceeded, None;
    }
    var headers := d.headers;
    if headers == null {
      headers := new HeaderTable(map[]);
    }
    headers.entries := headers.entries[COUNT_HEADER := VInt(count + 1)];
    sent := Some(Message(d.exchange, d.key, d.body, headers.entries,
                         d.contentType, d.priority, PERSISTENT, d.identity));
    r := if ReportedOk(verdict) then Republished else PublishError;
  }

  /** The clock as one delivery sees it: on admission and on the report. */
  datatype Clock = Clock(askNow: int, askLater: int, reportNow: int, reportLater: int)

  /** The consumer's breaker, when it has one. */
  datatype Guard = Off | On(cfg: Config, b: Breaker)

  ghost function GuardOf(breaker: CircuitBreaker?): Guard
    reads breaker
  {
    if breaker == null then Off else On(breaker.config, breaker.View())
  }

  function GuardAdmits(g: Guard, clk: Clock): bool {
    g.Off? || Admits(g.cfg, g.b, clk.askNow)
  }

  function OutcomeEvent(env: Env, clk: Clock): Event {
    if env.handlerOk then Success(clk.reportNow) else Failure(clk.reportNow, clk.reportLater)
  }

  /** The breaker after it was asked for admission. */
  function Asked(g: Guard, clk: Clock): Guard {
    if g.Off? then Off else On(g.cfg, Step(g.cfg, g.b, Allow(clk.askNow, clk.askLater)))
  }

  /** The breaker after an admitted message is done: told of the outcome if there was a handler. */
  function Told(g: Guard, env: Env, clk: Clock): Guard {
    if g.Off? || !env.registered then g else On(g.cfg, Step(g.cfg, g.b, OutcomeEvent(env, clk)))
  }

  /** The breaker after it has heard, or not, how a handler fared. */
  function Informed(g: Guard, reported: Option<bool>, clk: Clock): Guard {
    if g.Off? || reported.None? then g
    else if reported.value then On(g.cfg, Step(g.cfg, g.b, Success(clk.reportNow)))
    else On(g.cfg, Step(g.cfg, g.b, Failure(clk.reportNow, clk.reportLater)))
  }

  /** The breaker after what other workers, or a reset, do to it. */
  function Disturbed(g: Guard, es: seq<Event>): Guard {
    if g.Off? then Off else On(g.cfg, After(g.cfg, g.b, es))
  }

  /** The breaker after one delivery, when others do `between` to it from the answer to the report. */
  function GuardAfter(g: Guard, env: Env, clk: Clock, between: seq<Event>): Guard {
    if GuardAdmits(g, clk) then Told(Disturbed(Asked(g, clk), between), env, clk) else Asked(g, clk)
  }

  function Traced(m: Message, uuid: string): Message {
    m.(headers := WithTrace(m.headers, uuid))
  }

  /**
   Up to the breaker's answer: the delivery gets a trace id, in its own header table
   if it has one, and the breaker is asked.
   */
  method Ask(d: Delivery, uuid: string, clk: Clock, breaker: CircuitBreaker?)
    returns (admitted: bool, traced: Delivery)
    modifies d.headers, breaker
    ensures admitted == GuardAdmits(old(GuardOf(breaker)), clk)
    ensures GuardOf(breaker) == Asked(old(GuardOf(breaker)), clk)
    ensures traced.headers != null && traced == d.(headers := traced.headers)
    ensures if d.headers == null then fresh(traced.headers) else traced.headers == d.headers
    ensures Snapshot(traced) == Traced(old(Snapshot(d)), uuid)
  {
    var table := d.headers;
    if table == null {
      table := new HeaderTable(map[]);
    }
    table.entries := WithTrace(table.entries, uuid);
    traced := d.(headers := table);
    admitted := true;
    if breaker != null {
      admitted := breaker.AllowRequest(clk.askNow, clk.askLater);
    }
  }

  /**
   From the breaker's admission on: run the handler if there is one, tell the breaker,
   and settle.  A retry leaves the new count in the delivery's own table.
   */
  method Finish(d: Delivery, env: Env, clk: Clock, breaker: CircuitBreaker?, maxRetries: int)
    returns (decision: Decision)
    requires d.headers != null && StringOf(d.headers.entries, TRACE_HEADER).Some?
    modifies d.headers, breaker
    ensures decision == Decide(old(Snapshot(d)), maxRetries, true, env)
    ensures GuardOf(breaker) == Told(old(GuardOf(breaker)), env, clk)
    ensures GuardOf(breaker) == Informed(old(GuardOf(breaker)), decision.reported, clk)
    ensures d.headers.entries == if decision.republished.Some? then decision.republished.value.headers
                                 else old(d.headers.entries)
  {
    if !env.registered {
      return Decision(Ack, None, None, NotDead);
    }
    if env.handlerOk {
      if breaker != null {
        breaker.RecordSuccess(clk.reportNow);
      }
      return Decision(Ack, None, Some(true), NotDead);
    }
    if breaker != null {
      breaker.RecordFailure(clk.reportNow, clk.reportLater);
    }
    WithTraceKeeps(d.headers.entries, env.uuid);
    var r, sent := Retry(d, maxRetries, env.publish);
    match r
    case MaxRetriesExceeded => decision := Decision(Nack(false), None, Some(false), Exhausted);
    case PublishError => decision := Decision(Nack(false), sent, Some(false), PublishFailed);
    case Republished => decision := Decision(Ack, sent, Some(false), NotDead);
  }

  lemma TracedDecision(m: Message, maxRetries: int, env: Env)
    ensures StringOf(Traced(m, env.uuid).headers, TRACE_HEADER).Some?
    ensures Decide(Traced(m, env.uuid), maxRetries, true, env) == Decide(m, maxRetries, true, env)
  {
    WithTraceKeeps(m.headers, env.uuid);
    WithTraceKeeps(WithTrace(m.headers, env.uuid), env.uuid);
  }

  /** Other workers, or an operator, use the breaker. */
  method Interfere(breaker: CircuitBreaker?, es: seq<Event>)
    modifies breaker
    ensures GuardOf(breaker) == Disturbed(old(GuardOf(breaker)), es)
  {
    if breaker == null {
      return;
    }
    ghost var b := breaker.View();
    assert es[..0] == [];
    for k := 0 to |es|
      invariant breaker.View() == After(breaker.config, b, es[..k])
    {
      assert es[..k + 1][..k] == es[..k];
      match es[k]
      case Allow(now, later) => var _ := breaker.AllowRequest(now, later);
      case Success(now) => breaker.RecordSuccess(now);
      case Failure(now, later) => breaker.RecordFailure(now, later);
      case Reset(now) => breaker.ResetToClosed(now);
    }
    assert es[..|es|] == es;
  }

  /**
   The body of the worker loop, whatever other workers do to the breaker between its
   two halves: one delivery is settled exactly once.  Its header table is the one
   that is republished, so it shows the trace id and the new count.
   */
  method Process(
    d: Delivery, env: Env, clk: Clock, between: seq<Event>, breaker: CircuitBreaker?, maxRetries: int)
    returns (decision: Decision)
    modifies d.headers, breaker
    ensures decision == Decide(old(Snapshot(d)), maxRetries, GuardAdmits(old(GuardOf(breaker)), clk), env)
    ensures var m, admitted := old(Snapshot(d)), GuardAdmits(old(GuardOf(breaker)), clk);
            forall n | CountIs(m.headers, n) :: Rightly(m, n, maxRetries, admitted, env, decision)
    ensures GuardOf(breaker) == GuardAfter(old(GuardOf(breaker)), env, clk, between)
    ensures d.headers != null ==>
              d.headers.entries == if decision.republished.Some? then decision.republished.value.headers
                                   else WithTrace(old(Snapshot(d)).headers, env.uuid)
  {
    TracedDecision(Snapshot(d), maxRetries, env);
    forall n | CountIs(Snapshot(d).headers, n)
      ensures Rightly(Snapshot(d), n, maxRetries, GuardAdmits(GuardOf(breaker), clk), env,
                      Decide(Snapshot(d), maxRetries, GuardAdmits(GuardOf(breaker), clk), env))
    {
      DecidesRightly(Snapshot(d), n, maxRetries, GuardAdmits(GuardOf(breaker), clk), env);
    }
    var admitted, traced := Ask(d, env.uuid, clk, breaker);
    if !admitted {
      return Decision(Nack(false), None, None, BreakerOpen);
    }
    Interfere(breaker, between);
    decision := Finish(traced, env, clk, breaker, maxRetries);
  }

  /** One delivery with what the environment answers while it is processed. */
  datatype Job<T> = Job(item: T, env: Env, clk: Clock)

  /** A delivery as one worker gets it, with what others do to the breaker before it asks and until it reports. */
  datatype Shift<T> = Shift(job: Job<T>, before: seq<Event>, between: seq<Event>)

  /** The breaker when the worker asks about the delivery. */
  function GuardBefore(g: Guard, sh: Shift<Message>): Guard {
    Disturbed(g, sh.before)
  }

  function GuardAfterAll(g: Guard, shifts: seq<Shift<Message>>): Guard {
    if shifts == [] then g
    else
      var n := |shifts| - 1;
      var sh := shifts[n];
      GuardAfter(GuardBefore(GuardAfterAll(g, shifts[..n]), sh), sh.job.env, sh.job.clk, sh.between)
  }

  function DecisionFor(g: Guard, shifts: seq<Shift<Message>>, i: nat, maxRetries: int): Decision
    requires i < |shifts|
  {
    var sh := shifts[i];
    var admitted := GuardAdmits(GuardBefore(GuardAfterAll(g, shifts[..i]), sh), sh.job.clk);
    Decide(sh.job.item, maxRetries, admitted, sh.job.env)
  }

  /** The decision is right for the delivery and the breaker's answer to it. */
  ghost predicate RightlyFor(
    g: Guard, shifts: seq<Shift<Message>>, i: nat, n: int, maxRetries: int, d: Decision)
    requires i < |shifts|
  {
    var sh := shifts[i];
    var admitted := GuardAdmits(GuardBefore(GuardAfterAll(g, shifts[..i]), sh), sh.job.clk);
    Rightly(sh.job.item, n, maxRetries, admitted, sh.job.env, d)
  }

  lemma DecisionForIsRight(g: Guard, shifts: seq<Shift<Message>>, i: nat, n: int, maxRetries: int)
    requires i < |shifts| && CountIs(shifts[i].job.item.headers, n)
    ensures RightlyFor(g, shifts, i, n, maxRetries, DecisionFor(g, shifts, i, maxRetries))
  {
    var sh := shifts[i];
    var admitted := GuardAdmits(GuardBefore(GuardAfterAll(g, shifts[..i]), sh), sh.job.clk);
    DecidesRightly(sh.job.item, n, maxRetries, admitted, sh.job.env);
  }

  lemma GuardAfterNext(g: Guard, shifts: seq<Shift<Message>>, k: nat)
    requires k < |shifts|
    ensures var sh := shifts[k];
            GuardAfterAll(g, shifts[..k + 1]) ==
            GuardAfter(GuardBefore(GuardAfterAll(g, shifts[..k]), sh), sh.job.env, sh.job.clk, sh.between)
  {
    assert shifts[..k + 1][..k] == shifts[..k];
  }

  /** The first decisions, one for each delivery processed so far. */
  ghost predicate Logged(g: Guard, shifts: seq<Shift<Message>>, log: seq<Decision>, maxRetries: int) {
    |log| <= |shifts| && forall i | 0 <= i < |log| :: log[i] == DecisionFor(g, shifts, i, maxRetries)
  }

  lemma LoggedNext(g: Guard, shifts: seq<Shift<Message>>, log: seq<Decision>, maxRetries: int)
    requires Logged(g, shifts, log, maxRetries) && |log| < |shifts|
    ensures Logged(g, shifts, log + [DecisionFor(g, shifts, |log|, maxRetries)], maxRetries)
  {
  }

  ghost function Tables(ds: seq<Shift<Delivery>>): set<HeaderTable> {
    set d | d in ds && d.job.item.headers != null :: d.job.item.headers
  }

  ghost function Snapshots(ds: seq<Shift<Delivery>>): (ms: seq<Shift<Message>>)
    reads Tables(ds)
    ensures |ms| == |ds|
  {
    seq(|ds|, i requires 0 <= i < |ds| reads Tables(ds) =>
      Shift(Job(Snapshot(ds[i].job.item), ds[i].job.env, ds[i].job.clk), ds[i].before, ds[i].between))
  }

  /** Distinct deliveries have distinct header tables, as the broker client decodes each one afresh. */
  ghost predicate OwnTables(ds: seq<Shift<Delivery>>) {
    forall i, j | 0 <= i < j < |ds| && ds[i].job.item.headers != null ::
      ds[i].job.item.headers != ds[j].job.item.headers
  }

  /**
   The loop of one worker among others.  Every delivery is settled exactly once, by
   the decision on the message as delivered and on the breaker as the earlier
   deliveries and the other workers left it.
   */
  method Worker(ds: seq<Shift<Delivery>>, breaker: CircuitBreaker?, maxRetries: int)
    returns (log: seq<Decision>)
    requires OwnTables(ds)
    modifies Tables(ds), breaker
    ensures |log| == |ds|
    ensures forall i | 0 <= i < |ds| ::
              log[i] == DecisionFor(old(GuardOf(breaker)), old(Snapshots(ds)), i, maxRetries)
    ensures forall i, n | 0 <= i < |ds| && CountIs(old(Snapshots(ds))[i].job.item.headers, n) ::
              RightlyFor(old(GuardOf(breaker)), old(Snapshots(ds)), i, n, maxRetries, log[i])
    ensures GuardOf(breaker) == GuardAfterAll(old(GuardOf(breaker)), old(Snapshots(ds)))
  {
    ghost var shifts, g := Snapshots(ds), GuardOf(breaker);
    log := [];
    for k := 0 to |ds|
      invariant |log| == k
      invariant GuardOf(breaker) == GuardAfterAll(g, shifts[..k])
      invariant forall i | k <= i < |ds| :: Snapshot(ds[i].job.item) == shifts[i].job.item
      invariant Logged(g, shifts, log, maxRetries)
    {
      assert ds[k] in ds;
      GuardAfterNext(g, shifts, k);
      LoggedNext(g, shifts, log, maxRetries);
      Interfere(breaker, ds[k].before);
      var d := Process(ds[k].job.item, ds[k].job.env, ds[k].job.clk, ds[k].between, breaker, maxRetries);
      log := log + [d];
      forall i | k < i < |ds|
        ensures Snapshot(ds[i].job.item) == shifts[i].job.item
      {
        assert ds[k].job.item.headers != null ==> ds[k].job.item.headers != ds[i].job.item.headers;
      }
    }
    assert shifts[..|ds|] == shifts;
    forall i, n | 0 <= i < |ds| && CountIs(shifts[i].job.item.headers, n)
      ensures RightlyFor(g, shifts, i, n, maxRetries, log[i])
    {
      DecisionForIsRight(g, shifts, i, n, maxRetries);
    }
  }

  /** The breaker events of one delivery and of the others: an outcome follows only an admission with a handler. */
  function EventsOf(g: Guard, sh: Shift<Message>): seq<Event> {
    sh.before + [Allow(sh.job.clk.askNow, sh.job.clk.askLater)] +
    if !GuardAdmits(GuardBefore(g, sh), sh.job.clk) then []
    else sh.between + if sh.job.env.registered then [OutcomeEvent(sh.job.env, sh.job.clk)] else []
  }

  function AllEvents(g: Guard, shifts: seq<Shift<Message>>): seq<Event> {
    if shifts == [] then []
    else
      var n := |shifts| - 1;
      AllEvents(g, shifts[..n]) + EventsOf(GuardAfterAll(g, shifts[..n]), shifts[n])
  }

  lemma ShiftRunsBreaker(g: Guard, sh: Shift<Message>)
    requires g.On?
    ensures GuardAfter(GuardBefore(g, sh), sh.job.env, sh.job.clk, sh.between) == Disturbed(g, EventsOf(g, sh))
  {
    var ask, outcome := Allow(sh.job.clk.askNow, sh.job.clk.askLater), OutcomeEvent(sh.job.env, sh.job.clk);
    var asked := sh.before + [ask];
    AfterOne(g.cfg, g.b, sh.before, ask);
    AfterSplit(g.cfg, g.b, asked, sh.between);
    AfterOne(g.cfg, g.b, asked + sh.between, outcome);
    assert asked + [] == asked;
    assert asked + (sh.between + [outcome]) == (asked + sh.between) + [outcome];
    assert asked + (sh.between + []) == asked + sh.between;
  }

  /**
   The breaker that one worker shares with others goes through a run of breaker
   events, its own and theirs, so every theorem about runs applies to it.
   */
  lemma {:induction false} WorkerRunsBreaker(cfg: Config, b: Breaker, shifts: seq<Shift<Message>>)
    ensures GuardAfterAll(On(cfg, b), shifts) == On(cfg, After(cfg, b, AllEvents(On(cfg, b), shifts)))
  {
    if shifts != [] {
      var n := |shifts| - 1;
      WorkerRunsBreaker(cfg, b, shifts[..n]);
      var g := GuardAfterAll(On(cfg, b), shifts[..n]);
      ShiftRunsBreaker(g, shifts[n]);
      AfterSplit(cfg, b, AllEvents(On(cfg, b), shifts[..n]), EventsOf(g, shifts[n]));
    }
  }
}
