/**
 The breaker driven by the consumer's workers.  A worker asks for admission, and
 reports an outcome if and only if the message it was admitted with has a
 handler: a message of an unregistered type is acknowledged without a report.
 */
module BreakerProgress {
  import opened CircuitBreaker
  import opened BreakerHistory

  datatype Work =
    | Arrive(now: int, later: int, registered: bool)
    | Report(ok: bool, now: int, later: int)
    | ManualReset(now: int)

  /**
   `outstanding` counts the admitted messages whose handler has not returned yet,
   `silent` the messages of the current half-open episode admitted without a handler.
   */
  datatype Pool = Pool(breaker: Breaker, outstanding: nat, silent: nat)

  /** A new breaker and no message admitted. */
  function NewPool(t0: int): Pool {
    Pool(Fresh(t0), 0, 0)
  }

  function EventOf(w: Work): Event {
    match w
    case Arrive(now, later, _) => Allow(now, later)
    case Report(ok, now, later) => if ok then Success(now) else Failure(now, later)
    case ManualReset(now) => Reset(now)
  }

  predicate CanDo(p: Pool, w: Work) {
    w.Report? ==> p.outstanding > 0
  }

  function Do(cfg: Config, p: Pool, w: Work): Pool
    requires CanDo(p, w)
  {
    var admitted := Admitted(cfg, p.breaker, EventOf(w));
    var after := Step(cfg, p.breaker, EventOf(w));
    var before := if p.breaker.mode == HalfOpen then p.silent else 0;
    Pool(after,
         if w.Report? then p.outstanding - 1
         else if admitted && w.registered then p.outstanding + 1
         else p.outstanding,
         if after.mode != HalfOpen then 0
         else if admitted && !w.registered then before + 1
         else before)
  }

  predicate Runs(cfg: Config, p: Pool, ws: seq<Work>)
    decreases |ws|
  {
    ws == [] || (CanDo(p, ws[0]) && Runs(cfg, Do(cfg, p, ws[0]), ws[1..]))
  }

  function DoAll(cfg: Config, p: Pool, ws: seq<Work>): Pool
    requires Runs(cfg, p, ws)
    decreases |ws|
  {
    if ws == [] then p else DoAll(cfg, Do(cfg, p, ws[0]), ws[1..])
  }

  function EndOf(w: Work): int {
    if w.ManualReset? then w.now else w.later
  }

  /** The work starts at time `t` or later, and the clock never goes back. */
  predicate Clocked(t: int, ws: seq<Work>)
    decreases |ws|
  {
    ws == [] || (t <= ws[0].now <= EndOf(ws[0]) && Clocked(EndOf(ws[0]), ws[1..]))
  }

  /** The time when the work, started at time `t`, is done. */
  function Finished(t: int, ws: seq<Work>): int
    decreases |ws|
  {
    if ws == [] then t else Finished(EndOf(ws[0]), ws[1..])
  }

  predicate AllRegistered(ws: seq<Work>) {
    forall w <- ws :: w.Arrive? ==> w.registered
  }

  predicate Saturated(cfg: Config, b: Breaker) {
    b.mode == HalfOpen && b.halfOpenRequests == cfg.halfOpenMax
  }

  /** The successes a half-open breaker still needs. */
  function Missing(cfg: Config, b: Breaker): int {
    cfg.halfOpenMax - b.successes
  }

  /** Of the requests admitted in this half-open episode, those without a success are still out, or silent. */
  predicate StillOut(cfg: Config, p: Pool) {
    && CountersInv(cfg, p.breaker)
    && (p.breaker.mode == HalfOpen ==>
          p.outstanding + p.silent >= p.breaker.halfOpenRequests + 1 - p.breaker.successes)
  }

  lemma {:induction false} StillOutAlways(cfg: Config, p: Pool, ws: seq<Work>)
    requires ValidConfig(cfg) && StillOut(cfg, p) && Runs(cfg, p, ws)
    ensures StillOut(cfg, DoAll(cfg, p, ws))
    decreases |ws|
  {
    if ws != [] {
      assert StillOut(cfg, Do(cfg, p, ws[0]));
      StillOutAlways(cfg, Do(cfg, p, ws[0]), ws[1..]);
    }
  }

  lemma {:induction false} RegisteredNeverSilent(cfg: Config, p: Pool, ws: seq<Work>)
    requires Runs(cfg, p, ws) && AllRegistered(ws) && p.silent == 0
    ensures DoAll(cfg, p, ws).silent == 0
    decreases |ws|
  {
    if ws != [] {
      assert ws[0] in ws;
      assert forall w <- ws[1..] :: w in ws;
      RegisteredNeverSilent(cfg, Do(cfg, p, ws[0]), ws[1..]);
    }
  }

  predicate Interrupts(e: Event) {
    e.Failure? || e.Reset?
  }

  predicate Interrupted(es: seq<Event>) {
    es != [] && (Interrupts(es[|es| - 1]) || Interrupted(es[..|es| - 1]))
  }

  /** The breaker is half-open before, between and after all the events. */
  predicate HalfOpenThroughout(cfg: Config, b: Breaker, es: seq<Event>) {
    After(cfg, b, es).mode == HalfOpen && (es == [] || HalfOpenThroughout(cfg, b, es[..|es| - 1]))
  }

  /**
   A half-open breaker stays half-open through a run of events exactly when the
   run has no failure, no reset, and fewer successes than are still missing.
   */
  lemma {:induction false} StaysHalfOpen(cfg: Config, b: Breaker, es: seq<Event>)
    requires ValidConfig(cfg) && CountersInv(cfg, b) && b.mode == HalfOpen
    ensures HalfOpenThroughout(cfg, b, es) <==> !Interrupted(es) && Successes(es) < cfg.halfOpenMax - b.successes
    ensures HalfOpenThroughout(cfg, b, es) ==> After(cfg, b, es).successes == b.successes + Successes(es)
  {
    if es != [] {
      StaysHalfOpen(cfg, b, es[..|es| - 1]);
    }
  }

  // ----- a saturated pool -----

  predicate NoReset(ws: seq<Work>) {
    forall w <- ws :: !w.ManualReset?
  }

  /** The run, from time `t` and without a reset, changes the breaker. */
  predicate Moves(cfg: Config, p: Pool, t: int, ws: seq<Work>) {
    Runs(cfg, p, ws) && Clocked(t, ws) && NoReset(ws) && DoAll(cfg, p, ws).breaker != p.breaker
  }

  lemma {:induction false} IdlePoolStands(cfg: Config, p: Pool, ws: seq<Work>)
    requires Saturated(cfg, p.breaker) && p.outstanding == 0 && Runs(cfg, p, ws) && NoReset(ws)
    ensures DoAll(cfg, p, ws) == p
    decreases |ws|
  {
    if ws != [] {
      assert ws[0] in ws;
      assert forall w <- ws[1..] :: w in ws;
      assert Do(cfg, p, ws[0]) == p;
      IdlePoolStands(cfg, p, ws[1..]);
    }
  }

  /** Some run without a reset moves a saturated breaker if and only if a handler is still out. */
  lemma MovesIffOutstanding(cfg: Config, p: Pool, t: int)
    requires Saturated(cfg, p.breaker)
    ensures (exists ws :: Moves(cfg, p, t, ws)) <==> p.outstanding > 0
  {
    if p.outstanding > 0 {
      var fail := [Report(false, t, t)];
      assert fail[1..] == [] && DoAll(cfg, p, fail) == Do(cfg, p, fail[0]);
      assert Moves(cfg, p, t, fail);
    } else {
      forall ws | Runs(cfg, p, ws) && NoReset(ws)
        ensures !Moves(cfg, p, t, ws)
      {
        IdlePoolStands(cfg, p, ws);
      }
    }
  }

  /** The breaker is half-open before, between and after all the work. */
  predicate HalfOpenAlong(cfg: Config, p: Pool, ws: seq<Work>)
    requires Runs(cfg, p, ws)
    decreases |ws|
  {
    p.breaker.mode == HalfOpen && (ws == [] || HalfOpenAlong(cfg, Do(cfg, p, ws[0]), ws[1..]))
  }

  /** The run, from time `t` and without a reset, brings in every outstanding report and never leaves half-open. */
  predicate Sticks(cfg: Config, p: Pool, t: int, ws: seq<Work>) {
    && Runs(cfg, p, ws) && Clocked(t, ws) && NoReset(ws)
    && HalfOpenAlong(cfg, p, ws) && DoAll(cfg, p, ws).outstanding == 0
  }

  /** In a saturated pool every outstanding report that does not leave half-open is one success more. */
  lemma {:induction false} ReportsAreSuccesses(cfg: Config, p: Pool, ws: seq<Work>)
    requires ValidConfig(cfg) && Saturated(cfg, p.breaker) && CountersInv(cfg, p.breaker)
    requires Runs(cfg, p, ws) && NoReset(ws) && HalfOpenAlong(cfg, p, ws)
    ensures var q := DoAll(cfg, p, ws);
            && Saturated(cfg, q.breaker) && CountersInv(cfg, q.breaker)
            && q.breaker.successes + q.outstanding == p.breaker.successes + p.outstanding
    decreases |ws|
  {
    if ws != [] {
      assert ws[0] in ws;
      assert forall w <- ws[1..] :: w in ws;
      ReportsAreSuccesses(cfg, Do(cfg, p, ws[0]), ws[1..]);
    }
  }

  /** All outstanding handlers succeed. */
  lemma {:induction false} AllSucceed(cfg: Config, p: Pool, t: int) returns (ws: seq<Work>)
    requires ValidConfig(cfg) && Saturated(cfg, p.breaker) && CountersInv(cfg, p.breaker)
    requires p.outstanding < Missing(cfg, p.breaker)
    ensures Sticks(cfg, p, t, ws)
    decreases p.outstanding
  {
    if p.outstanding == 0 {
      ws := [];
    } else {
      var w := Report(true, t, t);
      var rest := AllSucceed(cfg, Do(cfg, p, w), t);
      ws := [w] + rest;
      assert ws[1..] == rest;
    }
  }

  /**
   A saturated breaker can get stuck, all reports in and still half-open, if and
   only if fewer handlers are out than successes are missing.
   */
  lemma SticksIffTooFewOut(cfg: Config, p: Pool, t: int)
    requires ValidConfig(cfg) && Saturated(cfg, p.breaker) && CountersInv(cfg, p.breaker)
    ensures (exists ws :: Sticks(cfg, p, t, ws)) <==> p.outstanding < Missing(cfg, p.breaker)
  {
    if p.outstanding < Missing(cfg, p.breaker) {
      var ws := AllSucceed(cfg, p, t);
      assert Sticks(cfg, p, t, ws);
    } else {
      forall ws | Runs(cfg, p, ws) && NoReset(ws) && HalfOpenAlong(cfg, p, ws)
        ensures !Sticks(cfg, p, t, ws)
      {
        ReportsAreSuccesses(cfg, p, ws);
      }
    }
  }

  /**
   Half-open progress, for every run.  In a saturated half-open breaker the handlers
   still out and the messages admitted without a handler together outnumber the
   missing successes.  So with at most one such message in the episode, and hence
   whenever every message has a handler, the breaker cannot get stuck: once all
   reports are in, it has left half-open.
   */
  lemma HalfOpenProgress(cfg: Config, t0: int, ws: seq<Work>, t: int, es: seq<Event>)
    requires ValidConfig(cfg) && Runs(cfg, NewPool(t0), ws)
    ensures var p := DoAll(cfg, NewPool(t0), ws);
            && (AllRegistered(ws) ==> p.silent == 0)
            && (Saturated(cfg, p.breaker) ==>
                  var missing := Missing(cfg, p.breaker);
                  && 0 < missing < p.outstanding + p.silent
                  && ((exists more :: Sticks(cfg, p, t, more)) <==> p.outstanding < missing)
                  && (p.silent <= 1 ==> !exists more :: Sticks(cfg, p, t, more))
                  && (HalfOpenThroughout(cfg, p.breaker, es) <==> !Interrupted(es) && Successes(es) < missing))
  {
    StillOutAlways(cfg, NewPool(t0), ws);
    var p := DoAll(cfg, NewPool(t0), ws);
    if AllRegistered(ws) {
      RegisteredNeverSilent(cfg, NewPool(t0), ws);
    }
    if Saturated(cfg, p.breaker) {
      SticksIffTooFewOut(cfg, p, t);
      StaysHalfOpen(cfg, p.breaker, es);
    }
  }

  lemma {:induction false} SaturatedStands(cfg: Config, b: Breaker, es: seq<Event>)
    requires Saturated(cfg, b) && forall i | 0 <= i < |es| :: es[i].Allow?
    ensures After(cfg, b, es) == b
  {
    if es != [] {
      SaturatedStands(cfg, b, es[..|es| - 1]);
    }
  }

  /** A saturated half-open breaker refuses any number of requests and does not move. */
  lemma SaturatedRefuses(cfg: Config, b: Breaker, es: seq<Event>)
    requires Saturated(cfg, b) && forall i | 0 <= i < |es| :: es[i].Allow?
    ensures After(cfg, b, es) == b
    ensures forall i | 0 <= i < |es| :: !Admitted(cfg, After(cfg, b, es[..i]), es[i])
  {
    SaturatedStands(cfg, b, es);
    forall i | 0 <= i < |es|
      ensures !Admitted(cfg, After(cfg, b, es[..i]), es[i])
    {
      SaturatedStands(cfg, b, es[..i]);
    }
  }

  // ----- without the hypothesis the breaker can be stuck -----

  lemma {:induction false} Append(cfg: Config, p: Pool, ws: seq<Work>, more: seq<Work>)
    requires Runs(cfg, p, ws) && Runs(cfg, DoAll(cfg, p, ws), more)
    ensures Runs(cfg, p, ws + more)
    ensures DoAll(cfg, p, ws + more) == DoAll(cfg, DoAll(cfg, p, ws), more)
    decreases |ws|
  {
    if ws == [] {
      assert ws + more == more;
    } else {
      Append(cfg, Do(cfg, p, ws[0]), ws[1..], more);
      assert (ws + more)[1..] == ws[1..] + more;
    }
  }

  lemma {:induction false} ClockedAppend(t: int, ws: seq<Work>, more: seq<Work>)
    requires Clocked(t, ws) && Clocked(Finished(t, ws), more)
    ensures Clocked(t, ws + more) && Finished(t, ws + more) == Finished(Finished(t, ws), more)
    decreases |ws|
  {
    if ws == [] {
      assert ws + more == more;
    } else {
      ClockedAppend(EndOf(ws[0]), ws[1..], more);
      assert (ws + more)[1..] == ws[1..] + more;
    }
  }

  lemma TwoInARow(cfg: Config, p: Pool, v: Work, w: Work)
    requires CanDo(p, v) && CanDo(Do(cfg, p, v), w)
    ensures Runs(cfg, p, [v, w]) && DoAll(cfg, p, [v, w]) == Do(cfg, Do(cfg, p, v), w)
  {
    assert [v, w][1..] == [w] && [w][1..] == [];
    var p1 := Do(cfg, p, v);
    var p2 := Do(cfg, p1, w);
    assert Runs(cfg, p2, []) && DoAll(cfg, p2, []) == p2;
    assert Runs(cfg, p1, [w]) && DoAll(cfg, p1, [w]) == p2;
  }

  /** `n` handled failures in a row at time `t`. */
  lemma {:induction false} FailureBurst(cfg: Config, p: Pool, t: int, n: nat) returns (ws: seq<Work>)
    requires ValidConfig(cfg) && p.breaker.mode == Closed && p.outstanding == 0
    requires 0 <= p.breaker.failures && p.breaker.failures + n == cfg.maxFailures && n > 0
    ensures Runs(cfg, p, ws) && Clocked(t, ws) && Finished(t, ws) == t
    ensures var q := DoAll(cfg, p, ws);
            q.outstanding == 0 && q.breaker.mode == Open && q.breaker.lastStateChangeTime == t
    decreases n
  {
    var first := [Arrive(t, t, true), Report(false, t, t)];
    var p2 := Do(cfg, Do(cfg, p, first[0]), first[1]);
    TwoInARow(cfg, p, first[0], first[1]);
    assert first[1..] == [first[1]] && [first[1]][1..] == [];
    assert Clocked(t, [first[1]]) && Finished(t, [first[1]]) == t;
    if n == 1 {
      ws := first;
    } else {
      var rest := FailureBurst(cfg, p2, t, n - 1);
      Append(cfg, p, first, rest);
      ClockedAppend(t, first, rest);
      ws := first + rest;
    }
  }

  /** At time `t`, `n` half-open slots are taken by messages with a handler, or by messages without. */
  lemma {:induction false} FillSlots(cfg: Config, p: Pool, t: int, n: nat, registered: bool) returns (ws: seq<Work>)
    requires p.breaker.mode == HalfOpen && p.breaker.halfOpenRequests + n <= cfg.halfOpenMax
    ensures Runs(cfg, p, ws) && Clocked(t, ws) && Finished(t, ws) == t
    ensures DoAll(cfg, p, ws) == Pool(p.breaker.(halfOpenRequests := p.breaker.halfOpenRequests + n),
                                      if registered then p.outstanding + n else p.outstanding,
                                      if registered then p.silent else p.silent + n)
    decreases n
  {
    if n == 0 {
      ws := [];
    } else {
      var w := Arrive(t, t, registered);
      var rest := FillSlots(cfg, Do(cfg, p, w), t, n - 1, registered);
      ws := [w] + rest;
      assert ws[1..] == rest;
    }
  }

  /** Trip the breaker, wait for the window to end, and let a message without a handler in. */
  lemma SilentProbe(cfg: Config, t0: int) returns (ws: seq<Work>)
    requires ValidConfig(cfg)
    ensures Runs(cfg, NewPool(t0), ws) && Clocked(t0, ws) && Finished(t0, ws) == t0 + cfg.resetTimeout
    ensures var p := DoAll(cfg, NewPool(t0), ws);
            && p.outstanding == 0 && p.silent == 1
            && p.breaker.mode == HalfOpen && p.breaker.halfOpenRequests == 0
            && p.breaker.successes == p.breaker.failures == 0
  {
    var p := NewPool(t0);
    var burst := FailureBurst(cfg, p, t0, cfg.maxFailures);
    var tripped := DoAll(cfg, p, burst);
    var t := t0 + cfg.resetTimeout;
    var probe := [Arrive(t, t, false)];
    assert probe[1..] == [];
    assert DoAll(cfg, tripped, probe) == Do(cfg, tripped, probe[0]);
    Append(cfg, p, burst, probe);
    ClockedAppend(t0, burst, probe);
    ws := burst + probe;
  }

  /**
   The bound is sharp: for every configuration and every number of messages without
   a handler from two up to all the slots, some run, on a clock that never goes back,
   saturates the breaker with that many of them, and it can get stuck.
   */
  lemma SilentMessagesStick(cfg: Config, t0: int, silent: nat) returns (ws: seq<Work>)
    requires ValidConfig(cfg) && 2 <= silent <= cfg.halfOpenMax + 1
    ensures Runs(cfg, NewPool(t0), ws) && Clocked(t0, ws)
    ensures var p := DoAll(cfg, NewPool(t0), ws);
            && Saturated(cfg, p.breaker) && CountersInv(cfg, p.breaker)
            && p.silent == silent && p.outstanding == cfg.halfOpenMax + 1 - silent
            && exists more :: Sticks(cfg, p, Finished(t0, ws), more)
  {
    var p, t := NewPool(t0), t0 + cfg.resetTimeout;
    var probe := SilentProbe(cfg, t0);
    var half := DoAll(cfg, p, probe);
    var quiet := FillSlots(cfg, half, t, silent - 1, false);
    Append(cfg, p, probe, quiet);
    ClockedAppend(t0, probe, quiet);
    var mid := DoAll(cfg, half, quiet);
    var loud := FillSlots(cfg, mid, t, cfg.halfOpenMax + 1 - silent, true);
    Append(cfg, p, probe + quiet, loud);
    ClockedAppend(t0, probe + quiet, loud);
    ws := (probe + quiet) + loud;
    SticksIffTooFewOut(cfg, DoAll(cfg, p, ws), Finished(t0, ws));
  }

  /**
   For every configuration some run, on a clock that never goes back, saturates the
   half-open breaker with nothing outstanding; from there every further request is
   refused until a reset.
   */
  lemma StuckHalfOpen(cfg: Config, t0: int) returns (ws: seq<Work>)
    requires ValidConfig(cfg)
    ensures Runs(cfg, NewPool(t0), ws) && Clocked(t0, ws)
    ensures var p := DoAll(cfg, NewPool(t0), ws);
            && p.outstanding == 0 && Saturated(cfg, p.breaker)
            && (forall es: seq<Event> | (forall i | 0 <= i < |es| :: es[i].Allow?) ::
                  After(cfg, p.breaker, es) == p.breaker)
  {
    ws := SilentMessagesStick(cfg, t0, cfg.halfOpenMax + 1);
    var b := DoAll(cfg, NewPool(t0), ws).breaker;
    forall es: seq<Event> | (forall i | 0 <= i < |es| :: es[i].Allow?)
      ensures After(cfg, b, es) == b
    {
      SaturatedRefuses(cfg, b, es);
    }
  }

  // ----- the pool's counters are those of the run -----

  /** The run before its last piece of work. */
  lemma {:induction false} LastWork(cfg: Config, p: Pool, ws: seq<Work>)
    requires ws != [] && Runs(cfg, p, ws)
    ensures var n := |ws| - 1;
            && Runs(cfg, p, ws[..n]) && CanDo(DoAll(cfg, p, ws[..n]), ws[n])
            && DoAll(cfg, p, ws) == Do(cfg, DoAll(cfg, p, ws[..n]), ws[n])
    decreases |ws|
  {
    var n := |ws| - 1;
    if n == 0 {
      assert ws[..0] == [] && ws[1..] == [];
    } else {
      LastWork(cfg, Do(cfg, p, ws[0]), ws[1..]);
      assert ws[1..][..n - 1] == ws[..n][1..];
    }
  }

  /** The work lets in a message, with a handler or without. */
  predicate LetsIn(cfg: Config, b: Breaker, w: Work, registered: bool) {
    w.Arrive? && w.registered == registered && Admitted(cfg, b, Allow(w.now, w.later))
  }

  /** How many messages with a handler the run has let in. */
  function LetIn(cfg: Config, p: Pool, ws: seq<Work>): nat
    requires Runs(cfg, p, ws)
    decreases |ws|
  {
    if ws == [] then 0
    else (if LetsIn(cfg, p.breaker, ws[0], true) then 1 else 0) + LetIn(cfg, Do(cfg, p, ws[0]), ws[1..])
  }

  function Reports(ws: seq<Work>): nat {
    if ws == [] then 0 else (if ws[0].Report? then 1 else 0) + Reports(ws[1..])
  }

  /** How many messages without a handler were let in since the breaker became half-open. */
  function SilentSince(cfg: Config, p: Pool, ws: seq<Work>): nat
    requires Runs(cfg, p, ws)
    decreases |ws|
  {
    if ws == [] || DoAll(cfg, p, ws).breaker.mode != HalfOpen then 0
    else
      LastWork(cfg, p, ws);
      var n := |ws| - 1;
      var before := DoAll(cfg, p, ws[..n]);
      (if before.breaker.mode == HalfOpen then SilentSince(cfg, p, ws[..n]) else 0)
      + (if LetsIn(cfg, before.breaker, ws[n], false) then 1 else 0)
  }

  lemma {:induction false} OutstandingFrom(cfg: Config, p: Pool, ws: seq<Work>)
    requires Runs(cfg, p, ws)
    ensures DoAll(cfg, p, ws).outstanding + Reports(ws) == p.outstanding + LetIn(cfg, p, ws)
    decreases |ws|
  {
    if ws != [] {
      OutstandingFrom(cfg, Do(cfg, p, ws[0]), ws[1..]);
    }
  }

  lemma {:induction false} SilentFrom(cfg: Config, p: Pool, ws: seq<Work>)
    requires Runs(cfg, p, ws) && p.silent == 0 && p.breaker.mode != HalfOpen
    ensures DoAll(cfg, p, ws).silent == SilentSince(cfg, p, ws)
    decreases |ws|
  {
    if ws != [] {
      LastWork(cfg, p, ws);
      SilentFrom(cfg, p, ws[..|ws| - 1]);
    }
  }

  /**
   In every run the outstanding messages are those with a handler that were let in,
   less the reports, and the silent ones are those without a handler that were let in
   since the breaker last became half-open.
   */
  lemma PoolIsHistory(cfg: Config, t0: int, ws: seq<Work>)
    requires Runs(cfg, NewPool(t0), ws)
    ensures var p := DoAll(cfg, NewPool(t0), ws);
            && p.outstanding == LetIn(cfg, NewPool(t0), ws) - Reports(ws)
            && p.silent == SilentSince(cfg, NewPool(t0), ws)
  {
    OutstandingFrom(cfg, NewPool(t0), ws);
    SilentFrom(cfg, NewPool(t0), ws);
  }
}
