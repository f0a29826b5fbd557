/**
 What the breaker's counters mean: theorems about every run of the breaker, in
 terms of the events since it last changed state.
 */
module BreakerHistory {
  import opened CircuitBreaker

  /** The state after a run of events. */
  function After(cfg: Config, b: Breaker, es: seq<Event>): Breaker {
    if es == [] then b else Step(cfg, After(cfg, b, es[..|es| - 1]), es[|es| - 1])
  }

  /** Does the last event of the run begin a new stay in the state it leads to? */
  predicate Enters(cfg: Config, b: Breaker, e: Event) {
    e.Reset? || Step(cfg, b, e).mode != b.mode
  }

  /**
   The events of the current stay: those since the breaker entered its state.
   The event that made the transition is the first of a half-open episode, since
   it admits a request, and not part of a closed or open stay.
   */
  function Episode(cfg: Config, b: Breaker, es: seq<Event>): seq<Event> {
    if es == [] then []
    else
      var before, e := es[..|es| - 1], es[|es| - 1];
      if Enters(cfg, After(cfg, b, before), e) then
        if Step(cfg, After(cfg, b, before), e).mode == HalfOpen then [e] else []
      else Episode(cfg, b, before) + [e]
  }

  /** How many requests were admitted during the current stay. */
  function Admissions(cfg: Config, b: Breaker, es: seq<Event>): nat {
    if es == [] then 0
    else
      var before, e := es[..|es| - 1], es[|es| - 1];
      var one := if Admitted(cfg, After(cfg, b, before), e) then 1 else 0;
      if Enters(cfg, After(cfg, b, before), e) then one else Admissions(cfg, b, before) + one
  }

  /** Failures after the last success; admissions in between do not matter. */
  function FailureSuffix(es: seq<Event>): nat {
    if es == [] then 0
    else
      var e := es[|es| - 1];
      if e.Success? then 0
      else FailureSuffix(es[..|es| - 1]) + (if e.Failure? then 1 else 0)
  }

  function Successes(es: seq<Event>): nat {
    if es == [] then 0
    else Successes(es[..|es| - 1]) + (if es[|es| - 1].Success? then 1 else 0)
  }

  predicate NoFailure(es: seq<Event>) {
    forall e <- es :: !e.Failure?
  }

  lemma AfterOne(cfg: Config, b: Breaker, es: seq<Event>, e: Event)
    ensures After(cfg, b, es + [e]) == Step(cfg, After(cfg, b, es), e)
  {
  }

  // ----- reachable states -----

  predicate Allowed(ch: Change) {
    || ch == Change(Closed, Open) || ch == Change(Open, HalfOpen) || ch == Change(HalfOpen, Closed)
    || ch == Change(HalfOpen, Open) || ch == Change(Open, Closed)
  }

  /** The changes lead from closed to `end`, each starting where the one before ended. */
  predicate PathTo(changes: seq<Change>, end: Mode) {
    if changes == [] then end == Closed
    else
      var last := changes[|changes| - 1];
      last.to == end && Allowed(last) && PathTo(changes[..|changes| - 1], last.from)
  }

  predicate CountersInv(cfg: Config, b: Breaker) {
    match b.mode
    case Closed => 0 <= b.failures < cfg.maxFailures && b.successes == 0 && b.halfOpenRequests == 0
    case Open => b.failures >= 1 && b.successes == 0 && b.halfOpenRequests == 0
    case HalfOpen =>
      b.failures == 0 && 0 <= b.successes < cfg.halfOpenMax && 0 <= b.halfOpenRequests <= cfg.halfOpenMax
  }

  predicate ReachableInv(cfg: Config, b: Breaker) {
    && CountersInv(cfg, b)
    && (if cfg.notifies then PathTo(b.changes, b.mode) else b.changes == [])
  }

  lemma NotifyExtendsPath(cfg: Config, b: Breaker, to: Mode)
    requires PathTo(b.changes, b.mode) && cfg.notifies
    requires b.mode != to ==> Allowed(Change(b.mode, to))
    ensures PathTo(Notify(cfg, b, to), to)
  {
  }

  lemma {:induction false} ReachableStep(cfg: Config, b: Breaker, e: Event)
    requires ValidConfig(cfg) && ReachableInv(cfg, b)
    ensures ReachableInv(cfg, Step(cfg, b, e))
  {
    if cfg.notifies && Step(cfg, b, e).mode != b.mode {
      NotifyExtendsPath(cfg, b, Step(cfg, b, e).mode);
    }
  }

  /**
   Every reachable state keeps its counters in range, and the reported changes
   form one connected path over the allowed edges from closed to the current state.
   */
  lemma {:induction false} ReachableStates(cfg: Config, t0: int, es: seq<Event>)
    requires ValidConfig(cfg)
    ensures ReachableInv(cfg, After(cfg, Fresh(t0), es))
  {
    if es != [] {
      ReachableStates(cfg, t0, es[..|es| - 1]);
      ReachableStep(cfg, After(cfg, Fresh(t0), es[..|es| - 1]), es[|es| - 1]);
    }
  }

  // ----- the counters are functions of the history -----

  /** The counters of `b` agree with the events `ep` and admissions of its stay. */
  predicate CountersMatch(b: Breaker, ep: seq<Event>, admissions: nat) {
    match b.mode
    case Closed => b.failures == FailureSuffix(ep)
    case Open => true
    case HalfOpen => b.successes == Successes(ep) && NoFailure(ep) && b.halfOpenRequests + 1 == admissions
  }

  function One(cfg: Config, b: Breaker, e: Event): nat {
    if Admitted(cfg, b, e) then 1 else 0
  }

  lemma {:induction false} StayMatches(cfg: Config, b: Breaker, ep: seq<Event>, admissions: nat, e: Event)
    requires ValidConfig(cfg) && CountersInv(cfg, b) && CountersMatch(b, ep, admissions) && !Enters(cfg, b, e)
    ensures CountersMatch(Step(cfg, b, e), ep + [e], admissions + One(cfg, b, e))
  {
  }

  lemma {:induction false} EntryMatches(cfg: Config, b: Breaker, e: Event)
    requires ValidConfig(cfg) && CountersInv(cfg, b) && Enters(cfg, b, e)
    ensures var b' := Step(cfg, b, e); CountersMatch(b', if b'.mode == HalfOpen then [e] else [], One(cfg, b, e))
  {
  }

  /**
   In every run, the closed breaker's failure count is the length of the failure
   suffix of its stay; a half-open breaker has seen no failure, counts the
   successes of its episode, and has admitted exactly one request more than it
   counts, so never more than HalfOpenMaxRequests + 1.
   */
  lemma {:induction false} CountersAreHistory(cfg: Config, t0: int, es: seq<Event>)
    requires ValidConfig(cfg)
    ensures CountersMatch(After(cfg, Fresh(t0), es), Episode(cfg, Fresh(t0), es), Admissions(cfg, Fresh(t0), es))
    ensures After(cfg, Fresh(t0), es).mode == HalfOpen ==>
              1 <= Admissions(cfg, Fresh(t0), es) <= cfg.halfOpenMax + 1
  {
    ReachableStates(cfg, t0, es);
    if es != [] {
      var b0, before, e := Fresh(t0), es[..|es| - 1], es[|es| - 1];
      CountersAreHistory(cfg, t0, before);
      ReachableStates(cfg, t0, before);
      var b := After(cfg, b0, before);
      if Enters(cfg, b, e) {
        EntryMatches(cfg, b, e);
      } else {
        StayMatches(cfg, b, Episode(cfg, b0, before), Admissions(cfg, b0, before), e);
      }
    }
  }

  /** The failures an open breaker shows: those that opened it, and those reported since. */
  function OpenFailures(cfg: Config, t0: int, es: seq<Event>): nat {
    if es == [] then 0
    else
      var before, e := es[..|es| - 1], es[|es| - 1];
      var mode := After(cfg, Fresh(t0), before).mode;
      if mode == Open then OpenFailures(cfg, t0, before) + (if e.Failure? then 1 else 0)
      else if mode == Closed then (if cfg.maxFailures > 0 then cfg.maxFailures else 0)
      else 1
  }

  lemma {:induction false} OpenFailuresAreHistory(cfg: Config, t0: int, es: seq<Event>)
    requires ValidConfig(cfg) && After(cfg, Fresh(t0), es).mode == Open
    ensures After(cfg, Fresh(t0), es).failures == OpenFailures(cfg, t0, es)
  {
    var before := es[..|es| - 1];
    ReachableStates(cfg, t0, before);
    if After(cfg, Fresh(t0), before).mode == Open {
      OpenFailuresAreHistory(cfg, t0, before);
    }
  }

  // ----- the times and changes are those of the events -----

  /** The clock's last reading during the event. */
  function Reading(e: Event): int {
    if e.Allow? || e.Failure? then e.later else e.now
  }

  /** When the current stay began: at the event that last entered a state, or at the start. */
  function EnteredAt(cfg: Config, t0: int, es: seq<Event>): int {
    if es == [] then t0
    else
      var before, e := es[..|es| - 1], es[|es| - 1];
      if Enters(cfg, After(cfg, Fresh(t0), before), e) then Reading(e) else EnteredAt(cfg, t0, before)
  }

  /** When the latest failure was recorded, or 0. */
  function FailedAt(es: seq<Event>): int {
    if es == [] then 0
    else if es[|es| - 1].Failure? then es[|es| - 1].now
    else FailedAt(es[..|es| - 1])
  }

  /** Every change of state along the run, in order. */
  function ModeChanges(cfg: Config, t0: int, es: seq<Event>): seq<Change> {
    if es == [] then []
    else
      var before := es[..|es| - 1];
      var from, to := After(cfg, Fresh(t0), before).mode, After(cfg, Fresh(t0), es).mode;
      ModeChanges(cfg, t0, before) + if from == to then [] else [Change(from, to)]
  }

  lemma StepRecords(cfg: Config, b: Breaker, e: Event)
    ensures var b' := Step(cfg, b, e);
            && b'.lastStateChangeTime == (if Enters(cfg, b, e) then Reading(e) else b.lastStateChangeTime)
            && b'.lastFailureTime == (if e.Failure? then e.now else b.lastFailureTime)
            && b'.changes == (if cfg.notifies && b'.mode != b.mode then b.changes + [Change(b.mode, b'.mode)]
                              else b.changes)
  {
  }

  /**
   In every run the breaker's times are those of the event that began its stay and of
   the latest failure, and the callback, if there is one, has heard of every change
   of state, in order, and of nothing else.
   */
  lemma {:induction false} TimesAreHistory(cfg: Config, t0: int, es: seq<Event>)
    ensures var b := After(cfg, Fresh(t0), es);
            && b.lastStateChangeTime == EnteredAt(cfg, t0, es)
            && b.lastFailureTime == FailedAt(es)
            && b.changes == if cfg.notifies then ModeChanges(cfg, t0, es) else []
  {
    if es != [] {
      var before, e := es[..|es| - 1], es[|es| - 1];
      TimesAreHistory(cfg, t0, before);
      StepRecords(cfg, After(cfg, Fresh(t0), before), e);
    }
  }

  /**
   Exactly when the breaker changes state, in every run: it opens on the
   MaxFailures-th consecutive failure of a closed stay or on any failure of a
   half-open episode, and closes on the HalfOpenMaxRequests-th success of an
   episode or on a reset.
   */
  lemma TransitionsExactly(cfg: Config, t0: int, es: seq<Event>, e: Event)
    requires ValidConfig(cfg)
    ensures var b0 := Fresh(t0);
            var b, b', ep := After(cfg, b0, es), After(cfg, b0, es + [e]), Episode(cfg, b0, es);
            && (b.mode == Closed ==>
                  (b'.mode != Closed <==> e.Failure? && FailureSuffix(ep) + 1 == cfg.maxFailures) &&
                  b'.mode != HalfOpen)
            && (b.mode == HalfOpen ==>
                  (b'.mode == Closed <==> e.Reset? || (e.Success? && Successes(ep) + 1 == cfg.halfOpenMax)) &&
                  (b'.mode == Open <==> e.Failure?))
            && (b.mode == Open ==>
                  (b'.mode == Closed <==> e.Reset?) &&
                  (b'.mode == HalfOpen <==> e.Allow? && e.now >= EnteredAt(cfg, t0, es) + cfg.resetTimeout))
  {
    TimesAreHistory(cfg, t0, es);
    AfterOne(cfg, Fresh(t0), es, e);
    CountersAreHistory(cfg, t0, es);
    ReachableStates(cfg, t0, es);
  }

  /**
   Exactly when a request is admitted, in every run: always while closed; while open
   from ResetTimeout after the opening on; and in a half-open episode as long as at
   most HalfOpenMaxRequests were admitted before it.
   */
  lemma AdmittedExactly(cfg: Config, t0: int, es: seq<Event>, now: int, later: int)
    requires ValidConfig(cfg)
    ensures var b := After(cfg, Fresh(t0), es);
            Admitted(cfg, b, Allow(now, later)) <==>
            match b.mode
            case Closed => true
            case Open => now >= EnteredAt(cfg, t0, es) + cfg.resetTimeout
            case HalfOpen => Admissions(cfg, Fresh(t0), es) <= cfg.halfOpenMax
  {
    TimesAreHistory(cfg, t0, es);
    CountersAreHistory(cfg, t0, es);
  }

  // ----- the open window -----

  /** The clock never goes back along the events, starting from `t`. */
  predicate ClockFrom(t: int, es: seq<Event>) {
    && (forall i | 0 <= i < |es| :: t <= es[i].now <= Reading(es[i]))
    && (forall i, j | 0 <= i < j < |es| :: Reading(es[i]) <= es[j].now)
  }

  /** The open breaker's window has not passed by the last event. */
  predicate WithinWindow(cfg: Config, b: Breaker, es: seq<Event>) {
    es == [] || Reading(es[|es| - 1]) < b.lastStateChangeTime + cfg.resetTimeout
  }

  predicate TooEarly(cfg: Config, b: Breaker, e: Event) {
    !e.Reset? && e.now < b.lastStateChangeTime + cfg.resetTimeout
  }

  lemma {:induction false} OpenWhile(cfg: Config, b: Breaker, es: seq<Event>)
    requires b.mode == Open && forall i | 0 <= i < |es| :: TooEarly(cfg, b, es[i])
    ensures After(cfg, b, es).mode == Open
    ensures After(cfg, b, es).lastStateChangeTime == b.lastStateChangeTime
  {
    if es != [] {
      OpenWhile(cfg, b, es[..|es| - 1]);
      assert TooEarly(cfg, b, es[|es| - 1]);
    }
  }

  /**
   Until ResetTimeout after it upto, an open breaker refuses every request in
   every run without a reset, and no failure recorded meanwhile moves the end of
   the window.
   */
  lemma OpenWindow(cfg: Config, b: Breaker, es: seq<Event>)
    requires ValidConfig(cfg) && b.mode == Open
    requires forall e <- es :: !e.Reset?
    requires ClockFrom(b.lastStateChangeTime, es) && WithinWindow(cfg, b, es)
    ensures After(cfg, b, es).mode == Open
    ensures After(cfg, b, es).lastStateChangeTime == b.lastStateChangeTime
    ensures forall i | 0 <= i < |es| :: !Admitted(cfg, After(cfg, b, es[..i]), es[i])
  {
    forall i | 0 <= i < |es|
      ensures TooEarly(cfg, b, es[i])
    {
      assert es[i] in es;
      assert i < |es| - 1 ==> Reading(es[i]) <= es[|es| - 1].now;
    }
    OpenWhile(cfg, b, es);
    forall i | 0 <= i < |es|
      ensures !Admitted(cfg, After(cfg, b, es[..i]), es[i])
    {
      OpenWhile(cfg, b, es[..i]);
      assert TooEarly(cfg, b, es[i]);
    }
  }

  /** At the end of the window the first request is admitted and starts a half-open episode. */
  lemma WindowEnds(cfg: Config, b: Breaker, es: seq<Event>, now: int, later: int)
    requires ValidConfig(cfg) && b.mode == Open
    requires forall e <- es :: !e.Reset?
    requires ClockFrom(b.lastStateChangeTime, es) && WithinWindow(cfg, b, es)
    ensures var b1 := After(cfg, b, es);
            && (Admitted(cfg, b1, Allow(now, later)) <==> now >= b.lastStateChangeTime + cfg.resetTimeout)
            && (Admitted(cfg, b1, Allow(now, later)) ==> Step(cfg, b1, Allow(now, later)).mode == HalfOpen)
  {
    OpenWindow(cfg, b, es);
  }

  /** No reset, and no request as late as `end`. */
  predicate Before(end: int, es: seq<Event>) {
    forall e <- es :: !e.Reset? && (e.Allow? ==> e.now < end)
  }

  lemma {:induction false} ClosedWindow(cfg: Config, b: Breaker, fs: seq<Event>)
    requires b.mode == Open && Before(b.lastStateChangeTime + cfg.resetTimeout, fs)
    ensures After(cfg, b, fs).mode == Open && After(cfg, b, fs).lastStateChangeTime == b.lastStateChangeTime
  {
    if fs != [] {
      var n := |fs| - 1;
      assert fs[n] in fs && forall e <- fs[..n] :: e in fs;
      ClosedWindow(cfg, b, fs[..n]);
    }
  }

  lemma {:induction false} AfterSplit(cfg: Config, b: Breaker, es: seq<Event>, fs: seq<Event>)
    ensures After(cfg, b, es + fs) == After(cfg, After(cfg, b, es), fs)
    decreases |fs|
  {
    if fs == [] {
      assert es + fs == es;
    } else {
      var n := |fs| - 1;
      AfterSplit(cfg, b, es, fs[..n]);
      assert es + fs == (es + fs[..n]) + [fs[n]];
      AfterOne(cfg, b, es + fs[..n], fs[n]);
    }
  }

  /**
   The window of an opening.  In every run, if event `e` opens the breaker, then until
   ResetTimeout after the clock's reading at `e`, and unless it is reset, every
   request is refused whatever is reported meanwhile; and the first request from
   then on is admitted and starts a half-open episode.
   */
  lemma WindowOfOpening(cfg: Config, t0: int, es: seq<Event>, e: Event, fs: seq<Event>, now: int, later: int)
    requires ValidConfig(cfg)
    requires After(cfg, Fresh(t0), es).mode != Open && After(cfg, Fresh(t0), es + [e]).mode == Open
    requires Before(Reading(e) + cfg.resetTimeout, fs)
    ensures var upto := es + [e];
            && After(cfg, Fresh(t0), upto + fs).mode == Open
            && (forall i | 0 <= i < |fs| :: !Admitted(cfg, After(cfg, Fresh(t0), upto + fs[..i]), fs[i]))
            && var b, ask := After(cfg, Fresh(t0), upto + fs), Allow(now, later);
               && (Admitted(cfg, b, ask) <==> now >= Reading(e) + cfg.resetTimeout)
               && (Admitted(cfg, b, ask) ==> After(cfg, Fresh(t0), upto + fs + [ask]).mode == HalfOpen)
  {
    var upto := es + [e];
    assert upto[..|es|] == es;
    TimesAreHistory(cfg, t0, upto);
    var b := After(cfg, Fresh(t0), upto);
    assert b.lastStateChangeTime == Reading(e);
    AfterSplit(cfg, Fresh(t0), upto, fs);
    ClosedWindow(cfg, b, fs);
    forall i | 0 <= i < |fs|
      ensures !Admitted(cfg, After(cfg, Fresh(t0), upto + fs[..i]), fs[i])
    {
      assert fs[i] in fs && forall f <- fs[..i] :: f in fs;
      AfterSplit(cfg, Fresh(t0), upto, fs[..i]);
      ClosedWindow(cfg, b, fs[..i]);
    }
    AfterOne(cfg, Fresh(t0), upto + fs, Allow(now, later));
  }
}
