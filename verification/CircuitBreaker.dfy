/**
 The circuit breaker: a three-state machine with three counters and a clock.

 `Breaker` is the state the mutex guards.  Every call reads the clock once on
 entry (`now`) and once more inside `setState` (`later`).  The callback
 `OnStateChange` is represented by the list of changes it is called with.
 */
module CircuitBreaker {

  datatype Mode = Closed | Open | HalfOpen

  datatype Config = Config(maxFailures: int, resetTimeout: int, halfOpenMax: int, notifies: bool)

  const DEFAULT_CONFIG := Config(5, 60_000_000_000, 3, false)  // the timeout in nanoseconds

  predicate ValidConfig(cfg: Config) {
    cfg.maxFailures > 0 && cfg.resetTimeout > 0 && cfg.halfOpenMax > 0
  }

  /** A new breaker's configuration: fields that are not positive are those of the default configuration. */
  function WithDefaults(cfg: Config): (r: Config)
    ensures ValidConfig(r)
    ensures ValidConfig(cfg) ==> r == cfg
    ensures cfg.maxFailures <= 0 && cfg.resetTimeout <= 0 && cfg.halfOpenMax <= 0 ==>
              r == DEFAULT_CONFIG.(notifies := cfg.notifies)
    ensures r.maxFailures == (if cfg.maxFailures > 0 then cfg.maxFailures else 5)
    ensures r.resetTimeout == (if cfg.resetTimeout > 0 then cfg.resetTimeout else 60 * 1_000_000_000)
    ensures r.halfOpenMax == (if cfg.halfOpenMax > 0 then cfg.halfOpenMax else 3)
  {
    Config(if cfg.maxFailures <= 0 then DEFAULT_CONFIG.maxFailures else cfg.maxFailures,
           if cfg.resetTimeout <= 0 then DEFAULT_CONFIG.resetTimeout else cfg.resetTimeout,
           if cfg.halfOpenMax <= 0 then DEFAULT_CONFIG.halfOpenMax else cfg.halfOpenMax,
           cfg.notifies)
  }

  datatype Change = Change(from: Mode, to: Mode)

  datatype Breaker = Breaker(
    mode: Mode,
    failures: int,
    successes: int,
    halfOpenRequests: int,
    lastFailureTime: int,
    lastStateChangeTime: int,
    changes: seq<Change>)

  datatype Event =
    | Allow(now: int, later: int)
    | Success(now: int)
    | Failure(now: int, later: int)
    | Reset(now: int)

  function Fresh(now: int): Breaker {
    Breaker(Closed, 0, 0, 0, 0, now, [])
  }

  function Notify(cfg: Config, b: Breaker, to: Mode): seq<Change> {
    if cfg.notifies && b.mode != to then b.changes + [Change(b.mode, to)] else b.changes
  }

  function SetState(cfg: Config, b: Breaker, to: Mode, now: int): Breaker {
    b.(mode := to, lastStateChangeTime := now, changes := Notify(cfg, b, to))
  }

  function Admits(cfg: Config, b: Breaker, now: int): bool {
    match b.mode
    case Closed => true
    case Open => now - b.lastStateChangeTime >= cfg.resetTimeout
    case HalfOpen => b.halfOpenRequests < cfg.halfOpenMax
  }

  function Step(cfg: Config, b: Breaker, e: Event): Breaker {
    match e
    case Allow(now, later) =>
      if !Admits(cfg, b, now) || b.mode == Closed then b
      else if b.mode == Open then
        SetState(cfg, b, HalfOpen, later).(halfOpenRequests := 0, successes := 0, failures := 0)
      else b.(halfOpenRequests := b.halfOpenRequests + 1)
    case Success(now) =>
      if b.mode == Closed then b.(failures := 0)
      else if b.mode == Open then b
      else if b.successes + 1 >= cfg.halfOpenMax then
        SetState(cfg, b, Closed, now).(failures := 0, successes := 0, halfOpenRequests := 0)
      else b.(successes := b.successes + 1)
    case Failure(now, later) =>
      var b1 := b.(failures := b.failures + 1, lastFailureTime := now);
      if b.mode == Closed then
        if b1.failures >= cfg.maxFailures then SetState(cfg, b1, Open, later) else b1
      else if b.mode == Open then b1
      else SetState(cfg, b1, Open, later).(halfOpenRequests := 0, successes := 0)
    case Reset(now) =>
      b.(mode := Closed, failures := 0, successes := 0, halfOpenRequests := 0,
         lastStateChangeTime := now, changes := Notify(cfg, b, Closed))
  }

  /** The answer of `AllowRequest`; other events are not admissions. */
  predicate Admitted(cfg: Config, b: Breaker, e: Event) {
    e.Allow? && Admits(cfg, b, e.now)
  }

  /** The mutable object, method by method. */
  class CircuitBreaker {
    const config: Config
    var state: Mode
    var failures: int
    var successes: int
    var lastFailureTime: int
    var lastStateChangeTime: int
    var halfOpenRequests: int
    var changes: seq<Change>

    ghost function View(): Breaker
      reads this
    {
      Breaker(state, failures, successes, halfOpenRequests, lastFailureTime, lastStateChangeTime, changes)
    }

    constructor (cfg: Config, now: int)
      ensures config == WithDefaults(cfg) && View() == Fresh(now)
    {
      config := WithDefaults(cfg);
      state, failures, successes, halfOpenRequests := Closed, 0, 0, 0;
      lastFailureTime, lastStateChangeTime, changes := 0, now, [];
    }

    method SetStateTo(newState: Mode, now: int)
      modifies this
      ensures View() == SetState(config, old(View()), newState, now)
    {
      var oldState := state;
      state := newState;
      lastStateChangeTime := now;
      if config.notifies && oldState != newState {
        changes := changes + [Change(oldState, newState)];
      }
    }

    method AllowRequest(now: int, later: int) returns (ok: bool)
      modifies this
      ensures ok == Admits(config, old(View()), now)
      ensures View() == Step(config, old(View()), Allow(now, later))
    {
      match state
      case Closed =>
        ok := true;
      case Open =>
        if now - lastStateChangeTime >= config.resetTimeout {
          SetStateTo(HalfOpen, later);
          halfOpenRequests, successes, failures := 0, 0, 0;
          ok := true;
        } else {
          ok := false;
        }
      case HalfOpen =>
        if halfOpenRequests < config.halfOpenMax {
          halfOpenRequests := halfOpenRequests + 1;
          ok := true;
        } else {
          ok := false;
        }
    }

    method RecordSuccess(now: int)
      modifies this
      ensures View() == Step(config, old(View()), Success(now))
    {
      match state
      case Closed =>
        failures := 0;
      case HalfOpen =>
        successes := successes + 1;
        if successes >= config.halfOpenMax {
          SetStateTo(Closed, now);
          failures, successes, halfOpenRequests := 0, 0, 0;
        }
      case Open =>
    }

    method RecordFailure(now: int, later: int)
      modifies this
      ensures View() == Step(config, old(View()), Failure(now, later))
    {
      failures := failures + 1;
      lastFailureTime := now;
      match state
      case Closed =>
        if failures >= config.maxFailures {
          SetStateTo(Open, later);
        }
      case HalfOpen =>
        SetStateTo(Open, later);
        halfOpenRequests, successes := 0, 0;
      case Open =>
    }

    method ResetToClosed(now: int)
      modifies this
      ensures View() == Step(config, old(View()), Reset(now))
    {
      var oldState := state;
      state, failures, successes, halfOpenRequests := Closed, 0, 0, 0;
      lastStateChangeTime := now;
      if config.notifies && oldState != Closed {
        changes := changes + [Change(oldState, Closed)];
      }
    }
  }
}
