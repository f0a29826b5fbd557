/**
 What the steps of a run mean, told from the outside: which answers of the breaker,
 the handler and the publisher lead to which end of a copy, and which steps the
 counters of the ledger count.
 */
module LifecycleHistory {
  import opened Messages
  import opened Lifecycle

  // ----- one step of a worker -----

  /** The copy is worked on: the breaker's answer, the environment's, and the count the message carries. */
  datatype Case = Refused | NoHandler | Succeeded | NoRetryLeft | Retried | RetryFailed

  function CaseOf(maxRetries: int, n: int, admitted: bool, env: Env): Case {
    if !admitted then Case.Refused
    else if !env.registered then NoHandler
    else if env.handlerOk then Succeeded
    else if n >= maxRetries then NoRetryLeft
    else if env.publish.Confirmed? || env.publish.FalselyConfirmed? then Retried
    else RetryFailed
  }

  /** The settlement under way after each case. */
  function Expected(k: Case): Status {
    match k
    case Refused => Nacking(BreakerOpen)
    case NoHandler => Acking(Unregistered)
    case Succeeded => Acking(Handled)
    case NoRetryLeft => Nacking(Exhausted)
    case Retried => Acking(Replaced)
    case RetryFailed => Nacking(PublishFailed)
  }

  /** A retry is handed over and the broker takes it. */
  predicate RetryTaken(maxRetries: int, n: int, admitted: bool, env: Env) {
    MayRetry(n, maxRetries, admitted, env) && (env.publish.Confirmed? || env.publish.TakenButErrored?)
  }

  lemma WorkMeans(cfg: Config, w: World, st: Step, n: int)
    requires OriginsKnown(w) && Enabled(w, st) && st.Work? && CountIs(w.copies[st.c].m.headers, n)
    ensures var w', copy := Apply(cfg, w, st), w.copies[st.c];
            && st.c in w'.copies
            && w'.copies[st.c] == copy.(status := Expected(CaseOf(cfg.maxRetries, n, st.admitted, st.env)))
            && (st.id in w'.copies <==> RetryTaken(cfg.maxRetries, n, st.admitted, st.env))
            && (st.id in w'.copies ==>
                  && NextAttempt(copy.m, n, st.env.uuid, w'.copies[st.id].m)
                  && w'.copies[st.id].msg == copy.msg && w'.copies[st.id].place == copy.place
                  && w'.copies[st.id].why == copy.why && w'.copies[st.id].status.Ready?)
            && (forall c <- w.copies :: c != st.c ==> c in w'.copies && w'.copies[c] == w.copies[c])
  {
    DecidesRightly(w.copies[st.c].m, n, cfg.maxRetries, st.admitted, st.env);
  }

  // ----- what becomes of the copy -----

  /** Step `st` receives the settlement of copy `c`, or cuts it off. */
  predicate Touches(st: Step, c: nat) {
    st == Settle(c) || st == Interrupt(c)
  }

  lemma {:induction false} SettlementWaits(cfg: Config, w: World, c: nat, more: seq<Step>)
    requires OriginsKnown(w) && Run(cfg, w, more) && c in w.copies
    requires w.copies[c].status.Acking? || w.copies[c].status.Nacking?
    requires forall st <- more :: !Touches(st, c)
    ensures var w' := Exec(cfg, w, more);
            && c in w'.copies && w'.copies[c] == w.copies[c] && w.copies[c].msg in w'.origins
            && w'.origins[w.copies[c].msg] == w.origins[w.copies[c].msg]
    decreases |more|
  {
    if more != [] {
      assert more[0] in more;
      OriginsStayKnown(cfg, w, more[0]);
      SettlementWaits(cfg, Apply(cfg, w, more[0]), c, more[1..]);
    }
  }

  /** Rejected from a main queue with a dead-letter exchange, the copy is a dead letter; elsewhere it is dropped. */
  ghost predicate DeadLettered(cfg: Config, origin: Origin, copy: Copy, why: Why, done: Copy) {
    if copy.place.InMain? && origin.hasDLX then
      && done.place.InDlq? && done.status.Ready? && done.why == why && done.msg == copy.msg
      && done.m == copy.m.(exchange := cfg.dlx, key := origin.queue, headers := done.m.headers)
      && SameBut(done.m.headers, copy.m.headers, {"x-death"})
      && (exists d :: LatestDeath(done.m.headers, d) && Target(d, copy.m.exchange, copy.m.key)
                      && "queue" in d && d["queue"] == VStr(origin.queue))
    else done == copy.(status := Dropped(NoDeadLetterExchange))
  }

  ghost predicate Ends(cfg: Config, origin: Origin, copy: Copy, k: Case, done: Copy) {
    match k
    case Refused => DeadLettered(cfg, origin, copy, BreakerOpen, done)
    case NoRetryLeft => DeadLettered(cfg, origin, copy, Exhausted, done)
    case RetryFailed => DeadLettered(cfg, origin, copy, PublishFailed, done)
    case NoHandler => done == copy.(status := Dropped(UnregisteredType))
    case Succeeded => done == copy.(status := Gone)
    case Retried => done == copy.(status := Gone)
  }

  lemma RejectedEnds(cfg: Config, w: World, c: nat, why: Why)
    requires Enabled(w, Settle(c)) && w.copies[c].msg in w.origins && w.copies[c].status == Nacking(why)
    ensures var copy := w.copies[c];
            var done := AfterSettle(cfg, w, c);
            DeadLettered(cfg, w.origins[copy.msg], copy.(status := done.status), why, done)
  {
    var copy := w.copies[c];
    var origin := w.origins[copy.msg];
    if copy.place.InMain? && origin.hasDLX {
      var dead := DeadLetter(copy.m, origin.queue, cfg.dlx);
      assert LatestDeath(dead.headers, DeathEntry(copy.m, origin.queue));
      assert Target(DeathEntry(copy.m, origin.queue), copy.m.exchange, copy.m.key);
    }
  }

  /**
   In every run, a copy that is worked on, and whose settlement is then received
   whatever happens in between, ends as its case demands: a copy the breaker refused,
   whose retries were used up or whose retry was reported as failed becomes a dead
   letter, or is dropped where there is no dead-letter exchange; one without a
   handler is dropped; any other is gone.
   */
  lemma WorkEnds(cfg: Config, steps: seq<Step>, st: Step, more: seq<Step>, n: int)
    requires Run(cfg, EMPTY, steps)
    requires Enabled(Exec(cfg, EMPTY, steps), st) && st.Work?
    requires CountIs(Exec(cfg, EMPTY, steps).copies[st.c].m.headers, n)
    requires OriginsKnown(Apply(cfg, Exec(cfg, EMPTY, steps), st))
    requires Run(cfg, Apply(cfg, Exec(cfg, EMPTY, steps), st), more) && forall t <- more :: !Touches(t, st.c)
    ensures var w, later := Exec(cfg, EMPTY, steps), Exec(cfg, Apply(cfg, Exec(cfg, EMPTY, steps), st), more);
            && Enabled(later, Settle(st.c)) && w.copies[st.c].msg in w.origins
            && var copy, done := w.copies[st.c], Apply(cfg, later, Settle(st.c)).copies[st.c];
               Ends(cfg, w.origins[copy.msg], copy.(status := done.status),
                    CaseOf(cfg.maxRetries, n, st.admitted, st.env), done)
  {
    var w := Exec(cfg, EMPTY, steps);
    WorkMeans(cfg, w, st, n);
    SettlementWaits(cfg, Apply(cfg, w, st), st.c, more);
    var later := Exec(cfg, Apply(cfg, w, st), more);
    if later.copies[st.c].status.Nacking? {
      RejectedEnds(cfg, later, st.c, later.copies[st.c].status.why);
    }
  }

  // ----- one requeue -----

  lemma RequeueMeans(cfg: Config, w: World, st: Step)
    requires OriginsKnown(w) && Enabled(w, st) && st.Requeue?
    ensures var w', copy := Apply(cfg, w, st), w.copies[st.c];
            var back := Requeued(copy.m, st.reset);
            && st.c in w'.copies
            && w'.copies[st.c] == (if back.Some? && (st.verdict.Confirmed? || st.verdict.FalselyConfirmed?)
                                   then copy.(status := Acking(Replaced)) else copy)
            && (st.id in w'.copies <==> back.Some? && (st.verdict.Confirmed? || st.verdict.TakenButErrored?))
            && (st.id in w'.copies ==>
                  && w'.copies[st.id].m == back.value && w'.copies[st.id].msg == copy.msg
                  && w'.copies[st.id].place.InMain? && w'.copies[st.id].status.Ready?)
            && (forall c <- w.copies :: c != st.c ==> c in w'.copies && w'.copies[c] == w.copies[c])
  {
  }

  // ----- what the ledger counts -----

  /** A handler ran on a copy of `msg` and succeeded. */
  predicate Success(w: World, st: Step, msg: nat) {
    && st.Work? && st.c in w.copies && w.copies[st.c].msg == msg
    && st.admitted && st.env.registered && st.env.handlerOk
  }

  /** A copy of `msg` was published again, by a retry or a requeue, and that fared as `v`. */
  predicate Republished(cfg: Config, w: World, st: Step, msg: nat, v: PublishVerdict) {
    (st.Work? || st.Requeue?) && st.c in w.copies && w.copies[st.c].msg == msg &&
    var m := w.copies[st.c].m;
    if st.Work? then MayRetry(GetRetryCount(m.headers), cfg.maxRetries, st.admitted, st.env) && st.env.publish == v
    else Requeued(m, st.reset).Some? && st.verdict == v
  }

  /** The broker makes a copy of `msg` ready again that was handled, or replaced by another. */
  predicate CutOff(w: World, st: Step, msg: nat) {
    && st.Interrupt? && st.c in w.copies && w.copies[st.c].msg == msg
    && (w.copies[st.c].status == Acking(Handled) || w.copies[st.c].status == Acking(Replaced))
  }

  function One(p: bool): nat {
    if p then 1 else 0
  }

  lemma CountersStep(cfg: Config, w: World, st: Step, msg: nat)
    requires OriginsKnown(w) && Enabled(w, st)
    ensures var w' := Apply(cfg, w, st);
            && Count(w'.handled, msg) == Count(w.handled, msg) + One(Success(w, st, msg))
            && Count(w'.lost, msg) == Count(w.lost, msg) + One(Republished(cfg, w, st, msg, FalselyConfirmed))
            && Count(w'.extra, msg) == Count(w.extra, msg) + One(CutOff(w, st, msg))
                                       + One(Republished(cfg, w, st, msg, TakenButErrored))
  {
  }

  /** How many steps of a run are as `h` says. */
  ghost function Tally(cfg: Config, w: World, steps: seq<Step>, h: (World, Step) -> bool): nat
    requires OriginsKnown(w) && Run(cfg, w, steps)
    decreases |steps|
  {
    if steps == [] then 0
    else
      OriginsStayKnown(cfg, w, steps[0]);
      One(h(w, steps[0])) + Tally(cfg, Apply(cfg, w, steps[0]), steps[1..], h)
  }

  function Successes(msg: nat): (World, Step) -> bool {
    (w, st) => Success(w, st, msg)
  }

  function Republishes(cfg: Config, msg: nat, v: PublishVerdict): (World, Step) -> bool {
    (w, st) => Republished(cfg, w, st, msg, v)
  }

  function CutOffs(msg: nat): (World, Step) -> bool {
    (w, st) => CutOff(w, st, msg)
  }

  lemma {:induction false} CountersFrom(cfg: Config, w: World, steps: seq<Step>, msg: nat)
    requires OriginsKnown(w) && Run(cfg, w, steps)
    ensures var w' := Exec(cfg, w, steps);
            && Count(w'.handled, msg) == Count(w.handled, msg) + Tally(cfg, w, steps, Successes(msg))
            && Count(w'.lost, msg)
               == Count(w.lost, msg) + Tally(cfg, w, steps, Republishes(cfg, msg, FalselyConfirmed))
            && Count(w'.extra, msg)
               == Count(w.extra, msg) + Tally(cfg, w, steps, CutOffs(msg))
                  + Tally(cfg, w, steps, Republishes(cfg, msg, TakenButErrored))
    decreases |steps|
  {
    if steps != [] {
      OriginsStayKnown(cfg, w, steps[0]);
      CountersStep(cfg, w, steps[0], msg);
      CountersFrom(cfg, Apply(cfg, w, steps[0]), steps[1..], msg);
    }
  }

  /**
   The ledger in terms of what happened.  In every run the counters count exactly the
   handler runs that succeeded, the republishes that were reported and not taken,
   and those that were taken and not reported together with the settlements cut off
   too late; and with these numbers the copies of every message balance.
   */
  lemma LedgerOfEvents(cfg: Config, steps: seq<Step>, msg: nat)
    requires Run(cfg, EMPTY, steps)
    ensures var w := Exec(cfg, EMPTY, steps);
            var succeeded := Tally(cfg, EMPTY, steps, Successes(msg));
            var lost := Tally(cfg, EMPTY, steps, Republishes(cfg, msg, FalselyConfirmed));
            var doubled := Tally(cfg, EMPTY, steps, Republishes(cfg, msg, TakenButErrored));
            var late := Tally(cfg, EMPTY, steps, CutOffs(msg));
            && Count(w.handled, msg) == succeeded && Count(w.lost, msg) == lost && Count(w.extra, msg) == doubled + late
            && (msg in w.origins ==>
                  |LiveCopies(w, msg)| + |Discards(w, msg)| + succeeded + lost == 1 + doubled + late)
  {
    CountersFrom(cfg, EMPTY, steps, msg);
    if msg in Exec(cfg, EMPTY, steps).origins {
      MessageLedger(cfg, steps, msg);
    }
  }
}
