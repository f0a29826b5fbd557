/**
 The life cycle of messages: published to a main queue, delivered to workers,
 retried, dead-lettered, requeued.  The broker is a set of copies; every copy of
 a message is tracked from its publication to its end.  A settlement is sent by
 the worker and takes effect when the broker receives it; if the connection or
 the worker stops first, the broker makes the copy ready again.
 */
module Lifecycle {
  import opened Messages

  datatype Config = Config(maxRetries: int, dlx: string)

  datatype Place = InMain | InDlq

  /** Where the content of an acknowledged copy went. */
  datatype Passed = Replaced | Handled | Unregistered

  datatype Reason = UnregisteredType | NoDeadLetterExchange

  datatype Status =
    | Ready
    | Unacked
    | Acking(passed: Passed)
    | Nacking(why: Why)       // without requeue
    | Dropped(reason: Reason)
    | Gone

  /**
   `why` is the cause of the copy's latest dead-lettering, `trace` the first trace
   id that a broker copy in its line of descent carried.
   */
  datatype Copy = Copy(msg: nat, place: Place, m: Message, status: Status, why: Why, trace: Option<string>)

  function Inherit(parent: Copy, m: Message): Option<string> {
    if parent.trace.Some? then parent.trace else StringOf(m.headers, TRACE_HEADER)
  }

  datatype Origin = Origin(first: Message, queue: string, hasDLX: bool)

  datatype World = World(
    origins: map<nat, Origin>,
    copies: map<nat, Copy>,
    handled: map<nat, nat>,     // handler successes per message
    extra: map<nat, nat>,       // publishes taken but reported as errors, and lost acks, per message
    lost: map<nat, nat>)        // publishes reported as successes but not taken, per message

  datatype Step =
    | Publish(msg: nat, id: nat, m: Message, queue: string, hasDLX: bool)
    | Deliver(c: nat)
    | Work(c: nat, admitted: bool, env: Env, id: nat)
    | Settle(c: nat)
    | Interrupt(c: nat)
    | Requeue(c: nat, reset: bool, verdict: PublishVerdict, id: nat)

  const EMPTY := World(map[], map[], map[], map[], map[])

  function Count(m: map<nat, nat>, k: nat): nat {
    if k in m then m[k] else 0
  }

  function Bump(m: map<nat, nat>, k: nat): map<nat, nat> {
    m[k := Count(m, k) + 1]
  }

  predicate Enabled(w: World, st: Step) {
    match st
    case Publish(msg, id, _, _, _) => msg !in w.origins && id !in w.copies
    case Deliver(c) => c in w.copies && w.copies[c].status.Ready?
    case Work(c, _, _, id) => c in w.copies && w.copies[c].status.Unacked? && id !in w.copies
    case Settle(c) => c in w.copies && (w.copies[c].status.Acking? || w.copies[c].status.Nacking?)
    case Interrupt(c) =>
      c in w.copies && (w.copies[c].status.Unacked? || w.copies[c].status.Acking? || w.copies[c].status.Nacking?)
    case Requeue(c, _, _, id) =>
      c in w.copies && w.copies[c].status.Unacked? && w.copies[c].place.InDlq? && id !in w.copies
  }

  function StatusAfter(d: Decision, env: Env): Status {
    match d.settle
    case Nack(_) => Nacking(d.why)
    case Ack =>
      Acking(if d.republished.Some? then Replaced else if env.registered then Handled else Unregistered)
  }

  function AfterWork(cfg: Config, w: World, st: Step): World
    requires st.Work? && Enabled(w, st)
  {
    var copy := w.copies[st.c];
    var d := Decide(copy.m, cfg.maxRetries, st.admitted, st.env);
    var status := StatusAfter(d, st.env);
    var spawned := d.republished.Some? && Taken(st.env.publish);
    var moved := w.copies[st.c := copy.(status := status)];
    World(w.origins,
          if spawned then moved[st.id := Copy(copy.msg, copy.place, d.republished.value, Ready, copy.why,
                                               Inherit(copy, d.republished.value))] else moved,
          if status == Acking(Handled) then Bump(w.handled, copy.msg) else w.handled,
          if spawned && status.Nacking? then Bump(w.extra, copy.msg) else w.extra,
          if status == Acking(Replaced) && !spawned then Bump(w.lost, copy.msg) else w.lost)
  }

  function AfterSettle(cfg: Config, w: World, c: nat): Copy
    requires Enabled(w, Settle(c)) && w.copies[c].msg in w.origins
  {
    var copy := w.copies[c];
    var origin := w.origins[copy.msg];
    match copy.status
    case Nacking(why) =>
      if copy.place.InMain? && origin.hasDLX
      then Copy(copy.msg, InDlq, DeadLetter(copy.m, origin.queue, cfg.dlx), Ready, why, copy.trace)
      else copy.(status := Dropped(NoDeadLetterExchange))
    case Acking(passed) =>
      copy.(status := if passed.Unregistered? then Dropped(UnregisteredType) else Gone)
    case _ => copy
  }

  /** Copy `c` is published again as `back`, and acknowledged if that is reported as a success. */
  function Replace(w: World, c: nat, id: nat, back: Copy, v: PublishVerdict): World
    requires c in w.copies
  {
    var msg := w.copies[c].msg;
    var moved := if ReportedOk(v) then w.copies[c := w.copies[c].(status := Acking(Replaced))] else w.copies;
    World(w.origins,
          if Taken(v) then moved[id := back] else moved,
          w.handled,
          if v.TakenButErrored? then Bump(w.extra, msg) else w.extra,
          if v.FalselyConfirmed? then Bump(w.lost, msg) else w.lost)
  }

  function AfterRequeue(w: World, st: Step): World
    requires st.Requeue? && Enabled(w, st)
  {
    var copy := w.copies[st.c];
    var again := Requeued(copy.m, st.reset);
    if again.None? then w
    else
      var back := Copy(copy.msg, InMain, again.value, Ready, NotDead, Inherit(copy, again.value));
      Replace(w, st.c, st.id, back, st.verdict)
  }

  predicate OriginsKnown(w: World) {
    forall c <- w.copies :: w.copies[c].msg in w.origins
  }

  function Apply(cfg: Config, w: World, st: Step): World
    requires OriginsKnown(w) && Enabled(w, st)
  {
    match st
    case Publish(msg, id, m, queue, hasDLX) =>
      w.(origins := w.origins[msg := Origin(m, queue, hasDLX)],
         copies := w.copies[id := Copy(msg, InMain, m, Ready, NotDead, StringOf(m.headers, TRACE_HEADER))])
    case Deliver(c) => w.(copies := w.copies[c := w.copies[c].(status := Unacked)])
    case Work(_, _, _, _) => AfterWork(cfg, w, st)
    case Settle(c) => w.(copies := w.copies[c := AfterSettle(cfg, w, c)])
    case Interrupt(c) =>
      w.(copies := w.copies[c := w.copies[c].(status := Ready)],
         extra := if w.copies[c].status == Acking(Replaced) || w.copies[c].status == Acking(Handled)
                  then Bump(w.extra, w.copies[c].msg) else w.extra)
    case Requeue(_, _, _, _) => AfterRequeue(w, st)
  }

  lemma OriginsStayKnown(cfg: Config, w: World, st: Step)
    requires OriginsKnown(w) && Enabled(w, st)
    ensures OriginsKnown(Apply(cfg, w, st))
  {
  }

  ghost predicate Run(cfg: Config, w: World, steps: seq<Step>)
    requires OriginsKnown(w)
    decreases |steps|
  {
    steps == [] ||
    (Enabled(w, steps[0]) && (OriginsStayKnown(cfg, w, steps[0]); Run(cfg, Apply(cfg, w, steps[0]), steps[1..])))
  }

  ghost function Exec(cfg: Config, w: World, steps: seq<Step>): World
    requires OriginsKnown(w) && Run(cfg, w, steps)
    ensures OriginsKnown(Exec(cfg, w, steps))
    decreases |steps|
  {
    if steps == [] then w
    else (OriginsStayKnown(cfg, w, steps[0]); Exec(cfg, Apply(cfg, w, steps[0]), steps[1..]))
  }

  lemma RunFirst(cfg: Config, w: World, st: Step, steps: seq<Step>)
    requires OriginsKnown(w) && Enabled(w, st)
    requires OriginsKnown(Apply(cfg, w, st)) && Run(cfg, Apply(cfg, w, st), steps)
    ensures Run(cfg, w, [st] + steps) && Exec(cfg, w, [st] + steps) == Exec(cfg, Apply(cfg, w, st), steps)
  {
    assert ([st] + steps)[1..] == steps;
  }

  // ----- the ledger -----

  /** The copy still carries the message's content: live, or recorded as dropped. */
  predicate Carries(status: Status) {
    !status.Gone? && status != Acking(Replaced) && status != Acking(Handled)
  }

  predicate Live(status: Status) {
    Carries(status) && !status.Dropped?
  }

  ghost function Carriers(w: World, msg: nat): set<nat> {
    set c | c in w.copies && w.copies[c].msg == msg && Carries(w.copies[c].status)
  }

  ghost function LiveCopies(w: World, msg: nat): set<nat> {
    set c | c in w.copies && w.copies[c].msg == msg && Live(w.copies[c].status)
  }

  ghost function Discards(w: World, msg: nat): set<nat> {
    set c | c in w.copies && w.copies[c].msg == msg && w.copies[c].status.Dropped?
  }

  ghost predicate Balanced(w: World, msg: nat) {
    |Carriers(w, msg)| + Count(w.handled, msg) + Count(w.lost, msg) ==
    (if msg in w.origins then 1 else 0) + Count(w.extra, msg)
  }

  /** Dropped copies carry one of two reasons, and the second needs a queue without dead-letter exchange. */
  ghost predicate DropsExplained(w: World) {
    forall c <- w.copies :: w.copies[c].status == Dropped(NoDeadLetterExchange) ==>
                              w.copies[c].msg in w.origins &&
                              (w.copies[c].place.InDlq? || !w.origins[w.copies[c].msg].hasDLX)
  }

  /** What copy `c` adds to the carriers of `msg`. */
  function Share(w: World, c: nat, msg: nat): nat {
    if c in w.copies && w.copies[c].msg == msg && Carries(w.copies[c].status) then 1 else 0
  }

  lemma CarriersAfter(w: World, w': World, c: nat, msg: nat)
    requires c in w'.copies && w'.copies == w.copies[c := w'.copies[c]]
    ensures |Carriers(w', msg)| == |Carriers(w, msg)| - Share(w, c, msg) + Share(w', c, msg)
  {
    var rest := Carriers(w, msg) - {c};
    assert Carriers(w, msg) == if Share(w, c, msg) == 1 then rest + {c} else rest;
    assert Carriers(w', msg) == if Share(w', c, msg) == 1 then rest + {c} else rest;
  }

  /** The world after a step has changed copy `c` only, before it adds a new one. */
  function Midway(w: World, w': World, c: nat): World
    requires c in w'.copies
  {
    w.(copies := w.copies[c := w'.copies[c]])
  }

  /** What a worker or a requeue writes, and how the books of `msg` change. */
  ghost predicate Books(w: World, w': World, c: nat, id: nat, msg: nat) {
    && w'.origins == w.origins && c in w'.copies
    && w'.copies == (if id in w'.copies then Midway(w, w', c).copies[id := w'.copies[id]]
                     else Midway(w, w', c).copies)
    && Share(w', c, msg) + Share(w', id, msg)
       + Count(w'.handled, msg) + Count(w'.lost, msg) + Count(w.extra, msg) ==
       Share(w, c, msg) + Count(w.handled, msg) + Count(w.lost, msg) + Count(w'.extra, msg)
  }

  lemma WorkerShares(cfg: Config, w: World, st: Step, msg: nat)
    requires st.Work? && Enabled(w, st)
    ensures Books(w, AfterWork(cfg, w, st), st.c, st.id, msg)
  {
    var d := Decide(w.copies[st.c].m, cfg.maxRetries, st.admitted, st.env);
    assert AfterWork(cfg, w, st).copies[st.c].status == StatusAfter(d, st.env);
  }

  lemma ReplaceShares(w: World, c: nat, id: nat, back: Copy, v: PublishVerdict, msg: nat)
    requires c in w.copies && id !in w.copies && w.copies[c].status.Unacked?
    requires back.msg == w.copies[c].msg && back.status.Ready?
    ensures Books(w, Replace(w, c, id, back, v), c, id, msg)
  {
    var w' := Replace(w, c, id, back, v);
    assert w.copies[c := w.copies[c]] == w.copies;
    assert w'.copies[c].msg == w.copies[c].msg;
    match v
    case Confirmed => assert Share(w', c, msg) == 0;
    case FalselyConfirmed => assert Share(w', c, msg) == 0;
    case Refused => assert w' == w;
    case TakenButErrored => assert w'.copies[c] == w.copies[c];
  }

  lemma RequeueShares(w: World, st: Step, msg: nat)
    requires st.Requeue? && Enabled(w, st)
    ensures Books(w, AfterRequeue(w, st), st.c, st.id, msg)
  {
    var copy := w.copies[st.c];
    var again := Requeued(copy.m, st.reset);
    if again.Some? {
      var back := Copy(copy.msg, InMain, again.value, Ready, NotDead, Inherit(copy, again.value));
      ReplaceShares(w, st.c, st.id, back, st.verdict, msg);
    } else {
      assert w.copies[st.c := copy] == w.copies;
    }
  }

  lemma BooksBalance(w: World, w': World, c: nat, id: nat, msg: nat)
    requires Books(w, w', c, id, msg) && Balanced(w, msg) && c in w.copies && id !in w.copies
    ensures Balanced(w', msg)
  {
    var mid := Midway(w, w', c);
    CarriersAfter(w, mid, c, msg);
    if id in w'.copies {
      CarriersAfter(mid, w', id, msg);
    } else {
      assert Carriers(w', msg) == Carriers(mid, msg);
    }
  }

  lemma BalancedStep(cfg: Config, w: World, st: Step, msg: nat)
    requires OriginsKnown(w) && Balanced(w, msg) && Enabled(w, st)
    ensures Balanced(Apply(cfg, w, st), msg)
  {
    var w' := Apply(cfg, w, st);
    if st.Work? {
      WorkerShares(cfg, w, st, msg);
      BooksBalance(w, w', st.c, st.id, msg);
    } else if st.Requeue? {
      RequeueShares(w, st, msg);
      BooksBalance(w, w', st.c, st.id, msg);
    } else {
      CarriersAfter(w, w', if st.Publish? then st.id else st.c, msg);
    }
  }

  lemma DropsStayExplained(cfg: Config, w: World, st: Step)
    requires OriginsKnown(w) && DropsExplained(w) && Enabled(w, st)
    ensures DropsExplained(Apply(cfg, w, st))
  {
  }

  lemma {:induction false} BalancedAlways(cfg: Config, w: World, steps: seq<Step>, msg: nat)
    requires OriginsKnown(w) && Run(cfg, w, steps) && Balanced(w, msg) && DropsExplained(w)
    ensures Balanced(Exec(cfg, w, steps), msg) && DropsExplained(Exec(cfg, w, steps))
    decreases |steps|
  {
    if steps != [] {
      OriginsStayKnown(cfg, w, steps[0]);
      BalancedStep(cfg, w, steps[0], msg);
      DropsStayExplained(cfg, w, steps[0]);
      BalancedAlways(cfg, Apply(cfg, w, steps[0]), steps[1..], msg);
    }
  }

  /**
   The message ledger.  In every run, for every published message, the live copies
   plus the recorded discards plus the handler successes plus the losses number
   exactly one more than the duplications.  A loss is a publish reported as a
   success that the broker did not take; a duplication is a publish the broker took
   but reported as an error, or a stop between a republish or a handler success
   and its ack.
   */
  lemma MessageLedger(cfg: Config, steps: seq<Step>, msg: nat)
    requires Run(cfg, EMPTY, steps)
    requires msg in Exec(cfg, EMPTY, steps).origins
    ensures var w := Exec(cfg, EMPTY, steps);
            && |LiveCopies(w, msg)| + |Discards(w, msg)| + Count(w.handled, msg) + Count(w.lost, msg)
               == 1 + Count(w.extra, msg)
            && DropsExplained(w)
  {
    assert Carriers(EMPTY, msg) == {};
    BalancedAlways(cfg, EMPTY, steps, msg);
    var w := Exec(cfg, EMPTY, steps);
    assert Carriers(w, msg) == LiveCopies(w, msg) + Discards(w, msg);
  }

  /** The message has left no trace: no live copy, no recorded discard, no handler success. */
  ghost predicate Vanished(w: World, msg: nat) {
    LiveCopies(w, msg) == {} && Discards(w, msg) == {} && Count(w.handled, msg) == 0
  }

  /** A message vanishes if and only if its losses outnumber its duplications, and then by exactly one. */
  lemma VanishesIffLost(cfg: Config, steps: seq<Step>, msg: nat)
    requires Run(cfg, EMPTY, steps)
    requires msg in Exec(cfg, EMPTY, steps).origins
    ensures var w := Exec(cfg, EMPTY, steps);
            && (Vanished(w, msg) <==> Count(w.lost, msg) > Count(w.extra, msg))
            && Count(w.lost, msg) <= Count(w.extra, msg) + 1
  {
    MessageLedger(cfg, steps, msg);
  }

  /** No publish of the run is reported as a success without having been taken. */
  ghost predicate Truthful(steps: seq<Step>) {
    forall i | 0 <= i < |steps| ::
      && (steps[i].Work? ==> !steps[i].env.publish.FalselyConfirmed?)
      && (steps[i].Requeue? ==> !steps[i].verdict.FalselyConfirmed?)
  }

  lemma {:induction false} TruthfulLosesNothing(cfg: Config, w: World, steps: seq<Step>, msg: nat)
    requires OriginsKnown(w) && Run(cfg, w, steps) && Truthful(steps)
    ensures Count(Exec(cfg, w, steps).lost, msg) == Count(w.lost, msg)
    decreases |steps|
  {
    if steps != [] {
      OriginsStayKnown(cfg, w, steps[0]);
      assert Apply(cfg, w, steps[0]).lost == w.lost;
      assert Truthful(steps[1..]);
      TruthfulLosesNothing(cfg, Apply(cfg, w, steps[0]), steps[1..], msg);
    }
  }

  /** If a nil error always means that the broker took the message, no message vanishes. */
  lemma NothingVanishes(cfg: Config, steps: seq<Step>, msg: nat)
    requires Run(cfg, EMPTY, steps) && Truthful(steps)
    requires msg in Exec(cfg, EMPTY, steps).origins
    ensures !Vanished(Exec(cfg, EMPTY, steps), msg)
  {
    VanishesIffLost(cfg, steps, msg);
    TruthfulLosesNothing(cfg, EMPTY, steps, msg);
  }

  /**
   One falsely confirmed retry is enough: for every configuration that retries,
   every message below the limit and every queue there is a run, with no other
   fault, in which the message vanishes.
   */
  lemma FalseConfirmationVanishes(cfg: Config, m: Message, queue: string, hasDLX: bool, uuid: string)
    returns (steps: seq<Step>)
    requires GetRetryCount(m.headers) < cfg.maxRetries
    ensures Run(cfg, EMPTY, steps) && 0 in Exec(cfg, EMPTY, steps).origins
    ensures Vanished(Exec(cfg, EMPTY, steps), 0)
    ensures Count(Exec(cfg, EMPTY, steps).extra, 0) == 0 && Count(Exec(cfg, EMPTY, steps).lost, 0) == 1
  {
    var fails := Env(true, false, FalselyConfirmed, uuid);
    var s1, s2, s3, s4 := Publish(0, 0, m, queue, hasDLX), Deliver(0), Work(0, true, fails, 1), Settle(0);
    var w1 := Apply(cfg, EMPTY, s1);
    var w2 := Apply(cfg, w1, s2);
    var w3 := Apply(cfg, w2, s3);
    var w4 := Apply(cfg, w3, s4);
    assert w3.copies[0].status == Acking(Replaced) && w3.lost == map[0 := 1];
    assert w4.copies.Keys == {0} && w4.copies[0].status.Gone?;
    RunFirst(cfg, w3, s4, []);
    RunFirst(cfg, w2, s3, [s4]);
    RunFirst(cfg, w1, s2, [s3, s4]);
    RunFirst(cfg, EMPTY, s1, [s2, s3, s4]);
    steps := [s1] + [s2, s3, s4];
  }

  /** The events that can duplicate or lose a message. */
  ghost predicate Ambiguous(w: World, st: Step) {
    match st
    case Work(_, _, env, _) => env.publish.TakenButErrored? || env.publish.FalselyConfirmed?
    case Requeue(_, _, v, _) => v.TakenButErrored? || v.FalselyConfirmed?
    case Interrupt(c) =>
      c in w.copies && (w.copies[c].status == Acking(Replaced) || w.copies[c].status == Acking(Handled))
    case _ => false
  }

  ghost predicate Unambiguous(cfg: Config, w: World, steps: seq<Step>)
    requires OriginsKnown(w) && Run(cfg, w, steps)
    decreases |steps|
  {
    steps == [] ||
    (!Ambiguous(w, steps[0]) &&
     (OriginsStayKnown(cfg, w, steps[0]); Unambiguous(cfg, Apply(cfg, w, steps[0]), steps[1..])))
  }

  lemma {:induction false} UnambiguousAddsNothing(cfg: Config, w: World, steps: seq<Step>, msg: nat)
    requires OriginsKnown(w) && Run(cfg, w, steps) && Unambiguous(cfg, w, steps)
    ensures Count(Exec(cfg, w, steps).extra, msg) == Count(w.extra, msg)
    ensures Count(Exec(cfg, w, steps).lost, msg) == Count(w.lost, msg)
    decreases |steps|
  {
    if steps != [] {
      OriginsStayKnown(cfg, w, steps[0]);
      assert Apply(cfg, w, steps[0]).extra == w.extra && Apply(cfg, w, steps[0]).lost == w.lost;
      UnambiguousAddsNothing(cfg, Apply(cfg, w, steps[0]), steps[1..], msg);
    }
  }

  /** Without them every message is in exactly one place, or was handled exactly once. */
  lemma ExactlyOnceWithoutAmbiguity(cfg: Config, steps: seq<Step>, msg: nat)
    requires Run(cfg, EMPTY, steps) && Unambiguous(cfg, EMPTY, steps)
    requires msg in Exec(cfg, EMPTY, steps).origins
    ensures var w := Exec(cfg, EMPTY, steps);
            |LiveCopies(w, msg)| + |Discards(w, msg)| + Count(w.handled, msg) == 1
  {
    MessageLedger(cfg, steps, msg);
    UnambiguousAddsNothing(cfg, EMPTY, steps, msg);
  }
}
