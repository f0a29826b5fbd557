/**
 Several workers on one queue and one breaker.  Each takes the next delivery, asks
 the breaker, and later finishes; between these atomic steps the other workers run
 in any order.  The handlers of different deliveries overlap, and so do their
 reports to the breaker.
 */
module Workers {
  import opened Messages
  import opened CircuitBreaker
  import opened BreakerProgress
  import opened Consumer

  datatype Phase =
    | Waiting
    | Fetched                        // a worker has it, and has not asked the breaker yet
    | Handling                       // admitted, its handler runs
    | Settled(decision: Decision)

  /** The deliveries, in queue order, with what the environment answers on each. */
  datatype Plant = Plant(jobs: seq<Job<Message>>, maxRetries: int, workers: nat)

  datatype Floor = Floor(guard: Guard, phases: seq<Phase>)

  datatype Turn =
    | Fetch(j: nat)
    | AskFor(j: nat)
    | FinishOff(j: nat)

  ghost function Running(f: Floor): set<nat> {
    set j: nat | j < |f.phases| && f.phases[j].Handling?
  }

  /** Every worker has at most one delivery at a time. */
  ghost function Busy(f: Floor): set<nat> {
    set j: nat | j < |f.phases| && (f.phases[j].Fetched? || f.phases[j].Handling?)
  }

  ghost predicate Enabled(pl: Plant, f: Floor, t: Turn) {
    && t.j < |f.phases| && |f.phases| == |pl.jobs|
    && match t
       case Fetch(j) =>
         f.phases[j].Waiting? && (forall i | 0 <= i < j :: !f.phases[i].Waiting?) && |Busy(f)| < pl.workers
       case AskFor(j) => f.phases[j].Fetched?
       case FinishOff(j) => f.phases[j].Handling?
  }

  function Verdict(pl: Plant, j: nat, admitted: bool): Decision
    requires j < |pl.jobs|
  {
    Decide(pl.jobs[j].item, pl.maxRetries, admitted, pl.jobs[j].env)
  }

  ghost function Apply(pl: Plant, f: Floor, t: Turn): Floor
    requires Enabled(pl, f, t)
  {
    var job := pl.jobs[t.j];
    match t
    case Fetch(j) => f.(phases := f.phases[j := Fetched])
    case AskFor(j) =>
      var admitted := GuardAdmits(f.guard, job.clk);
      Floor(Asked(f.guard, job.clk),
            f.phases[j := if admitted && job.env.registered then Handling else Settled(Verdict(pl, j, admitted))])
    case FinishOff(j) =>
      Floor(Told(f.guard, job.env, job.clk), f.phases[j := Settled(Verdict(pl, j, true))])
  }

  ghost predicate Run(pl: Plant, f: Floor, turns: seq<Turn>)
    decreases |turns|
  {
    turns == [] || (Enabled(pl, f, turns[0]) && Run(pl, Apply(pl, f, turns[0]), turns[1..]))
  }

  ghost function Exec(pl: Plant, f: Floor, turns: seq<Turn>): Floor
    requires Run(pl, f, turns)
    decreases |turns|
  {
    if turns == [] then f else Exec(pl, Apply(pl, f, turns[0]), turns[1..])
  }

  /** Nothing fetched yet. */
  function Opening(pl: Plant, guard: Guard): Floor {
    Floor(guard, seq(|pl.jobs|, i => Waiting))
  }

  // ----- what every interleaving keeps -----

  ghost predicate FloorInv(pl: Plant, f: Floor) {
    && |f.phases| == |pl.jobs| && |Busy(f)| <= pl.workers
    && (forall j: nat | j < |f.phases| :: f.phases[j].Handling? ==> pl.jobs[j].env.registered)
  }

  /** A turn changes the phase of one delivery. */
  lemma BusyAfter(pl: Plant, f: Floor, t: Turn)
    requires Enabled(pl, f, t)
    ensures var f' := Apply(pl, f, t);
            Busy(f') == if f'.phases[t.j].Settled? then Busy(f) - {t.j} else Busy(f) + {t.j}
  {
  }

  lemma RunningAfter(pl: Plant, f: Floor, t: Turn)
    requires Enabled(pl, f, t)
    ensures t.j in Running(f) <==> t.FinishOff?
    ensures var f' := Apply(pl, f, t);
            Running(f') == if f'.phases[t.j].Handling? then Running(f) + {t.j} else Running(f) - {t.j}
  {
  }

  lemma FloorStep(pl: Plant, f: Floor, t: Turn)
    requires FloorInv(pl, f) && Enabled(pl, f, t)
    ensures FloorInv(pl, Apply(pl, f, t))
  {
    BusyAfter(pl, f, t);
    if !t.Fetch? {
      assert t.j in Busy(f);
      assert Busy(f) + {t.j} == Busy(f);
    }
  }

  lemma {:induction false} FloorAlways(pl: Plant, f: Floor, turns: seq<Turn>)
    requires FloorInv(pl, f) && Run(pl, f, turns)
    ensures FloorInv(pl, Exec(pl, f, turns))
    decreases |turns|
  {
    if turns != [] {
      FloorStep(pl, f, turns[0]);
      FloorAlways(pl, Apply(pl, f, turns[0]), turns[1..]);
    }
  }

  lemma OpeningOk(pl: Plant, guard: Guard)
    ensures FloorInv(pl, Opening(pl, guard)) && Running(Opening(pl, guard)) == {}
  {
    assert Busy(Opening(pl, guard)) == {};
  }

  lemma {:induction false} SettledStays(pl: Plant, f: Floor, turns: seq<Turn>, j: nat)
    requires Run(pl, f, turns) && j < |f.phases| && f.phases[j].Settled?
    ensures j < |Exec(pl, f, turns).phases| && Exec(pl, f, turns).phases[j] == f.phases[j]
    decreases |turns|
  {
    if turns != [] {
      SettledStays(pl, Apply(pl, f, turns[0]), turns[1..], j);
    }
  }

  // ----- each delivery is settled by the breaker's answer to it -----

  /** Turn `i` asks the breaker about delivery `j`, and no other turn does. */
  ghost predicate AsksAt(turns: seq<Turn>, j: nat, i: nat) {
    i < |turns| && turns[i] == AskFor(j) && forall k | 0 <= k < |turns| && k != i :: turns[k] != AskFor(j)
  }

  /** What the breaker, as all workers have left it by then, answers at turn `i`. */
  ghost predicate AnswerAt(pl: Plant, f: Floor, turns: seq<Turn>, i: nat) {
    && i < |turns| && turns[i].j < |pl.jobs| && Run(pl, f, turns[..i])
    && GuardAdmits(Exec(pl, f, turns[..i]).guard, pl.jobs[turns[i].j].clk)
  }

  lemma {:induction false} AskedBefore(pl: Plant, f: Floor, turns: seq<Turn>, j: nat, k: nat)
    requires Run(pl, f, turns) && j < |f.phases| && (f.phases[j].Handling? || f.phases[j].Settled?) && k < |turns|
    ensures turns[k] != AskFor(j)
    decreases |turns|
  {
    if k > 0 {
      AskedBefore(pl, Apply(pl, f, turns[0]), turns[1..], j, k - 1);
    }
  }

  lemma {:induction false} HandledToTheEnd(pl: Plant, f: Floor, turns: seq<Turn>, j: nat)
    requires Run(pl, f, turns) && j < |f.phases| && f.phases[j].Handling?
    ensures var phases := Exec(pl, f, turns).phases;
            && j < |phases| && (phases[j].Settled? ==> j < |pl.jobs| && phases[j].decision == Verdict(pl, j, true))
    decreases |turns|
  {
    if turns != [] {
      var f' := Apply(pl, f, turns[0]);
      if f'.phases[j].Handling? {
        HandledToTheEnd(pl, f', turns[1..], j);
      } else {
        SettledStays(pl, f', turns[1..], j);
      }
    }
  }

  /** A delivery that was waiting and is settled was asked about in exactly one turn, and that answer decided. */
  lemma {:induction false} SettledByAnswer(pl: Plant, f: Floor, turns: seq<Turn>, j: nat) returns (i: nat)
    requires Run(pl, f, turns) && j < |f.phases| == |pl.jobs| && (f.phases[j].Waiting? || f.phases[j].Fetched?)
    requires |Exec(pl, f, turns).phases| == |f.phases| && Exec(pl, f, turns).phases[j].Settled?
    ensures AsksAt(turns, j, i)
    ensures Exec(pl, f, turns).phases[j].decision == Verdict(pl, j, AnswerAt(pl, f, turns, i))
    decreases |turns|
  {
    var f', rest := Apply(pl, f, turns[0]), turns[1..];
    if turns[0] == AskFor(j) {
      i := 0;
      forall k | 0 < k < |turns|
        ensures turns[k] != AskFor(j)
      {
        AskedBefore(pl, f', rest, j, k - 1);
      }
      if f'.phases[j].Handling? {
        HandledToTheEnd(pl, f', rest, j);
      } else {
        SettledStays(pl, f', rest, j);
      }
    } else {
      var k := SettledByAnswer(pl, f', rest, j);
      i := k + 1;
      assert turns[..i][1..] == rest[..k];
      assert forall n | 0 < n < |turns| :: turns[n] == rest[n - 1];
    }
  }

  // ----- every delivery is settled -----

  function Weight(ph: Phase): nat {
    match ph
    case Waiting => 3
    case Fetched => 2
    case Handling => 1
    case Settled(_) => 0
  }

  function Remaining(phases: seq<Phase>): nat {
    if phases == [] then 0 else Remaining(phases[..|phases| - 1]) + Weight(phases[|phases| - 1])
  }

  lemma {:induction false} RemainingAfter(phases: seq<Phase>, j: nat, ph: Phase)
    requires j < |phases|
    ensures Remaining(phases[j := ph]) == Remaining(phases) - Weight(phases[j]) + Weight(ph)
  {
    var n := |phases| - 1;
    if j < n {
      RemainingAfter(phases[..n], j, ph);
      assert phases[j := ph][..n] == phases[..n][j := ph];
    } else {
      assert phases[j := ph][..n] == phases[..n];
    }
  }

  lemma {:induction false} TurnsAreFew(pl: Plant, f: Floor, turns: seq<Turn>)
    requires Run(pl, f, turns)
    ensures |turns| <= Remaining(f.phases)
    decreases |turns|
  {
    if turns != [] {
      var f' := Apply(pl, f, turns[0]);
      RemainingAfter(f.phases, turns[0].j, f'.phases[turns[0].j]);
      TurnsAreFew(pl, f', turns[1..]);
    }
  }

  lemma {:induction false} AllWaiting(phases: seq<Phase>)
    requires forall ph <- phases :: ph.Waiting?
    ensures Remaining(phases) == 3 * |phases|
  {
    if phases != [] {
      AllWaiting(phases[..|phases| - 1]);
    }
  }

  ghost predicate Quiescent(pl: Plant, f: Floor) {
    forall t :: !Enabled(pl, f, t)
  }

  lemma {:induction false} FirstWaiting(phases: seq<Phase>, j: nat) returns (i: nat)
    requires j < |phases| && phases[j].Waiting?
    ensures i <= j && phases[i].Waiting? && forall k | 0 <= k < i :: !phases[k].Waiting?
    decreases j
  {
    i := j;
    if k :| 0 <= k < j && phases[k].Waiting? {
      i := FirstWaiting(phases, k);
    }
  }

  /** With a worker at all, some worker can go on as long as a delivery is not settled. */
  lemma SomeTurn(pl: Plant, f: Floor, j: nat) returns (t: Turn)
    requires FloorInv(pl, f) && pl.workers > 0 && j < |f.phases| && !f.phases[j].Settled?
    ensures Enabled(pl, f, t)
  {
    var d := j;
    if f.phases[j].Waiting? {
      d := FirstWaiting(f.phases, j);
      if b :| b in Busy(f) {
        d := b;
      }
    }
    t := if f.phases[d].Fetched? then AskFor(d) else if f.phases[d].Handling? then FinishOff(d) else Fetch(d);
  }

  /**
   Main result on deliveries.  In every interleaving of any number of workers no
   more deliveries are in work than there are workers; a settled delivery keeps its
   one settlement, which is right for the message as delivered and the breaker's
   answer in the one turn that asked about it; the workers take at most three turns per delivery, and
   when none of them can go on, every delivery is settled.
   */
  lemma EveryDeliverySettledOnce(pl: Plant, guard: Guard, turns: seq<Turn>, more: seq<Turn>, j: nat)
    requires Run(pl, Opening(pl, guard), turns) && Run(pl, Exec(pl, Opening(pl, guard), turns), more)
    requires j < |pl.jobs|
    ensures var f := Exec(pl, Opening(pl, guard), turns);
            && |f.phases| == |pl.jobs| && |Busy(f)| <= pl.workers && |turns| <= 3 * |pl.jobs|
            && (f.phases[j].Settled? ==>
                  var later := Exec(pl, f, more).phases;
                  && j < |later| && later[j] == f.phases[j]
                  && (exists i :: AsksAt(turns, j, i))
                  && (forall i, n | AsksAt(turns, j, i) && CountIs(pl.jobs[j].item.headers, n) ::
                        Rightly(pl.jobs[j].item, n, pl.maxRetries, AnswerAt(pl, Opening(pl, guard), turns, i),
                                pl.jobs[j].env, f.phases[j].decision)))
            && (pl.workers > 0 && Quiescent(pl, f) ==> f.phases[j].Settled?)
  {
    var f := Exec(pl, Opening(pl, guard), turns);
    OpeningOk(pl, guard);
    FloorAlways(pl, Opening(pl, guard), turns);
    TurnsAreFew(pl, Opening(pl, guard), turns);
    AllWaiting(Opening(pl, guard).phases);
    if f.phases[j].Settled? {
      SettledStays(pl, f, more, j);
      var k := SettledByAnswer(pl, Opening(pl, guard), turns, j);
      forall i, n | AsksAt(turns, j, i) && CountIs(pl.jobs[j].item.headers, n)
        ensures Rightly(pl.jobs[j].item, n, pl.maxRetries, AnswerAt(pl, Opening(pl, guard), turns, i),
                        pl.jobs[j].env, f.phases[j].decision)
      {
        assert i == k;
        DecidesRightly(pl.jobs[j].item, n, pl.maxRetries, AnswerAt(pl, Opening(pl, guard), turns, i), pl.jobs[j].env);
      }
    }
    if pl.workers > 0 && !f.phases[j].Settled? {
      var t := SomeTurn(pl, f, j);
      assert !Quiescent(pl, f);
    }
  }

  // ----- the workers are the pool that drives the breaker -----

  /** What a turn is to the breaker. */
  function WorkOf(pl: Plant, t: Turn): seq<Work>
    requires t.j < |pl.jobs|
  {
    var job := pl.jobs[t.j];
    match t
    case Fetch(_) => []
    case AskFor(_) => [Arrive(job.clk.askNow, job.clk.askLater, job.env.registered)]
    case FinishOff(_) => [Report(job.env.handlerOk, job.clk.reportNow, job.clk.reportLater)]
  }

  ghost function WorkOfAll(pl: Plant, f: Floor, turns: seq<Turn>): seq<Work>
    requires Run(pl, f, turns)
    decreases |turns|
  {
    if turns == [] then [] else WorkOf(pl, turns[0]) + WorkOfAll(pl, Apply(pl, f, turns[0]), turns[1..])
  }

  /** The floor shows the pool's breaker, and its running handlers are the outstanding reports. */
  ghost predicate Shows(cfg: Config, f: Floor, p: Pool) {
    f.guard == On(cfg, p.breaker) && p.outstanding == |Running(f)|
  }

  lemma SingleWork(cfg: Config, p: Pool, w: Work)
    requires CanDo(p, w)
    ensures Runs(cfg, p, [w]) && DoAll(cfg, p, [w]) == Do(cfg, p, w)
  {
    assert [w][1..] == [];
  }

  lemma AskIsArrival(cfg: Config, pl: Plant, f: Floor, t: Turn, p: Pool)
    requires Enabled(pl, f, t) && Shows(cfg, f, p) && t.AskFor?
    ensures Shows(cfg, Apply(pl, f, t), Do(cfg, p, WorkOf(pl, t)[0]))
  {
    RunningAfter(pl, f, t);
    assert Running(f) - {t.j} == Running(f);
  }

  lemma FinishIsReport(cfg: Config, pl: Plant, f: Floor, t: Turn, p: Pool)
    requires FloorInv(pl, f) && Enabled(pl, f, t) && Shows(cfg, f, p) && t.FinishOff?
    ensures p.outstanding > 0
    ensures Shows(cfg, Apply(pl, f, t), Do(cfg, p, WorkOf(pl, t)[0]))
  {
    RunningAfter(pl, f, t);
  }

  lemma TurnIsWork(cfg: Config, pl: Plant, f: Floor, t: Turn, p: Pool)
    requires FloorInv(pl, f) && Enabled(pl, f, t) && Shows(cfg, f, p)
    ensures Runs(cfg, p, WorkOf(pl, t))
    ensures Shows(cfg, Apply(pl, f, t), DoAll(cfg, p, WorkOf(pl, t)))
  {
    match t
    case Fetch(j) =>
      RunningAfter(pl, f, t);
      assert Running(f) - {j} == Running(f);
    case AskFor(_) =>
      AskIsArrival(cfg, pl, f, t, p);
      SingleWork(cfg, p, WorkOf(pl, t)[0]);
    case FinishOff(_) =>
      FinishIsReport(cfg, pl, f, t, p);
      SingleWork(cfg, p, WorkOf(pl, t)[0]);
  }

  lemma {:induction false} WorkersArePool(cfg: Config, pl: Plant, f: Floor, turns: seq<Turn>, p: Pool)
    requires FloorInv(pl, f) && Run(pl, f, turns) && Shows(cfg, f, p)
    ensures Runs(cfg, p, WorkOfAll(pl, f, turns))
    ensures Shows(cfg, Exec(pl, f, turns), DoAll(cfg, p, WorkOfAll(pl, f, turns)))
    decreases |turns|
  {
    if turns != [] {
      FloorStep(pl, f, turns[0]);
      TurnIsWork(cfg, pl, f, turns[0], p);
      var w, f' := WorkOf(pl, turns[0]), Apply(pl, f, turns[0]);
      WorkersArePool(cfg, pl, f', turns[1..], DoAll(cfg, p, w));
      Append(cfg, p, w, WorkOfAll(pl, f', turns[1..]));
    }
  }

  lemma {:induction false} RegisteredWork(pl: Plant, f: Floor, turns: seq<Turn>)
    requires Run(pl, f, turns) && forall job <- pl.jobs :: job.env.registered
    ensures AllRegistered(WorkOfAll(pl, f, turns))
    decreases |turns|
  {
    if turns != [] {
      RegisteredWork(pl, Apply(pl, f, turns[0]), turns[1..]);
    }
  }

  /**
   Main result on the breaker.  Every interleaving of workers is a run of the pool
   that drives the breaker, the running handlers being its outstanding reports; so
   every theorem about such runs holds of it.  In particular, if every type has a
   handler, a saturated half-open breaker has more handlers running than successes
   missing, hence more workers, and cannot get stuck.
   */
  lemma WorkersRefinePool(cfg: Config, t0: int, pl: Plant, turns: seq<Turn>, t: int)
    requires ValidConfig(cfg) && Run(pl, Opening(pl, On(cfg, Fresh(t0))), turns)
    ensures var start := Opening(pl, On(cfg, Fresh(t0)));
            var f, ws := Exec(pl, start, turns), WorkOfAll(pl, start, turns);
            && Runs(cfg, NewPool(t0), ws)
            && var p := DoAll(cfg, NewPool(t0), ws);
               && f.guard == On(cfg, p.breaker) && p.outstanding == |Running(f)|
               && ((forall job <- pl.jobs :: job.env.registered) && Saturated(cfg, p.breaker) ==>
                     && Missing(cfg, p.breaker) < |Running(f)| <= pl.workers
                     && !exists more :: Sticks(cfg, p, t, more))
  {
    var start := Opening(pl, On(cfg, Fresh(t0)));
    var f, ws := Exec(pl, start, turns), WorkOfAll(pl, start, turns);
    OpeningOk(pl, On(cfg, Fresh(t0)));
    WorkersArePool(cfg, pl, start, turns, NewPool(t0));
    FloorAlways(pl, start, turns);
    HalfOpenProgress(cfg, t0, ws, t, []);
    if forall job <- pl.jobs :: job.env.registered {
      RegisteredWork(pl, start, turns);
    }
    FewerRunning(f);
  }

  lemma {:induction false} FewerRunning(f: Floor)
    ensures |Running(f)| <= |Busy(f)|
  {
    Smaller(Running(f), Busy(f));
  }

  lemma {:induction false} Smaller(a: set<nat>, b: set<nat>)
    requires a <= b
    ensures |a| <= |b|
  {
    if a != {} {
      var x :| x in a;
      Smaller(a - {x}, b - {x});
    }
  }
}
