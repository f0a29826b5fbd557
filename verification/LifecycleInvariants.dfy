/**
 What any number of retries, dead-letterings and requeues keeps of a message: its
 retry count stays within bounds, and it always finds its way home.
 */
module LifecycleInvariants {
  import opened Messages
  import opened Lifecycle

  /** Hypotheses on the messages applications publish. */
  ghost predicate ProperPublishes(cfg: Config, steps: seq<Step>) {
    forall i | 0 <= i < |steps| && steps[i].Publish? :: Proper(cfg, steps[i].m)
  }

  /** Starts at or below MaxRetries, has a named target, and has not died yet. */
  predicate Proper(cfg: Config, m: Message) {
    GetRetryCount(m.headers) <= cfg.maxRetries && m.exchange != "" && m.key != "" && DEATH_HEADER !in m.headers
  }

  predicate CountOk(cfg: Config, copy: Copy) {
    && GetRetryCount(copy.m.headers) <= cfg.maxRetries
    && (copy.status == Nacking(Exhausted) || (copy.place.InDlq? && copy.why.Exhausted?) ==>
          GetRetryCount(copy.m.headers) == cfg.maxRetries)
  }

  predicate SameTrace(a: Table, b: Table) {
    StringOf(a, TRACE_HEADER).Some? ==> StringOf(b, TRACE_HEADER) == StringOf(a, TRACE_HEADER)
  }

  /** The copy still is the message that was first published, and knows where that was. */
  predicate AtHome(origin: Origin, copy: Copy) {
    var first, m := origin.first, copy.m;
    && first.exchange != "" && first.key != ""
    && m.body == first.body && m.contentType == first.contentType && m.priority == first.priority
    && SameTrace(first.headers, m.headers)
    && StringOf(m.headers, TRACE_HEADER) == copy.trace
    && (m.identity == first.identity || m.identity == NO_IDENTITY)
    && (match copy.place
        case InMain => m.exchange == first.exchange && m.key == first.key && DEATH_HEADER !in m.headers
        case InDlq =>
          var d := NewDLQMessage(m.headers);
          d.originalExchange == first.exchange && d.originalRoutingKey == first.key &&
          d.originalQueue == origin.queue)
  }

  ghost predicate Ok(cfg: Config, origins: map<nat, Origin>, copy: Copy) {
    copy.msg in origins && CountOk(cfg, copy) && AtHome(origins[copy.msg], copy)
  }

  ghost predicate CopiesOk(cfg: Config, w: World) {
    forall c <- w.copies :: Ok(cfg, w.origins, w.copies[c])
  }

  lemma RetryKeeps(cfg: Config, origin: Origin, copy: Copy, uuid: string)
    requires CountOk(cfg, copy) && AtHome(origin, copy) && GetRetryCount(copy.m.headers) < cfg.maxRetries
    ensures var m := Republication(copy.m.(headers := WithTrace(copy.m.headers, uuid)));
            var again := copy.(m := m, status := Ready, trace := Inherit(copy, m));
            CountOk(cfg, again) && AtHome(origin, again)
  {
  }

  lemma DeathKeeps(cfg: Config, origin: Origin, copy: Copy, why: Why)
    requires CountOk(cfg, copy) && AtHome(origin, copy) && copy.place.InMain? && copy.status == Nacking(why)
    ensures var dead := Copy(copy.msg, InDlq, DeadLetter(copy.m, origin.queue, cfg.dlx), Ready, why, copy.trace);
            CountOk(cfg, dead) && AtHome(origin, dead)
  {
  }

  lemma RequeueKeeps(cfg: Config, origin: Origin, copy: Copy, reset: bool)
    requires 0 <= cfg.maxRetries && CountOk(cfg, copy) && AtHome(origin, copy) && copy.place.InDlq?
    ensures Requeued(copy.m, reset).Some?
    ensures var m := Requeued(copy.m, reset).value;
            var back := Copy(copy.msg, InMain, m, Ready, NotDead, Inherit(copy, m));
            CountOk(cfg, back) && AtHome(origin, back)
  {
  }

  /** Settling or redelivering changes only the status. */
  lemma StatusKeeps(cfg: Config, origins: map<nat, Origin>, copy: Copy, status: Status)
    requires Ok(cfg, origins, copy)
    requires status == Nacking(Exhausted) ==> GetRetryCount(copy.m.headers) == cfg.maxRetries
    ensures Ok(cfg, origins, copy.(status := status))
  {
  }

  lemma WorkerCopy(cfg: Config, w: World, st: Step)
    requires st.Work? && Enabled(w, st) && Ok(cfg, w.origins, w.copies[st.c])
    ensures Ok(cfg, w.origins, AfterWork(cfg, w, st).copies[st.c])
  {
  }

  lemma WorkerSpawn(cfg: Config, w: World, st: Step)
    requires st.Work? && Enabled(w, st) && Ok(cfg, w.origins, w.copies[st.c])
    ensures st.id in AfterWork(cfg, w, st).copies ==> Ok(cfg, w.origins, AfterWork(cfg, w, st).copies[st.id])
  {
    var copy := w.copies[st.c];
    var d := Decide(copy.m, cfg.maxRetries, st.admitted, st.env);
    if d.republished.Some? {
      RetryKeeps(cfg, w.origins[copy.msg], copy, st.env.uuid);
      assert d.republished.value == Republication(copy.m.(headers := WithTrace(copy.m.headers, st.env.uuid)));
    }
  }

  lemma SettledCopy(cfg: Config, w: World, c: nat)
    requires Enabled(w, Settle(c)) && Ok(cfg, w.origins, w.copies[c])
    ensures Ok(cfg, w.origins, AfterSettle(cfg, w, c))
  {
    var copy := w.copies[c];
    if copy.status.Nacking? && copy.place.InMain? && w.origins[copy.msg].hasDLX {
      DeathKeeps(cfg, w.origins[copy.msg], copy, copy.status.why);
    } else {
      StatusKeeps(cfg, w.origins, copy, AfterSettle(cfg, w, c).status);
    }
  }

  lemma RequeueSpawn(cfg: Config, w: World, st: Step)
    requires 0 <= cfg.maxRetries && st.Requeue? && Enabled(w, st) && Ok(cfg, w.origins, w.copies[st.c])
    ensures Ok(cfg, w.origins, AfterRequeue(w, st).copies[st.c])
    ensures st.id in AfterRequeue(w, st).copies ==> Ok(cfg, w.origins, AfterRequeue(w, st).copies[st.id])
  {
    var copy := w.copies[st.c];
    RequeueKeeps(cfg, w.origins[copy.msg], copy, st.reset);
    StatusKeeps(cfg, w.origins, copy, Acking(Replaced));
  }

  /** Which copies a step writes: the one it is about, and at most one new one. */
  lemma StepFrame(cfg: Config, w: World, st: Step)
    requires OriginsKnown(w) && Enabled(w, st) && !st.Publish?
    ensures var w' := Apply(cfg, w, st);
            && w'.origins == w.origins
            && (forall c <- w'.copies ::
                  || c == st.c
                  || (c in w.copies && w'.copies[c] == w.copies[c])
                  || ((st.Work? || st.Requeue?) && c == st.id))
  {
  }

  lemma CopiesStep(cfg: Config, w: World, st: Step)
    requires 0 <= cfg.maxRetries && CopiesOk(cfg, w) && Enabled(w, st)
    requires st.Publish? ==> Proper(cfg, st.m)
    ensures CopiesOk(cfg, Apply(cfg, w, st))
  {
    if st.Publish? {
      PublishedCopies(cfg, w, st);
    } else {
      StepFrame(cfg, w, st);
      WrittenCopies(cfg, w, st);
    }
  }

  lemma PublishedCopies(cfg: Config, w: World, st: Step)
    requires CopiesOk(cfg, w) && Enabled(w, st) && st.Publish? && Proper(cfg, st.m)
    ensures CopiesOk(cfg, Apply(cfg, w, st))
  {
  }

  lemma WrittenCopies(cfg: Config, w: World, st: Step)
    requires 0 <= cfg.maxRetries && CopiesOk(cfg, w) && Enabled(w, st) && !st.Publish?
    ensures var w' := Apply(cfg, w, st);
            && (st.c in w'.copies ==> Ok(cfg, w.origins, w'.copies[st.c]))
            && ((st.Work? || st.Requeue?) && st.id in w'.copies ==> Ok(cfg, w.origins, w'.copies[st.id]))
  {
    assert Ok(cfg, w.origins, w.copies[st.c]);
    match st
    case Deliver(c) => StatusKeeps(cfg, w.origins, w.copies[c], Unacked);
    case Work(_, _, _, _) => WorkerCopy(cfg, w, st); WorkerSpawn(cfg, w, st);
    case Settle(c) => SettledCopy(cfg, w, c);
    case Interrupt(c) => StatusKeeps(cfg, w.origins, w.copies[c], Ready);
    case Requeue(_, _, _, _) => RequeueSpawn(cfg, w, st);
  }

  lemma {:induction false} CopiesAlways(cfg: Config, w: World, steps: seq<Step>)
    requires 0 <= cfg.maxRetries && CopiesOk(cfg, w)
    requires Run(cfg, w, steps) && ProperPublishes(cfg, steps)
    ensures CopiesOk(cfg, Exec(cfg, w, steps))
    decreases |steps|
  {
    if steps != [] {
      CopiesStep(cfg, w, steps[0]);
      assert ProperPublishes(cfg, steps[1..]);
      CopiesAlways(cfg, Apply(cfg, w, steps[0]), steps[1..]);
    }
  }

  /**
   Over any number of retries, dead-letterings and requeues, reset or not, no
   header exceeds MaxRetries, and a message dead-lettered by exhaustion carries
   exactly MaxRetries.  Hence a dead-letter handler asking `ShouldRetry(limit)`
   always hears yes when limit > MaxRetries, and always hears no about exhausted
   messages when limit <= MaxRetries.
   */
  lemma RetryCountBound(cfg: Config, steps: seq<Step>, c: nat, limit: int)
    requires 0 <= cfg.maxRetries && Run(cfg, EMPTY, steps) && ProperPublishes(cfg, steps)
    requires c in Exec(cfg, EMPTY, steps).copies
    ensures var copy := Exec(cfg, EMPTY, steps).copies[c];
            var d := NewDLQMessage(copy.m.headers);
            && GetRetryCount(copy.m.headers) <= cfg.maxRetries
            && (copy.place.InDlq? && copy.why.Exhausted? ==> GetRetryCount(copy.m.headers) == cfg.maxRetries)
            && (limit > cfg.maxRetries ==> ShouldRetryFromDLQ(d, limit))
            && (limit <= cfg.maxRetries && copy.place.InDlq? && copy.why.Exhausted? ==> !ShouldRetryFromDLQ(d, limit))
  {
    CopiesAlways(cfg, EMPTY, steps);
  }

  /**
   Over any number of cycles a requeue brings the message back to the exchange and
   key it was first published to, with the same body; and once a copy carries a
   trace id, it and all its descendants carry that one.
   */
  lemma AlwaysComesHome(cfg: Config, steps: seq<Step>, c: nat, reset: bool)
    requires 0 <= cfg.maxRetries && Run(cfg, EMPTY, steps) && ProperPublishes(cfg, steps)
    requires c in Exec(cfg, EMPTY, steps).copies
    ensures var w := Exec(cfg, EMPTY, steps);
            var copy := w.copies[c];
            copy.msg in w.origins &&
            var first := w.origins[copy.msg].first;
            && copy.m.body == first.body
            && SameTrace(first.headers, copy.m.headers) && StringOf(copy.m.headers, TRACE_HEADER) == copy.trace
            && (copy.place.InMain? ==> copy.m.exchange == first.exchange && copy.m.key == first.key)
            && (copy.place.InDlq? ==>
                  var back := Requeued(copy.m, reset);
                  && back.Some? && back.value.exchange == first.exchange && back.value.key == first.key
                  && back.value.body == first.body
                  && StringOf(back.value.headers, TRACE_HEADER) == copy.trace)
  {
    CopiesAlways(cfg, EMPTY, steps);
    HeaderKeysDiffer();
  }
}
