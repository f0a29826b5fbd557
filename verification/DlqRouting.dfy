/**
 The dead-letter topology routes correctly, and every reconnect declares it again
 without change.
 */
module DlqRouting {
  import opened Messages
  import opened Topology
  import opened ExchangeTypes

  /** Nothing that `b` holds is missing from or changed in `b'`. */
  ghost predicate Extends(b: Broker, b': Broker) {
    && (forall x <- b.exchanges :: x in b'.exchanges && b'.exchanges[x] == b.exchanges[x])
    && (forall q <- b.queues :: q in b'.queues && b'.queues[q] == b.queues[q])
    && b.bindings <= b'.bindings
  }

  ghost predicate HasQueue(b: Broker, name: string, decl: QueueDecl) {
    name in b.queues && b.queues[name] == decl
  }

  ghost predicate HasExchange(b: Broker, name: string, decl: ExchangeDecl) {
    name in b.exchanges && b.exchanges[name] == decl
  }

  function DlqBinding(dlq: DLQConfig, q: QueueConfig): Binding {
    Binding(GetDLQName(dlq, q.name), GetDLXRoutingKey(dlq, q.name), dlq.exchangeName)
  }

  ghost function DlqBindings(dlq: DLQConfig, queues: seq<QueueConfig>, n: nat): set<Binding>
    requires n <= |queues|
  {
    set i | 0 <= i < n :: DlqBinding(dlq, queues[i])
  }

  ghost predicate HasDLQs(b: Broker, dlq: DLQConfig, queues: seq<QueueConfig>, n: nat)
    requires n <= |queues|
  {
    forall i | 0 <= i < n ::
      HasQueue(b, GetDLQName(dlq, queues[i].name), DlqDecl(dlq)) && DlqBinding(dlq, queues[i]) in b.bindings
  }

  ghost predicate HasExchanges(b: Broker, exs: seq<ExchangeConfig>, n: nat)
    requires n <= |exs|
  {
    forall i | 0 <= i < n :: HasExchange(b, exs[i].name, exs[i].decl)
  }

  ghost predicate HasKeys(b: Broker, q: QueueConfig, n: nat)
    requires n <= |q.routingKeys|
  {
    && (n > 0 ==> q.exchange in b.exchanges)
    && (forall k | 0 <= k < n :: Binding(q.name, q.routingKeys[k], q.exchange) in b.bindings)
  }

  ghost predicate HasQueues(b: Broker, queues: seq<QueueConfig>, args: seq<Args>, n: nat)
    requires n <= |queues| == |args|
  {
    forall i | 0 <= i < n ::
      HasQueue(b, queues[i].name, DeclFor(queues[i], args[i])) &&
      (queues[i].exchange != "" ==> HasKeys(b, queues[i], |queues[i].routingKeys|))
  }

  /** The broker holds everything that setup declares. */
  ghost predicate Holds(b: Broker, cfg: Config, args: seq<Args>)
    requires |args| == |cfg.queues|
  {
    && (cfg.dlqEnabled ==>
          HasExchange(b, cfg.dlq.exchangeName, DlxDecl(cfg.dlq)) && HasDLQs(b, cfg.dlq, cfg.queues, |cfg.queues|))
    && HasExchanges(b, cfg.exchanges, |cfg.exchanges|)
    && HasQueues(b, cfg.queues, args, |cfg.queues|)
  }

  // ----- each part of setup only adds, and adds what it should -----

  lemma {:induction false} DLQsAdded(b: Broker, dlq: DLQConfig, queues: seq<QueueConfig>, n: nat)
    requires n <= |queues| && DeclareDLQs(b, dlq, queues, n).Some?
    ensures var b' := DeclareDLQs(b, dlq, queues, n).value;
            && Extends(b, b') && HasDLQs(b', dlq, queues, n)
            && b'.bindings == b.bindings + DlqBindings(dlq, queues, n)
  {
    if n > 0 {
      DLQsAdded(b, dlq, queues, n - 1);
      assert DlqBindings(dlq, queues, n) == DlqBindings(dlq, queues, n - 1) + {DlqBinding(dlq, queues[n - 1])};
    }
  }

  lemma {:induction false} ExchangesAdded(b: Broker, exs: seq<ExchangeConfig>, n: nat)
    requires n <= |exs| && DeclareExchanges(b, exs, n).Some?
    ensures var b' := DeclareExchanges(b, exs, n).value;
            Extends(b, b') && HasExchanges(b', exs, n) && b'.bindings == b.bindings && b'.queues == b.queues
  {
    if n > 0 {
      ExchangesAdded(b, exs, n - 1);
    }
  }

  lemma {:induction false} KeysAdded(b: Broker, q: QueueConfig, n: nat)
    requires n <= |q.routingKeys| && BindKeys(b, q, n).Some?
    ensures var b' := BindKeys(b, q, n).value;
            && b'.queues == b.queues && b'.exchanges == b.exchanges
            && b.bindings <= b'.bindings && HasKeys(b', q, n)
            && (forall x <- b'.bindings :: x in b.bindings || x.exchange == q.exchange)
  {
    if n > 0 {
      KeysAdded(b, q, n - 1);
    }
  }

  lemma QueueBound(b: Broker, q: QueueConfig)
    requires BindQueue(b, q).Some?
    ensures var b' := BindQueue(b, q).value;
            && Extends(b, b') && b'.queues == b.queues
            && (q.exchange != "" ==> HasKeys(b', q, |q.routingKeys|))
            && (forall x <- b'.bindings :: x in b.bindings || x.exchange == q.exchange)
  {
    if q.exchange != "" {
      KeysAdded(b, q, |q.routingKeys|);
    }
  }

  lemma {:induction false} QueuesAdded(b: Broker, queues: seq<QueueConfig>, args: seq<Args>, n: nat, dlx: string)
    requires n <= |queues| == |args| && DeclareQueues(b, queues, args, n).Some?
    ensures var b' := DeclareQueues(b, queues, args, n).value;
            && Extends(b, b') && HasQueues(b', queues, args, n)
            && ((forall i | 0 <= i < |queues| :: queues[i].exchange != dlx) ==>
                  forall x <- b'.bindings | x.exchange == dlx :: x in b.bindings)
  {
    if n > 0 {
      QueuesAdded(b, queues, args, n - 1, dlx);
      var b1 := DeclareQueues(b, queues, args, n - 1).value;
      var q := queues[n - 1];
      var b2 := DeclareQueue(b1, q.name, DeclFor(q, args[n - 1])).value;
      QueueBound(b2, q);
      assert Extends(b1, b2);
    }
  }

  /** Setup keeps what is there, and leaves the broker holding all of its declarations. */
  lemma SetupHolds(b: Broker, cfg: Config, args: seq<Args>)
    requires |args| == |cfg.queues| && Declared(b, cfg, args).Some?
    ensures var b' := Declared(b, cfg, args).value; Extends(b, b') && Holds(b', cfg, args)
  {
    var b1 := if cfg.dlqEnabled then SetupDLQ(b, cfg.dlq, cfg.queues).value else b;
    if cfg.dlqEnabled {
      DLQsAdded(DeclareExchange(b, cfg.dlq.exchangeName, DlxDecl(cfg.dlq)).value, cfg.dlq, cfg.queues, |cfg.queues|);
      assert HasExchange(b1, cfg.dlq.exchangeName, DlxDecl(cfg.dlq));
    }
    ExchangesAdded(b1, cfg.exchanges, |cfg.exchanges|);
    var b2 := DeclareExchanges(b1, cfg.exchanges, |cfg.exchanges|).value;
    QueuesAdded(b2, cfg.queues, args, |cfg.queues|, "");
  }

  /**
   After setup every configured queue is declared with its own flags and with its own
   arguments, completed for dead letters only where it names no dead-letter
   exchange, and is bound to its exchange under each of its keys.
   */
  lemma DeclaredAsConfigured(b: Broker, cfg: Config, before: seq<Args>, i: nat)
    requires i < |cfg.queues| == |before| && Declared(b, cfg, AllSetupArgs(cfg, before)).Some?
    ensures var b', q := Declared(b, cfg, AllSetupArgs(cfg, before)).value, cfg.queues[i];
            && q.name in b'.queues
            && b'.queues[q.name] == QueueDecl(q.durable, q.autoDelete, q.exclusive, b'.queues[q.name].args)
            && RightArgs(cfg, before, i, b'.queues[q.name].args)
            && (q.exchange != "" ==>
                  forall k | 0 <= k < |q.routingKeys| :: Binding(q.name, q.routingKeys[k], q.exchange) in b'.bindings)
  {
    var args := AllSetupArgs(cfg, before);
    SetupHolds(b, cfg, args);
    SetupArgsRight(cfg, before, i);
    assert HasQueue(Declared(b, cfg, args).value, cfg.queues[i].name, DeclFor(cfg.queues[i], args[i]));
  }

  /**
   After setup with automatic dead-letter queues there is the dead-letter exchange as
   configured and, for every queue, a queue named by prefix and name, without
   arguments, bound to that exchange under the queue's name; and every configured
   exchange is declared as it says.
   */
  lemma DeadLetterQueuesAsConfigured(b: Broker, cfg: Config, args: seq<Args>)
    requires |args| == |cfg.queues| && Declared(b, cfg, args).Some?
    ensures var b', dlq := Declared(b, cfg, args).value, cfg.dlq;
            && (forall i | 0 <= i < |cfg.exchanges| ::
                  cfg.exchanges[i].name in b'.exchanges && b'.exchanges[cfg.exchanges[i].name] == cfg.exchanges[i].decl)
            && (cfg.dlqEnabled ==>
                  && dlq.exchangeName in b'.exchanges
                  && b'.exchanges[dlq.exchangeName]
                     == ExchangeDecl(dlq.exchangeType, dlq.durable, dlq.autoDelete, false, map[])
                  && (forall i | 0 <= i < |cfg.queues| ::
                        && dlq.queuePrefix + cfg.queues[i].name in b'.queues
                        && b'.queues[dlq.queuePrefix + cfg.queues[i].name]
                           == QueueDecl(dlq.durable, dlq.autoDelete, false, map[])
                        && Binding(dlq.queuePrefix + cfg.queues[i].name, cfg.queues[i].name, dlq.exchangeName)
                           in b'.bindings))
  {
    SetupHolds(b, cfg, args);
    var b' := Declared(b, cfg, args).value;
    forall i | 0 <= i < |cfg.exchanges|
      ensures HasExchange(b', cfg.exchanges[i].name, cfg.exchanges[i].decl)
    {
    }
    if cfg.dlqEnabled {
      forall i | 0 <= i < |cfg.queues|
        ensures HasQueue(b', GetDLQName(cfg.dlq, cfg.queues[i].name), DlqDecl(cfg.dlq))
        ensures DlqBinding(cfg.dlq, cfg.queues[i]) in b'.bindings
      {
      }
    }
  }

  // ----- setup adds nothing else -----

  ghost predicate IsDLQ(cfg: Config, name: string) {
    cfg.dlqEnabled && exists i | 0 <= i < |cfg.queues| :: name == cfg.dlq.queuePrefix + cfg.queues[i].name
  }

  ghost predicate IsQueue(cfg: Config, name: string) {
    exists i | 0 <= i < |cfg.queues| :: name == cfg.queues[i].name
  }

  ghost predicate IsExchange(cfg: Config, name: string) {
    (cfg.dlqEnabled && name == cfg.dlq.exchangeName) ||
    exists i | 0 <= i < |cfg.exchanges| :: name == cfg.exchanges[i].name
  }

  ghost predicate IsDlqBinding(cfg: Config, x: Binding) {
    cfg.dlqEnabled && exists i | 0 <= i < |cfg.queues| ::
      x == Binding(cfg.dlq.queuePrefix + cfg.queues[i].name, cfg.queues[i].name, cfg.dlq.exchangeName)
  }

  ghost predicate BindsKey(q: QueueConfig, x: Binding) {
    q.exchange != "" && exists k | 0 <= k < |q.routingKeys| :: x == Binding(q.name, q.routingKeys[k], q.exchange)
  }

  ghost predicate IsBinding(cfg: Config, x: Binding) {
    exists i | 0 <= i < |cfg.queues| :: BindsKey(cfg.queues[i], x)
  }

  lemma {:induction false} DLQsOnly(b: Broker, cfg: Config, n: nat)
    requires n <= |cfg.queues| && cfg.dlqEnabled && DeclareDLQs(b, cfg.dlq, cfg.queues, n).Some?
    ensures var b' := DeclareDLQs(b, cfg.dlq, cfg.queues, n).value;
            && b'.exchanges == b.exchanges
            && (forall q <- b'.queues :: q in b.queues || IsDLQ(cfg, q))
            && (forall x <- b'.bindings :: x in b.bindings || IsDlqBinding(cfg, x))
  {
    if n > 0 {
      DLQsOnly(b, cfg, n - 1);
    }
  }

  lemma {:induction false} ExchangesOnly(b: Broker, cfg: Config, n: nat)
    requires n <= |cfg.exchanges| && DeclareExchanges(b, cfg.exchanges, n).Some?
    ensures var b' := DeclareExchanges(b, cfg.exchanges, n).value;
            && b' == b.(exchanges := b'.exchanges)
            && (forall x <- b'.exchanges :: x in b.exchanges || IsExchange(cfg, x))
  {
    if n > 0 {
      ExchangesOnly(b, cfg, n - 1);
    }
  }

  lemma {:induction false} KeysOnly(b: Broker, q: QueueConfig, n: nat)
    requires n <= |q.routingKeys| && q.exchange != "" && BindKeys(b, q, n).Some?
    ensures var b' := BindKeys(b, q, n).value;
            && b' == b.(bindings := b'.bindings)
            && (forall x <- b'.bindings :: x in b.bindings || BindsKey(q, x))
  {
    if n > 0 {
      KeysOnly(b, q, n - 1);
    }
  }

  lemma QueueOnly(b: Broker, q: QueueConfig)
    requires BindQueue(b, q).Some?
    ensures var b' := BindQueue(b, q).value;
            && b' == b.(bindings := b'.bindings)
            && (forall x <- b'.bindings :: x in b.bindings || BindsKey(q, x))
  {
    if q.exchange != "" {
      KeysOnly(b, q, |q.routingKeys|);
    }
  }

  lemma {:induction false} QueuesOnly(b: Broker, cfg: Config, args: seq<Args>, n: nat)
    requires n <= |cfg.queues| == |args| && DeclareQueues(b, cfg.queues, args, n).Some?
    ensures var b' := DeclareQueues(b, cfg.queues, args, n).value;
            && b'.exchanges == b.exchanges
            && (forall q <- b'.queues :: q in b.queues || IsQueue(cfg, q))
            && (forall x <- b'.bindings :: x in b.bindings || IsBinding(cfg, x))
  {
    if n > 0 {
      QueuesOnly(b, cfg, args, n - 1);
      var q := cfg.queues[n - 1];
      var b1 := DeclareQueues(b, cfg.queues, args, n - 1).value;
      QueueOnly(DeclareQueue(b1, q.name, DeclFor(q, args[n - 1])).value, q);
    }
  }

  /** Setup adds no exchange, queue or binding but those of the configuration. */
  lemma SetupAddsOnly(b: Broker, cfg: Config, args: seq<Args>)
    requires |args| == |cfg.queues| && Declared(b, cfg, args).Some?
    ensures var b' := Declared(b, cfg, args).value;
            && (forall x <- b'.exchanges :: x in b.exchanges || IsExchange(cfg, x))
            && (forall q <- b'.queues :: q in b.queues || IsDLQ(cfg, q) || IsQueue(cfg, q))
            && (forall x <- b'.bindings :: x in b.bindings || IsDlqBinding(cfg, x) || IsBinding(cfg, x))
  {
    var b1 := if cfg.dlqEnabled then SetupDLQ(b, cfg.dlq, cfg.queues).value else b;
    if cfg.dlqEnabled {
      DLQsOnly(DeclareExchange(b, cfg.dlq.exchangeName, DlxDecl(cfg.dlq)).value, cfg, |cfg.queues|);
    }
    ExchangesOnly(b1, cfg, |cfg.exchanges|);
    QueuesOnly(DeclareExchanges(b1, cfg.exchanges, |cfg.exchanges|).value, cfg, args, |cfg.queues|);
  }

  // ----- declaring again -----

  lemma {:induction false} DLQsAgain(b: Broker, dlq: DLQConfig, queues: seq<QueueConfig>, n: nat)
    requires n <= |queues| && HasDLQs(b, dlq, queues, n) && dlq.exchangeName in b.exchanges
    ensures DeclareDLQs(b, dlq, queues, n) == Some(b)
  {
    if n > 0 {
      DLQsAgain(b, dlq, queues, n - 1);
      assert DlqBinding(dlq, queues[n - 1]) in b.bindings;
      assert b.bindings + {DlqBinding(dlq, queues[n - 1])} == b.bindings;
      assert b.queues[GetDLQName(dlq, queues[n - 1].name) := DlqDecl(dlq)] == b.queues;
    }
  }

  lemma {:induction false} ExchangesAgain(b: Broker, exs: seq<ExchangeConfig>, n: nat)
    requires n <= |exs| && HasExchanges(b, exs, n)
    ensures DeclareExchanges(b, exs, n) == Some(b)
  {
    if n > 0 {
      ExchangesAgain(b, exs, n - 1);
      assert HasExchange(b, exs[n - 1].name, exs[n - 1].decl);
      assert b.exchanges[exs[n - 1].name := exs[n - 1].decl] == b.exchanges;
    }
  }

  lemma {:induction false} KeysAgain(b: Broker, q: QueueConfig, n: nat)
    requires n <= |q.routingKeys| && HasKeys(b, q, n)
    ensures BindKeys(b, q, n) == Some(b)
  {
    if n > 0 {
      KeysAgain(b, q, n - 1);
      assert b.bindings + {Binding(q.name, q.routingKeys[n - 1], q.exchange)} == b.bindings;
    }
  }

  lemma {:induction false} QueuesAgain(b: Broker, queues: seq<QueueConfig>, args: seq<Args>, n: nat)
    requires n <= |queues| == |args| && HasQueues(b, queues, args, n)
    ensures DeclareQueues(b, queues, args, n) == Some(b)
  {
    if n > 0 {
      QueuesAgain(b, queues, args, n - 1);
      var q := queues[n - 1];
      assert HasQueue(b, q.name, DeclFor(q, args[n - 1]));
      assert b.queues[q.name := DeclFor(q, args[n - 1])] == b.queues;
      if q.exchange != "" {
        KeysAgain(b, q, |q.routingKeys|);
      }
    }
  }

  /** A broker that holds the topology accepts the same setup again and does not change. */
  lemma SetupAgain(b: Broker, cfg: Config, args: seq<Args>)
    requires |args| == |cfg.queues| && Holds(b, cfg, args)
    ensures Declared(b, cfg, args) == Some(b)
  {
    if cfg.dlqEnabled {
      assert b.exchanges[cfg.dlq.exchangeName := DlxDecl(cfg.dlq)] == b.exchanges;
      DLQsAgain(b, cfg.dlq, cfg.queues, |cfg.queues|);
    }
    ExchangesAgain(b, cfg.exchanges, |cfg.exchanges|);
    QueuesAgain(b, cfg.queues, args, |cfg.queues|);
  }

  /** In spite of the update in place, a second setup computes the same arguments as the first. */
  lemma SameArgsAgain(cfg: Config, before: seq<Args>, after: seq<Args>)
    requires |before| == |after| == |cfg.queues|
    requires forall i | 0 <= i < |after| ::
               after[i] == before[i] || (cfg.queues[i].args != null && after[i] == SetupArgs(cfg, before, i))
    ensures AllSetupArgs(cfg, after) == AllSetupArgs(cfg, before)
  {
  }

  /**
   Connecting and then reconnecting any number of times with the same
   configuration leaves the broker as the first connect left it: no declaration is
   ever refused for different arguments.
   */
  method ConnectAndReconnect(b: Broker, cfg: Config, reconnects: nat) returns (b': Option<Broker>)
    modifies Maps(cfg.queues)
    ensures b' == Declared(b, cfg, AllSetupArgs(cfg, old(AllArgs(cfg.queues))))
  {
    ghost var before := AllArgs(cfg.queues);
    ghost var args := AllSetupArgs(cfg, before);
    b' := SetupTopology(b, cfg);
    if b'.None? {
      return;
    }
    SetupHolds(b, cfg, args);
    for i := 0 to reconnects
      invariant b'.Some? && b' == Declared(b, cfg, args)
      invariant Holds(b'.value, cfg, args)
      invariant MapsAfter(cfg, before, |cfg.queues|)
    {
      ghost var now := AllArgs(cfg.queues);
      SameArgsAgain(cfg, before, now);
      SetupAgain(b'.value, cfg, args);
      b' := SetupTopology(b'.value, cfg);
      MapsStay(cfg, before, now);
    }
  }

  lemma MapsStay(cfg: Config, before: seq<Args>, now: seq<Args>)
    requires |before| == |now| == |cfg.queues|
    requires forall i | 0 <= i < |now| :: cfg.queues[i].args != null ==>
               now[i] == if cfg.dlqEnabled then SetupArgs(cfg, before, i) else before[i]
    requires MapsAfter(cfg, now, |cfg.queues|)
    ensures MapsAfter(cfg, before, |cfg.queues|)
  {
  }

  // ----- routing -----

  /** Whatever is bound to the dead-letter exchange, before or by setup, is a dead-letter queue's own binding. */
  ghost predicate NoOtherDlxBindings(b: Broker, cfg: Config) {
    && (forall x <- b.bindings | x.exchange == cfg.dlq.exchangeName ::
          x in DlqBindings(cfg.dlq, cfg.queues, |cfg.queues|))
    && (forall j | 0 <= j < |cfg.queues| :: cfg.queues[j].exchange != cfg.dlq.exchangeName)
  }

  /** A broker that has only what setup made still qualifies, as at a restart of the program. */
  lemma RestartQualifies(b: Broker, cfg: Config, args: seq<Args>)
    requires |args| == |cfg.queues| && cfg.dlqEnabled && Declared(b, cfg, args).Some? && NoOtherDlxBindings(b, cfg)
    ensures NoOtherDlxBindings(Declared(b, cfg, args).value, cfg)
  {
    DlxBindingsExactly(b, cfg, args);
  }

  /** The bindings of the dead-letter exchange are those of the dead-letter queues. */
  lemma DlxBindingsExactly(b: Broker, cfg: Config, args: seq<Args>)
    requires |args| == |cfg.queues| && cfg.dlqEnabled && Declared(b, cfg, args).Some? && NoOtherDlxBindings(b, cfg)
    ensures forall x :: x in Declared(b, cfg, args).value.bindings && x.exchange == cfg.dlq.exchangeName <==>
                        x in DlqBindings(cfg.dlq, cfg.queues, |cfg.queues|)
  {
    var dlx := cfg.dlq.exchangeName;
    var b0 := DeclareExchange(b, dlx, DlxDecl(cfg.dlq)).value;
    DLQsAdded(b0, cfg.dlq, cfg.queues, |cfg.queues|);
    var b1 := DeclareDLQs(b0, cfg.dlq, cfg.queues, |cfg.queues|).value;
    ExchangesAdded(b1, cfg.exchanges, |cfg.exchanges|);
    var b2 := DeclareExchanges(b1, cfg.exchanges, |cfg.exchanges|).value;
    QueuesAdded(b2, cfg.queues, args, |cfg.queues|, dlx);
    assert b2.bindings == b.bindings + DlqBindings(cfg.dlq, cfg.queues, |cfg.queues|);
  }

  /** The dead-letter queues whose routing key matches `key` on an exchange of this type. */
  ghost function MatchingDLQs(cfg: Config, key: string): set<string> {
    set j | 0 <= j < |cfg.queues| && Matches(cfg.dlq.exchangeType, cfg.queues[j].name, key) ::
      GetDLQName(cfg.dlq, cfg.queues[j].name)
  }

  lemma DlxRoutes(b: Broker, cfg: Config, args: seq<Args>, key: string)
    requires |cfg.queues| == |args| && cfg.dlqEnabled
    requires Declared(b, cfg, args).Some? && NoOtherDlxBindings(b, cfg)
    ensures Route(Declared(b, cfg, args).value, cfg.dlq.exchangeName, key) == MatchingDLQs(cfg, key)
  {
    DlxBindingsExactly(b, cfg, args);
    SetupHolds(b, cfg, args);
    var b' := Declared(b, cfg, args).value;
    var routed := Route(b', cfg.dlq.exchangeName, key);
    assert b'.exchanges[cfg.dlq.exchangeName].typ == cfg.dlq.exchangeType;
    forall j | 0 <= j < |cfg.queues| && Matches(cfg.dlq.exchangeType, cfg.queues[j].name, key)
      ensures GetDLQName(cfg.dlq, cfg.queues[j].name) in routed
    {
      assert DlqBinding(cfg.dlq, cfg.queues[j]) in DlqBindings(cfg.dlq, cfg.queues, |cfg.queues|);
      assert DlqBinding(cfg.dlq, cfg.queues[j]) in b'.bindings;
    }
  }

  /**
   Where rejected messages go.  If nothing else is bound to the dead-letter exchange,
   a message rejected from a queue with no dead-letter exchange of its own goes to
   the dead-letter queues whose routing key matches the name of the first queue that
   uses the same `Args` map, by the type of the exchange; that first queue's is one
   of them.
   */
  lemma RejectedGoTo(b: Broker, cfg: Config, before: seq<Args>, i: nat, key: string)
    requires i < |cfg.queues| == |before| && cfg.dlqEnabled
    requires Declared(b, cfg, AllSetupArgs(cfg, before)).Some? && NoOtherDlxBindings(b, cfg)
    requires DLX_ARG !in before[i]
    ensures var b' := Declared(b, cfg, AllSetupArgs(cfg, before)).value;
            var first := cfg.queues[FirstUser(cfg.queues, i)].name;
            && cfg.queues[i].name in b'.queues
            && DeadLetterTargets(b', cfg.queues[i].name, key) == MatchingDLQs(cfg, first)
            && (KnownType(cfg.dlq.exchangeType) ==> GetDLQName(cfg.dlq, first) in MatchingDLQs(cfg, first))
  {
    var args := AllSetupArgs(cfg, before);
    var b' := Declared(b, cfg, args).value;
    var u := FirstUser(cfg.queues, i);
    SetupHolds(b, cfg, args);
    DlxRoutes(b, cfg, args, cfg.queues[u].name);
    ArgNamesDiffer();
    assert HasQueue(b', cfg.queues[i].name, DeclFor(cfg.queues[i], args[i]));
    assert args[i][DLX_ARG] == cfg.dlq.exchangeName && args[i][DLK_ARG] == cfg.queues[u].name;
    if KnownType(cfg.dlq.exchangeType) {
      MatchesItself(cfg.dlq.exchangeType, cfg.queues[u].name);
    }
  }

  /**
   A queue with a dead-letter exchange of its own keeps it: it is declared with
   exactly its own arguments, and what it rejects goes where these say.
   */
  lemma OwnDLXKept(b: Broker, cfg: Config, before: seq<Args>, i: nat, key: string)
    requires i < |cfg.queues| == |before| && Declared(b, cfg, AllSetupArgs(cfg, before)).Some?
    requires "x-dead-letter-exchange" in before[i]
    ensures var b', name := Declared(b, cfg, AllSetupArgs(cfg, before)).value, cfg.queues[i].name;
            && name in b'.queues && b'.queues[name].args == before[i]
            && DeadLetterTargets(b', name, key) ==
               Route(b', before[i]["x-dead-letter-exchange"],
                     if "x-dead-letter-routing-key" in before[i] then before[i]["x-dead-letter-routing-key"] else key)
  {
    DeclaredAsConfigured(b, cfg, before, i);
  }

  lemma ArgNamesDiffer()
    ensures DLX_ARG != DLK_ARG
  {
  }

  lemma PrefixInjective(dlq: DLQConfig, a: string, b: string)
    requires GetDLQName(dlq, a) == GetDLQName(dlq, b)
    ensures a == b
  {
    assert (dlq.queuePrefix + a)[|dlq.queuePrefix|..] == a;
    assert (dlq.queuePrefix + b)[|dlq.queuePrefix|..] == b;
  }

  /** Names match as routing keys only if they are equal: a direct exchange, or topics without wildcards. */
  ghost predicate MatchesExactly(cfg: Config) {
    cfg.dlq.exchangeType == "direct" ||
    (cfg.dlq.exchangeType == "topic" && forall j | 0 <= j < |cfg.queues| :: WildcardFree(cfg.queues[j].name))
  }

  lemma ExactMatch(cfg: Config, j: nat, key: string)
    requires MatchesExactly(cfg) && j < |cfg.queues|
    ensures Matches(cfg.dlq.exchangeType, cfg.queues[j].name, key) <==> cfg.queues[j].name == key
  {
    if cfg.dlq.exchangeType == "topic" {
      PlainMatch(cfg.queues[j].name, key);
    }
  }

  /**
   With exact matching rejected messages go to exactly one queue; with a fanout or
   headers exchange they go to every dead-letter queue.
   */
  lemma OneOrAll(cfg: Config, i: nat)
    requires i < |cfg.queues|
    ensures MatchesExactly(cfg) ==> MatchingDLQs(cfg, cfg.queues[i].name) == {GetDLQName(cfg.dlq, cfg.queues[i].name)}
    ensures cfg.dlq.exchangeType == "fanout" || cfg.dlq.exchangeType == "headers" ==>
              MatchingDLQs(cfg, cfg.queues[i].name)
              == set j | 0 <= j < |cfg.queues| :: GetDLQName(cfg.dlq, cfg.queues[j].name)
  {
    if MatchesExactly(cfg) {
      forall j: nat | j < |cfg.queues|
        ensures Matches(cfg.dlq.exchangeType, cfg.queues[j].name, cfg.queues[i].name) <==>
                cfg.queues[j].name == cfg.queues[i].name
      {
        ExactMatch(cfg, j, cfg.queues[i].name);
      }
    }
  }

  ghost predicate DistinctNames(cfg: Config) {
    forall j, k | 0 <= j < k < |cfg.queues| :: cfg.queues[j].name != cfg.queues[k].name
  }

  /** No other queue's dead-letter queue also receives what queue `i` rejects. */
  ghost predicate Unmatched(cfg: Config, i: nat)
    requires i < |cfg.queues|
  {
    forall j | 0 <= j < |cfg.queues| && j != i ::
      !Matches(cfg.dlq.exchangeType, cfg.queues[j].name, cfg.queues[i].name)
  }

  /** The `Args` map of queue `i`, if it has one, is not used by an earlier queue. */
  ghost predicate FirstOfMap(cfg: Config, i: nat)
    requires i < |cfg.queues|
  {
    cfg.queues[i].args == null || forall j | 0 <= j < i :: cfg.queues[j].args != cfg.queues[i].args
  }

  lemma OnlyOwn(cfg: Config, i: nat, u: nat)
    requires i < |cfg.queues| && u <= i && DistinctNames(cfg) && KnownType(cfg.dlq.exchangeType)
    ensures MatchingDLQs(cfg, cfg.queues[u].name) == {GetDLQName(cfg.dlq, cfg.queues[i].name)} <==>
            u == i && Unmatched(cfg, i)
  {
    var own, matching := GetDLQName(cfg.dlq, cfg.queues[i].name), MatchingDLQs(cfg, cfg.queues[u].name);
    MatchesItself(cfg.dlq.exchangeType, cfg.queues[u].name);
    assert GetDLQName(cfg.dlq, cfg.queues[u].name) in matching;
    if matching == {own} {
      PrefixInjective(cfg.dlq, cfg.queues[u].name, cfg.queues[i].name);
      forall j | 0 <= j < |cfg.queues| && Matches(cfg.dlq.exchangeType, cfg.queues[j].name, cfg.queues[i].name)
        ensures j == i
      {
        assert GetDLQName(cfg.dlq, cfg.queues[j].name) in matching;
        PrefixInjective(cfg.dlq, cfg.queues[j].name, cfg.queues[i].name);
      }
    }
  }

  /**
   With distinct queue names, and whichever of the four types the dead-letter
   exchange has, rejected messages reach the queue's own dead-letter queue and no
   other exactly when no queue earlier in the configuration shares its `Args` map
   and no other queue's name matches its name as a routing key.
   */
  lemma OwnDLQExactly(b: Broker, cfg: Config, before: seq<Args>, i: nat, key: string)
    requires i < |cfg.queues| == |before| && cfg.dlqEnabled
    requires Declared(b, cfg, AllSetupArgs(cfg, before)).Some? && NoOtherDlxBindings(b, cfg)
    requires DistinctNames(cfg) && KnownType(cfg.dlq.exchangeType)
    requires DLX_ARG !in before[i]
    ensures var b' := Declared(b, cfg, AllSetupArgs(cfg, before)).value;
            && cfg.queues[i].name in b'.queues
            && (DeadLetterTargets(b', cfg.queues[i].name, key) == {GetDLQName(cfg.dlq, cfg.queues[i].name)} <==>
                FirstOfMap(cfg, i) && Unmatched(cfg, i))
  {
    RejectedGoTo(b, cfg, before, i, key);
    OnlyOwn(cfg, i, FirstUser(cfg.queues, i));
  }

  /** With exact matching only the sharing of the `Args` map matters. */
  lemma OwnDLQIffMapNotShared(b: Broker, cfg: Config, before: seq<Args>, i: nat, key: string)
    requires i < |cfg.queues| == |before| && cfg.dlqEnabled
    requires Declared(b, cfg, AllSetupArgs(cfg, before)).Some? && NoOtherDlxBindings(b, cfg)
    requires DistinctNames(cfg) && MatchesExactly(cfg)
    requires DLX_ARG !in before[i]
    ensures var b' := Declared(b, cfg, AllSetupArgs(cfg, before)).value;
            && cfg.queues[i].name in b'.queues
            && (DeadLetterTargets(b', cfg.queues[i].name, key) == {GetDLQName(cfg.dlq, cfg.queues[i].name)} <==>
                cfg.queues[i].args == null || forall j | 0 <= j < i :: cfg.queues[j].args != cfg.queues[i].args)
  {
    OwnDLQExactly(b, cfg, before, i, key);
    forall j: nat | j < |cfg.queues| && j != i
      ensures !Matches(cfg.dlq.exchangeType, cfg.queues[j].name, cfg.queues[i].name)
    {
      ExactMatch(cfg, j, cfg.queues[i].name);
    }
  }

  // ----- when setup on a new broker succeeds -----

  lemma {:induction false} DLQsSucceed(b: Broker, dlq: DLQConfig, queues: seq<QueueConfig>, n: nat)
    requires n <= |queues| && dlq.exchangeName in b.exchanges && forall q <- b.queues :: b.queues[q] == DlqDecl(dlq)
    ensures DeclareDLQs(b, dlq, queues, n).Some?
    ensures var b' := DeclareDLQs(b, dlq, queues, n).value;
            && b'.exchanges == b.exchanges
            && (forall q <- b'.queues :: b'.queues[q] == DlqDecl(dlq))
            && (forall q <- b'.queues :: q in b.queues || exists i | 0 <= i < n :: q == GetDLQName(dlq, queues[i].name))
  {
    if n > 0 {
      DLQsSucceed(b, dlq, queues, n - 1);
    }
  }

  lemma {:induction false} ExchangesSucceed(b: Broker, exs: seq<ExchangeConfig>, n: nat)
    requires n <= |exs|
    requires forall i, j | 0 <= i < j < |exs| :: exs[i].name != exs[j].name
    requires forall i | 0 <= i < |exs| :: exs[i].name !in b.exchanges
    ensures DeclareExchanges(b, exs, n).Some?
    ensures forall x <- DeclareExchanges(b, exs, n).value.exchanges ::
              x in b.exchanges || exists i | 0 <= i < n :: x == exs[i].name
    ensures b.exchanges.Keys <= DeclareExchanges(b, exs, n).value.exchanges.Keys
    ensures forall i | 0 <= i < n :: exs[i].name in DeclareExchanges(b, exs, n).value.exchanges
    ensures DeclareExchanges(b, exs, n).value.queues == b.queues
  {
    if n > 0 {
      ExchangesSucceed(b, exs, n - 1);
    }
  }

  /** The bindings of the queue, if it has any, are to an exchange of the broker. */
  ghost predicate Bindable(b: Broker, q: QueueConfig) {
    q.exchange == "" || q.routingKeys == [] || q.exchange in b.exchanges
  }

  lemma {:induction false} KeysSucceed(b: Broker, q: QueueConfig, n: nat)
    requires n <= |q.routingKeys| && (n == 0 || q.exchange in b.exchanges)
    ensures BindKeys(b, q, n).Some?
    ensures BindKeys(b, q, n).value == b.(bindings := BindKeys(b, q, n).value.bindings)
  {
    if n > 0 {
      KeysSucceed(b, q, n - 1);
    }
  }

  lemma {:induction false} QueuesSucceed(b: Broker, queues: seq<QueueConfig>, args: seq<Args>, n: nat)
    requires n <= |queues| == |args|
    requires forall i, j | 0 <= i < j < |queues| :: queues[i].name != queues[j].name
    requires forall i | 0 <= i < |queues| :: queues[i].name !in b.queues && Bindable(b, queues[i])
    ensures DeclareQueues(b, queues, args, n).Some?
    ensures DeclareQueues(b, queues, args, n).value.exchanges == b.exchanges
    ensures forall q <- DeclareQueues(b, queues, args, n).value.queues ::
              q in b.queues || exists i | 0 <= i < n :: q == queues[i].name
  {
    if n > 0 {
      QueuesSucceed(b, queues, args, n - 1);
      var q := queues[n - 1];
      var b1 := DeclareQueue(DeclareQueues(b, queues, args, n - 1).value, q.name, DeclFor(q, args[n - 1])).value;
      assert Bindable(b, q);
      if q.exchange != "" {
        KeysSucceed(b1, q, |q.routingKeys|);
      }
    }
  }

  /** An unbindable queue stops the setup. */
  lemma {:induction false} QueuesFail(b: Broker, queues: seq<QueueConfig>, args: seq<Args>, n: nat)
    requires n <= |queues| == |args| && DeclareQueues(b, queues, args, n).Some?
    ensures DeclareQueues(b, queues, args, n).value.exchanges == b.exchanges
    ensures forall i | 0 <= i < n :: Bindable(b, queues[i])
  {
    if n > 0 {
      QueuesFail(b, queues, args, n - 1);
      var q := queues[n - 1];
      var b1 := DeclareQueue(DeclareQueues(b, queues, args, n - 1).value, q.name, DeclFor(q, args[n - 1])).value;
      if q.exchange != "" {
        KeysAdded(b1, q, |q.routingKeys|);
        assert q.routingKeys != [] ==> HasKeys(BindKeys(b1, q, |q.routingKeys|).value, q, 1);
      }
    }
  }

  /** The exchange is there, or among those that setup declares. */
  ghost predicate Available(b: Broker, cfg: Config, exchange: string) {
    exchange in b.exchanges || (cfg.dlqEnabled && exchange == cfg.dlq.exchangeName) ||
    exists i | 0 <= i < |cfg.exchanges| :: exchange == cfg.exchanges[i].name
  }

  /** A broker with no queues, and with no exchanges but its own, such as those it is shipped with. */
  ghost predicate New(b: Broker, cfg: Config) {
    && b.queues == map[]
    && (forall i | 0 <= i < |cfg.exchanges| :: cfg.exchanges[i].name !in b.exchanges)
    && (cfg.dlqEnabled ==> cfg.dlq.exchangeName !in b.exchanges)
  }

  /** Names that do not clash. */
  ghost predicate NamesApart(cfg: Config) {
    && DistinctNames(cfg)
    && (forall i, j | 0 <= i < j < |cfg.exchanges| :: cfg.exchanges[i].name != cfg.exchanges[j].name)
    && (cfg.dlqEnabled ==>
          && (forall i, j | 0 <= i < |cfg.queues| && 0 <= j < |cfg.queues| ::
                cfg.queues[i].name != GetDLQName(cfg.dlq, cfg.queues[j].name))
          && (forall i | 0 <= i < |cfg.exchanges| :: cfg.exchanges[i].name != cfg.dlq.exchangeName))
  }

  /** The broker before the queues are declared. */
  lemma ExchangesReady(start: Broker, cfg: Config, args: seq<Args>) returns (b: Broker)
    requires |args| == |cfg.queues| && NamesApart(cfg) && New(start, cfg)
    ensures forall x :: x in b.exchanges <==> Available(start, cfg, x)
    ensures forall i | 0 <= i < |cfg.queues| :: cfg.queues[i].name !in b.queues
    ensures Declared(start, cfg, args) == DeclareQueues(b, cfg.queues, args, |cfg.queues|)
  {
    b := start;
    if cfg.dlqEnabled {
      b := DeclareExchange(start, cfg.dlq.exchangeName, DlxDecl(cfg.dlq)).value;
      DLQsSucceed(b, cfg.dlq, cfg.queues, |cfg.queues|);
      b := DeclareDLQs(b, cfg.dlq, cfg.queues, |cfg.queues|).value;
    }
    ExchangesSucceed(b, cfg.exchanges, |cfg.exchanges|);
    b := DeclareExchanges(b, cfg.exchanges, |cfg.exchanges|).value;
  }

  /**
   On a new broker, if names do not clash, setup succeeds if and only if every queue
   with bindings is bound to an exchange that is there or that setup declares.
   */
  lemma SetupSucceeds(start: Broker, cfg: Config, args: seq<Args>)
    requires |args| == |cfg.queues| && NamesApart(cfg) && New(start, cfg)
    ensures Declared(start, cfg, args).Some? <==>
            forall i | 0 <= i < |cfg.queues| && cfg.queues[i].exchange != "" && cfg.queues[i].routingKeys != [] ::
              Available(start, cfg, cfg.queues[i].exchange)
  {
    var b := ExchangesReady(start, cfg, args);
    assert forall i | 0 <= i < |cfg.queues| ::
        Bindable(b, cfg.queues[i]) <==>
        (cfg.queues[i].exchange != "" && cfg.queues[i].routingKeys != [] ==>
           Available(start, cfg, cfg.queues[i].exchange));
    if forall i | 0 <= i < |cfg.queues| :: Bindable(b, cfg.queues[i]) {
      QueuesSucceed(b, cfg.queues, args, |cfg.queues|);
    }
    if Declared(start, cfg, args).Some? {
      QueuesFail(b, cfg.queues, args, |cfg.queues|);
    }
  }
}
