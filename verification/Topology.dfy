/**
 Topology setup: the automatic dead-letter configuration as a small compiler from
 queue configurations to broker declarations.  A queue configuration is copied by
 value but its `Args` map is shared, so adding the dead-letter arguments to the
 copy changes the caller's map; the maps are objects here.
 */
module Topology {
  import opened Messages
  import opened ExchangeTypes

  const DLX_ARG := "x-dead-letter-exchange"
  const DLK_ARG := "x-dead-letter-routing-key"

  type Args = map<string, string>

  class ArgsMap {
    var entries: Args

    constructor (entries: Args)
      ensures this.entries == entries
    {
      this.entries := entries;
    }
  }

  datatype QueueConfig = QueueConfig(
    name: string, exchange: string, routingKeys: seq<string>,
    durable: bool, autoDelete: bool, exclusive: bool, args: ArgsMap?)

  datatype ExchangeDecl = ExchangeDecl(typ: string, durable: bool, autoDelete: bool, isInternal: bool, args: Args)

  datatype ExchangeConfig = ExchangeConfig(name: string, decl: ExchangeDecl)

  datatype DLQConfig = DLQConfig(
    exchangeName: string, queuePrefix: string, exchangeType: string, durable: bool, autoDelete: bool)

  datatype Config = Config(exchanges: seq<ExchangeConfig>, queues: seq<QueueConfig>, dlqEnabled: bool, dlq: DLQConfig)

  function GetDLQName(dlq: DLQConfig, queue: string): string {
    dlq.queuePrefix + queue
  }

  function GetDLXRoutingKey(dlq: DLQConfig, queue: string): string {
    queue
  }

  // ----- the broker -----

  datatype QueueDecl = QueueDecl(durable: bool, autoDelete: bool, exclusive: bool, args: Args)

  datatype Binding = Binding(queue: string, key: string, exchange: string)

  datatype Broker = Broker(
    exchanges: map<string, ExchangeDecl>, queues: map<string, QueueDecl>, bindings: set<Binding>)

  /** Declaring again is fine with the same attributes and refused with others. */
  function DeclareExchange(b: Broker, name: string, decl: ExchangeDecl): Option<Broker> {
    if name in b.exchanges && b.exchanges[name] != decl then None
    else Some(b.(exchanges := b.exchanges[name := decl]))
  }

  function DeclareQueue(b: Broker, name: string, decl: QueueDecl): Option<Broker> {
    if name in b.queues && b.queues[name] != decl then None
    else Some(b.(queues := b.queues[name := decl]))
  }

  /** Binding again is fine, binding to an exchange that does not exist is refused. */
  function Bind(b: Broker, queue: string, key: string, exchange: string): Option<Broker> {
    if exchange !in b.exchanges then None
    else Some(b.(bindings := b.bindings + {Binding(queue, key, exchange)}))
  }

  /** An exchange routes to the queues whose bindings match by its type; one that does not exist routes nowhere. */
  ghost function Route(b: Broker, exchange: string, key: string): set<string> {
    if exchange !in b.exchanges then {}
    else
      var typ := b.exchanges[exchange].typ;
      set x | x in b.bindings && x.exchange == exchange && Matches(typ, x.key, key) :: x.queue
  }

  /** Where a message rejected from `queue` ends up; `key` is the key it came with. */
  ghost function DeadLetterTargets(b: Broker, queue: string, key: string): set<string>
    requires queue in b.queues
  {
    var args := b.queues[queue].args;
    if DLX_ARG !in args then {}
    else Route(b, args[DLX_ARG], if DLK_ARG in args then args[DLK_ARG] else key)
  }

  // ----- what setup declares, given the arguments of each queue -----

  function DlxDecl(dlq: DLQConfig): ExchangeDecl {
    ExchangeDecl(dlq.exchangeType, dlq.durable, dlq.autoDelete, false, map[])
  }

  function DlqDecl(dlq: DLQConfig): QueueDecl {
    QueueDecl(dlq.durable, dlq.autoDelete, false, map[])
  }

  function DeclFor(q: QueueConfig, args: Args): QueueDecl {
    QueueDecl(q.durable, q.autoDelete, q.exclusive, args)
  }

  function BindKeys(b: Broker, q: QueueConfig, n: nat): Option<Broker>
    requires n <= |q.routingKeys|
  {
    if n == 0 then Some(b)
    else
      var b1 := BindKeys(b, q, n - 1);
      if b1.None? then None else Bind(b1.value, q.name, q.routingKeys[n - 1], q.exchange)
  }

  function BindQueue(b: Broker, q: QueueConfig): Option<Broker> {
    if q.exchange == "" then Some(b) else BindKeys(b, q, |q.routingKeys|)
  }

  function DeclareDLQs(b: Broker, dlq: DLQConfig, queues: seq<QueueConfig>, n: nat): Option<Broker>
    requires n <= |queues|
  {
    if n == 0 then Some(b)
    else
      var b1 := DeclareDLQs(b, dlq, queues, n - 1);
      if b1.None? then None
      else
        var name := queues[n - 1].name;
        var b2 := DeclareQueue(b1.value, GetDLQName(dlq, name), DlqDecl(dlq));
        if b2.None? then None
        else Bind(b2.value, GetDLQName(dlq, name), GetDLXRoutingKey(dlq, name), dlq.exchangeName)
  }

  function SetupDLQ(b: Broker, dlq: DLQConfig, queues: seq<QueueConfig>): Option<Broker> {
    var b1 := DeclareExchange(b, dlq.exchangeName, DlxDecl(dlq));
    if b1.None? then None else DeclareDLQs(b1.value, dlq, queues, |queues|)
  }

  function DeclareExchanges(b: Broker, exs: seq<ExchangeConfig>, n: nat): Option<Broker>
    requires n <= |exs|
  {
    if n == 0 then Some(b)
    else
      var b1 := DeclareExchanges(b, exs, n - 1);
      if b1.None? then None else DeclareExchange(b1.value, exs[n - 1].name, exs[n - 1].decl)
  }

  function DeclareQueues(b: Broker, queues: seq<QueueConfig>, args: seq<Args>, n: nat): Option<Broker>
    requires n <= |queues| == |args|
  {
    if n == 0 then Some(b)
    else
      var b1 := DeclareQueues(b, queues, args, n - 1);
      if b1.None? then None
      else
        var q := queues[n - 1];
        var b2 := DeclareQueue(b1.value, q.name, DeclFor(q, args[n - 1]));
        if b2.None? then None else BindQueue(b2.value, q)
  }

  function Declared(b: Broker, cfg: Config, args: seq<Args>): Option<Broker>
    requires |args| == |cfg.queues|
  {
    var b1 := if cfg.dlqEnabled then SetupDLQ(b, cfg.dlq, cfg.queues) else Some(b);
    if b1.None? then None
    else
      var b2 := DeclareExchanges(b1.value, cfg.exchanges, |cfg.exchanges|);
      if b2.None? then None else DeclareQueues(b2.value, cfg.queues, args, |cfg.queues|)
  }

  // ----- the arguments, with sharing -----

  /** What adding a dead-letter exchange does to a map: nothing if one is configured. */
  function AddDLX(a: Args, dlx: string, key: string): Args {
    if DLX_ARG in a then a else a[DLX_ARG := dlx][DLK_ARG := key]
  }

  /**
   `after` is `before` itself if that names a dead-letter exchange, and otherwise
   `before` with this exchange and routing key for dead letters.
   */
  ghost predicate DeadLettersTo(before: Args, after: Args, dlx: string, key: string) {
    if "x-dead-letter-exchange" in before then after == before
    else
      && "x-dead-letter-exchange" in after && after["x-dead-letter-exchange"] == dlx
      && "x-dead-letter-routing-key" in after && after["x-dead-letter-routing-key"] == key
      && (forall k :: k != "x-dead-letter-exchange" && k != "x-dead-letter-routing-key" ==>
            (k in after <==> k in before) && (k in after && k in before ==> after[k] == before[k]))
  }

  lemma AddDLXAdds(a: Args, dlx: string, key: string)
    ensures DeadLettersTo(a, AddDLX(a, dlx, key), dlx, key)
  {
    assert DLX_ARG != DLK_ARG;
  }

  ghost function ArgsOf(q: QueueConfig): Args
    reads q.args
  {
    if q.args == null then map[] else q.args.entries
  }

  ghost function Maps(queues: seq<QueueConfig>): set<ArgsMap> {
    set q | q in queues && q.args != null :: q.args
  }

  ghost function AllArgs(queues: seq<QueueConfig>): (a: seq<Args>)
    reads Maps(queues)
    ensures |a| == |queues|
  {
    seq(|queues|, i requires 0 <= i < |queues| reads Maps(queues) => ArgsOf(queues[i]))
  }

  /** The first queue in the list that uses the same map as queue `i`. */
  ghost function FirstUser(queues: seq<QueueConfig>, i: nat): (j: nat)
    requires i < |queues|
    ensures j <= i && (queues[i].args == null ==> j == i)
    ensures queues[i].args != null ==> queues[j].args == queues[i].args
    ensures forall k | 0 <= k < j && queues[i].args != null :: queues[k].args != queues[i].args
  {
    if queues[i].args == null then i else FirstUserFrom(queues, i, 0)
  }

  ghost function FirstUserFrom(queues: seq<QueueConfig>, i: nat, from: nat): (j: nat)
    requires from <= i < |queues| && queues[i].args != null
    requires forall k | 0 <= k < from :: queues[k].args != queues[i].args
    ensures j <= i && queues[j].args == queues[i].args
    ensures forall k | 0 <= k < j :: queues[k].args != queues[i].args
    decreases i - from
  {
    if queues[from].args == queues[i].args then from else FirstUserFrom(queues, i, from + 1)
  }

  /** The arguments queue `i` is declared with, when the maps held `before` at the start. */
  ghost function SetupArgs(cfg: Config, before: seq<Args>, i: nat): Args
    requires i < |cfg.queues| == |before|
  {
    if cfg.dlqEnabled
    then AddDLX(before[i], cfg.dlq.exchangeName, GetDLXRoutingKey(cfg.dlq, cfg.queues[FirstUser(cfg.queues, i)].name))
    else before[i]
  }

  ghost function AllSetupArgs(cfg: Config, before: seq<Args>): (a: seq<Args>)
    requires |before| == |cfg.queues|
    ensures |a| == |before|
  {
    seq(|before|, i requires 0 <= i < |before| => SetupArgs(cfg, before, i))
  }

  /** The arguments `a` are those of queue `i` at the start, with dead letters as the first user of its map has them. */
  ghost predicate RightArgs(cfg: Config, before: seq<Args>, i: nat, a: Args)
    requires i < |cfg.queues| == |before|
  {
    if cfg.dlqEnabled
    then DeadLettersTo(before[i], a, cfg.dlq.exchangeName, cfg.queues[FirstUser(cfg.queues, i)].name)
    else a == before[i]
  }

  lemma SetupArgsRight(cfg: Config, before: seq<Args>, i: nat)
    requires i < |cfg.queues| == |before|
    ensures RightArgs(cfg, before, i, SetupArgs(cfg, before, i))
  {
    AddDLXAdds(before[i], cfg.dlq.exchangeName, cfg.queues[FirstUser(cfg.queues, i)].name);
  }

  // ----- the code -----

  /** Adds the dead-letter arguments to a copy of the queue; the map they go into is shared with the original. */
  method WithDLX(q: QueueConfig, dlx: string, key: string) returns (copy: QueueConfig)
    modifies q.args
    ensures copy == q.(args := copy.args) && copy.args != null
    ensures copy.args.entries == AddDLX(old(ArgsOf(q)), dlx, key)
    ensures DeadLettersTo(old(ArgsOf(q)), copy.args.entries, dlx, key)
    ensures if q.args != null then copy.args == q.args else fresh(copy.args)
  {
    copy := q;
    if copy.args == null {
      var m := new ArgsMap(map[]);
      copy := copy.(args := m);
    }
    if DLX_ARG !in copy.args.entries {
      copy.args.entries := copy.args.entries[DLX_ARG := dlx];
      copy.args.entries := copy.args.entries[DLK_ARG := key];
    }
    AddDLXAdds(old(ArgsOf(q)), dlx, key);
  }

  method BindAll(b: Broker, q: QueueConfig) returns (b': Option<Broker>)
    ensures b' == BindQueue(b, q)
  {
    b' := Some(b);
    if q.exchange != "" {
      for k := 0 to |q.routingKeys|
        invariant b' == BindKeys(b, q, k) && b'.Some?
      {
        b' := Bind(b'.value, q.name, q.routingKeys[k], q.exchange);
        if b'.None? {
          KeysStuck(b, q, k + 1, |q.routingKeys|);
          return;
        }
      }
    }
  }

  lemma {:induction false} KeysStuck(b: Broker, q: QueueConfig, k: nat, n: nat)
    requires k <= n <= |q.routingKeys| && BindKeys(b, q, k).None?
    ensures BindKeys(b, q, n).None?
  {
    if k < n {
      KeysStuck(b, q, k, n - 1);
    }
  }

  method DeclareAndBind(b: Broker, q: QueueConfig, args: Args) returns (b': Option<Broker>)
    ensures var d := DeclareQueue(b, q.name, DeclFor(q, args));
            b' == if d.None? then None else BindQueue(d.value, q)
  {
    b' := DeclareQueue(b, q.name, DeclFor(q, args));
    if b'.Some? {
      b' := BindAll(b'.value, q);
    }
  }

  method SetupDLQs(b: Broker, dlq: DLQConfig, queues: seq<QueueConfig>) returns (b': Option<Broker>)
    ensures b' == SetupDLQ(b, dlq, queues)
  {
    b' := DeclareExchange(b, dlq.exchangeName, DlxDecl(dlq));
    if b'.None? {
      return;
    }
    ghost var b1 := b'.value;
    for i := 0 to |queues|
      invariant b' == DeclareDLQs(b1, dlq, queues, i) && b'.Some?
    {
      var name := GetDLQName(dlq, queues[i].name);
      b' := DeclareQueue(b'.value, name, DlqDecl(dlq));
      if b'.None? {
        DLQsStuck(b1, dlq, queues, i + 1, |queues|);
        return;
      }
      b' := Bind(b'.value, name, GetDLXRoutingKey(dlq, queues[i].name), dlq.exchangeName);
      if b'.None? {
        DLQsStuck(b1, dlq, queues, i + 1, |queues|);
        return;
      }
    }
  }

  lemma {:induction false} DLQsStuck(b: Broker, dlq: DLQConfig, queues: seq<QueueConfig>, k: nat, n: nat)
    requires k <= n <= |queues| && DeclareDLQs(b, dlq, queues, k).None?
    ensures DeclareDLQs(b, dlq, queues, n).None?
  {
    if k < n {
      DLQsStuck(b, dlq, queues, k, n - 1);
    }
  }

  lemma {:induction false} QueuesStuck(b: Broker, queues: seq<QueueConfig>, args: seq<Args>, k: nat, n: nat)
    requires k <= n <= |queues| == |args| && DeclareQueues(b, queues, args, k).None?
    ensures DeclareQueues(b, queues, args, n).None?
  {
    if k < n {
      QueuesStuck(b, queues, args, k, n - 1);
    }
  }

  lemma {:induction false} ExchangesStuck(b: Broker, exs: seq<ExchangeConfig>, k: nat, n: nat)
    requires k <= n <= |exs| && DeclareExchanges(b, exs, k).None?
    ensures DeclareExchanges(b, exs, n).None?
  {
    if k < n {
      ExchangesStuck(b, exs, k, n - 1);
    }
  }

  method DeclareAllExchanges(b: Broker, exs: seq<ExchangeConfig>) returns (b': Option<Broker>)
    ensures b' == DeclareExchanges(b, exs, |exs|)
  {
    b' := Some(b);
    for i := 0 to |exs|
      invariant b' == DeclareExchanges(b, exs, i) && b'.Some?
    {
      b' := DeclareExchange(b'.value, exs[i].name, exs[i].decl);
      if b'.None? {
        ExchangesStuck(b, exs, i + 1, |exs|);
        return;
      }
    }
  }

  /** The shared maps after the first `k` queues were handled. */
  ghost predicate MapsAfter(cfg: Config, before: seq<Args>, k: nat)
    requires |before| == |cfg.queues|
    reads Maps(cfg.queues)
  {
    forall j {:trigger ArgsOf(cfg.queues[j])} | 0 <= j < |cfg.queues| && cfg.queues[j].args != null ::
      ArgsOf(cfg.queues[j]) ==
      if cfg.dlqEnabled && FirstUser(cfg.queues, j) < k then SetupArgs(cfg, before, j) else before[j]
  }

  /** Nil maps stand for no arguments. */
  ghost predicate NilIsEmpty(cfg: Config, before: seq<Args>)
    requires |before| == |cfg.queues|
  {
    forall j | 0 <= j < |cfg.queues| && cfg.queues[j].args == null :: before[j] == map[]
  }

  /** One round of the loop over the queues. */
  method DeclareQueueAt(b: Broker, cfg: Config, ghost before: seq<Args>, i: nat) returns (b': Option<Broker>)
    requires i < |cfg.queues| == |before| && MapsAfter(cfg, before, i) && NilIsEmpty(cfg, before)
    modifies Maps(cfg.queues)
    ensures MapsAfter(cfg, before, i + 1)
    ensures var q := cfg.queues[i];
            var d := DeclareQueue(b, q.name, DeclFor(q, SetupArgs(cfg, before, i)));
            b' == if d.None? then None else BindQueue(d.value, q)
  {
    var args := QueueArgs(cfg, before, i);
    b' := DeclareAndBind(b, cfg.queues[i], args);
  }

  method DeclareAllQueues(b: Broker, cfg: Config) returns (b': Option<Broker>)
    modifies Maps(cfg.queues)
    ensures var before := old(AllArgs(cfg.queues));
            b' == DeclareQueues(b, cfg.queues, AllSetupArgs(cfg, before), |cfg.queues|)
    ensures b'.Some? ==> MapsAfter(cfg, old(AllArgs(cfg.queues)), |cfg.queues|)
  {
    ghost var before := AllArgs(cfg.queues);
    ghost var args := AllSetupArgs(cfg, before);
    b' := Some(b);
    for i := 0 to |cfg.queues|
      invariant b' == DeclareQueues(b, cfg.queues, args, i) && b'.Some?
      invariant MapsAfter(cfg, before, i)
    {
      b' := DeclareQueueAt(b'.value, cfg, before, i);
      assert b' == DeclareQueues(b, cfg.queues, args, i + 1);
      if b'.None? {
        QueuesStuck(b, cfg.queues, args, i + 1, |cfg.queues|);
        return;
      }
    }
  }

  /** The arguments queue `i` is declared with, after its map was updated in place. */
  method QueueArgs(cfg: Config, ghost before: seq<Args>, i: nat) returns (args: Args)
    requires i < |cfg.queues| == |before| && MapsAfter(cfg, before, i) && NilIsEmpty(cfg, before)
    modifies Maps(cfg.queues)
    ensures args == SetupArgs(cfg, before, i)
    ensures MapsAfter(cfg, before, i + 1)
  {
    var q := cfg.queues[i];
    assert q in cfg.queues;
    ghost var now := AllArgs(cfg.queues);
    assert now[i] == ArgsOf(q);
    if !cfg.dlqEnabled {
      args := if q.args == null then map[] else q.args.entries;
      return;
    }
    var copy := WithDLX(q, cfg.dlq.exchangeName, GetDLXRoutingKey(cfg.dlq, q.name));
    args := copy.args.entries;
    forall j | 0 <= j < |cfg.queues| && cfg.queues[j].args != null
      ensures ArgsOf(cfg.queues[j]) == if FirstUser(cfg.queues, j) < i + 1 then SetupArgs(cfg, before, j) else before[j]
    {
      assert now[j] == if FirstUser(cfg.queues, j) < i then SetupArgs(cfg, before, j) else before[j];
      assert cfg.queues[j].args != q.args ==> ArgsOf(cfg.queues[j]) == now[j] && FirstUser(cfg.queues, j) != i;
    }
  }

  /** `setupTopology`, as run on every connect. */
  method SetupTopology(b: Broker, cfg: Config) returns (b': Option<Broker>)
    modifies Maps(cfg.queues)
    ensures b' == Declared(b, cfg, AllSetupArgs(cfg, old(AllArgs(cfg.queues))))
    ensures b'.Some? ==> MapsAfter(cfg, old(AllArgs(cfg.queues)), |cfg.queues|)
    ensures b'.Some? ==>
              forall i | 0 <= i < |cfg.queues| && cfg.queues[i].args != null ::
                RightArgs(cfg, old(AllArgs(cfg.queues)), i, ArgsOf(cfg.queues[i]))
  {
    ghost var before := AllArgs(cfg.queues);
    b' := Some(b);
    if cfg.dlqEnabled {
      b' := SetupDLQs(b, cfg.dlq, cfg.queues);
      if b'.None? {
        return;
      }
    }
    b' := DeclareAllExchanges(b'.value, cfg.exchanges);
    if b'.None? {
      return;
    }
    b' := DeclareAllQueues(b'.value, cfg);
    forall i | 0 <= i < |cfg.queues|
      ensures RightArgs(cfg, before, i, SetupArgs(cfg, before, i))
    {
      SetupArgsRight(cfg, before, i);
    }
  }
}
