/**
 The broker topology: which queues and bindings DeclareTopology makes, and where a message published under a routing
 key therefore goes. Routing follows the direct exchange of AMQP 0-9-1, section 3.1.3.1; a queue's time to live and
 the routing key its expired messages return under are RabbitMQ's extensions.
 */
module Topology {
  import opened Wrappers
  import opened Text
  import opened Routing

  datatype Op = Upload | Delete

  datatype RabbitConfig = RabbitConfig(
    exchange: string,
    uploadQueue: string, uploadKey: string, uploadDlq: string, uploadDlqKey: string, uploadDelays: seq<int>,
    deleteQueue: string, deleteKey: string, deleteDlq: string, deleteDlqKey: string, deleteDelays: seq<int>)
  {
    function Main(op: Op): string { if op == Upload then uploadQueue else deleteQueue }
    function MainKey(op: Op): string { if op == Upload then uploadKey else deleteKey }
    function Dlq(op: Op): string { if op == Upload then uploadDlq else deleteDlq }
    function DlqKey(op: Op): string { if op == Upload then uploadDlqKey else deleteDlqKey }
    function Delays(op: Op): seq<int> { if op == Upload then uploadDelays else deleteDelays }
  }

  /** A queue: plain, or one whose messages expire and return to the exchange under a routing key. */
  datatype Queue = Plain | Expiring(ttl: int, returnKey: string)

  datatype Layout = Layout(exchanges: set<string>, queues: map<string, Queue>, bindings: map<string, seq<string>>)

  const NOTHING := Layout({}, map[], map[])

  /** fmt.Sprintf("%s.retry.%d"). */
  function RetryQueueName(base: string, i: int): string {
    base + ".retry." + Itoa(i)
  }

  /**
   The queues a message published to an exchange under a key is put on: none unless the exchange has been
   declared. The empty exchange is always there and addresses a queue by name.
   */
  function Route(l: Layout, exchange: string, key: string): seq<string> {
    if exchange == "" then (if key in l.queues then [key] else [])
    else if exchange in l.exchanges && key in l.bindings then l.bindings[key]
    else []
  }

  // ---------- declaring ----------

  function WithBinding(l: Layout, queue: string, key: string): Layout {
    var bound := if key in l.bindings then l.bindings[key] else [];
    if queue in bound then l else l.(bindings := l.bindings[key := bound + [queue]])
  }

  function WithBoundQueue(l: Layout, queue: string, key: string): Layout {
    WithBinding(l.(queues := l.queues[queue := Plain]), queue, key)
  }

  /** The retry queues of the first n delays. */
  function WithRetryQueues(l: Layout, base: string, key: string, delays: seq<int>, n: nat): Layout
    requires n <= |delays|
  {
    if n == 0 then l
    else
      var before := WithRetryQueues(l, base, key, delays, n - 1);
      if delays[n - 1] <= 0 then before
      else before.(queues := before.queues[RetryQueueName(base, n - 1) := Expiring(delays[n - 1], key)])
  }

  /** Everything DeclareTopology declares, in its order. */
  function Built(l: Layout, cfg: RabbitConfig): Layout {
    var named := l.(exchanges := l.exchanges + {cfg.exchange});
    var main := WithBoundQueue(WithBoundQueue(named, cfg.uploadQueue, cfg.uploadKey), cfg.deleteQueue, cfg.deleteKey);
    var up := WithRetryQueues(main, cfg.uploadQueue, cfg.uploadKey, cfg.uploadDelays, |cfg.uploadDelays|);
    var down := WithRetryQueues(up, cfg.deleteQueue, cfg.deleteKey, cfg.deleteDelays, |cfg.deleteDelays|);
    WithBoundQueue(WithBoundQueue(down, cfg.uploadDlq, cfg.uploadDlqKey), cfg.deleteDlq, cfg.deleteDlqKey)
  }

  /** No delay is beyond the 32-bit time to live the broker is given. */
  predicate Fits(cfg: RabbitConfig) {
    forall op: Op, i | 0 <= i < |cfg.Delays(op)| :: cfg.Delays(op)[i] <= MAX_INT32
  }

  datatype DeclareError = BrokerRefused | TtlTooLarge(queue: string, i: nat)

  /** The declaring side of a broker. Its n-th call fails when the schedule says so. */
  class Broker {
    var layout: Layout
    var calls: nat
    const fails: nat -> bool

    constructor (fails: nat -> bool)
      ensures layout == NOTHING && calls == 0 && this.fails == fails
    {
      layout, calls, this.fails := NOTHING, 0, fails;
    }

    method ExchangeDeclare(name: string) returns (ok: bool)
      modifies this
      ensures calls == old(calls) + 1 && ok == !fails(old(calls))
      ensures layout
        == if ok then old(layout).(exchanges := old(layout).exchanges + {name}) else old(layout)
    {
      ok := !fails(calls);
      calls := calls + 1;
      if ok { layout := layout.(exchanges := layout.exchanges + {name}); }
    }

    method QueueDeclare(name: string, q: Queue) returns (ok: bool)
      modifies this
      ensures calls == old(calls) + 1 && ok == !fails(old(calls))
      ensures layout == if ok then old(layout).(queues := old(layout).queues[name := q]) else old(layout)
    {
      ok := !fails(calls);
      calls := calls + 1;
      if ok { layout := layout.(queues := layout.queues[name := q]); }
    }

    method QueueBind(queue: string, key: string) returns (ok: bool)
      modifies this
      ensures calls == old(calls) + 1 && ok == !fails(old(calls))
      ensures layout == if ok then WithBinding(old(layout), queue, key) else old(layout)
    {
      ok := !fails(calls);
      calls := calls + 1;
      if ok { layout := WithBinding(layout, queue, key); }
    }
  }

  /** One plain queue and its binding. */
  method DeclareBound(b: Broker, queue: string, key: string) returns (ok: bool)
    modifies b
    ensures b.calls >= old(b.calls)
    ensures ok ==> b.layout == WithBoundQueue(old(b.layout), queue, key)
    ensures ok <==> forall n | old(b.calls) <= n < b.calls :: !b.fails(n)
  {
    ok := b.QueueDeclare(queue, Plain);
    if !ok { return; }
    ok := b.QueueBind(queue, key);
  }

  method DeclareRetryQueues(b: Broker, base: string, key: string, delays: seq<int>)
                            returns (r: Result<(), DeclareError>)
    modifies b
    ensures b.calls >= old(b.calls)
    ensures r.Success? ==> b.layout == WithRetryQueues(old(b.layout), base, key, delays, |delays|)
    ensures r.Success? ==> forall i | 0 <= i < |delays| :: delays[i] <= MAX_INT32
    ensures r.Failure? && r.error.TtlTooLarge? ==>
      && r.error.queue == base && r.error.i < |delays| && delays[r.error.i] > MAX_INT32
      && forall i | 0 <= i < r.error.i :: delays[i] <= MAX_INT32
    ensures r == Failure(BrokerRefused) <==> exists n | old(b.calls) <= n < b.calls :: b.fails(n)
  {
    for i := 0 to |delays|
      invariant b.calls >= old(b.calls) && forall n | old(b.calls) <= n < b.calls :: !b.fails(n)
      invariant b.layout == WithRetryQueues(old(b.layout), base, key, delays, i)
      invariant forall j | 0 <= j < i :: delays[j] <= MAX_INT32
    {
      var ttl := delays[i];
      if ttl <= 0 { continue; }
      if ttl > MAX_INT32 { return Failure(TtlTooLarge(base, i)); }
      var ok := b.QueueDeclare(RetryQueueName(base, i), Expiring(ttl, key));
      if !ok { return Failure(BrokerRefused); }
    }
    return Success(());
  }

  /**
   DeclareTopology: it fails exactly when the broker refuses a call or a delay does not fit, and otherwise the
   broker holds the whole layout.
   */
  method DeclareTopology(b: Broker, cfg: RabbitConfig) returns (r: Result<(), DeclareError>)
    modifies b
    ensures r.Success? <==> Fits(cfg) && forall n | old(b.calls) <= n < b.calls :: !b.fails(n)
    ensures r.Success? ==> b.layout == Built(old(b.layout), cfg)
    ensures r == Failure(BrokerRefused) <==> exists n | old(b.calls) <= n < b.calls :: b.fails(n)
    ensures r.Failure? && r.error.TtlTooLarge? ==>
      exists op: Op, i | 0 <= i < |cfg.Delays(op)| ::
        cfg.Delays(op)[i] > MAX_INT32 && r.error == TtlTooLarge(cfg.Main(op), i)
  {
    hide WithBoundQueue, WithRetryQueues;
    var ok := b.ExchangeDeclare(cfg.exchange);
    if !ok { return Failure(BrokerRefused); }
    ok := DeclareBound(b, cfg.uploadQueue, cfg.uploadKey);
    if !ok { return Failure(BrokerRefused); }
    ok := DeclareBound(b, cfg.deleteQueue, cfg.deleteKey);
    if !ok { return Failure(BrokerRefused); }
    r := DeclareRetryQueues(b, cfg.uploadQueue, cfg.uploadKey, cfg.uploadDelays);
    if r.Failure? {
      if r.error.TtlTooLarge? { assert cfg.Delays(Upload)[r.error.i] > MAX_INT32; }
      return;
    }
    r := DeclareRetryQueues(b, cfg.deleteQueue, cfg.deleteKey, cfg.deleteDelays);
    if r.Failure? {
      if r.error.TtlTooLarge? { assert cfg.Delays(Delete)[r.error.i] > MAX_INT32; }
      return;
    }
    ok := DeclareBound(b, cfg.uploadDlq, cfg.uploadDlqKey);
    if !ok { return Failure(BrokerRefused); }
    ok := DeclareBound(b, cfg.deleteDlq, cfg.deleteDlqKey);
    if !ok { return Failure(BrokerRefused); }
  }

  // ---------- where messages go ----------

  /** Retry queues of different bases or indices never share a name. */
  lemma RetryQueueNamesEqualIff(a: string, i: int, b: string, j: int)
    ensures RetryQueueName(a, i) == RetryQueueName(b, j) <==> a == b && i == j
  {
    if RetryQueueName(a, i) == RetryQueueName(b, j) {
      ItoaHasNoDot(i);
      ItoaHasNoDot(j);
      assert RetryQueueName(a, i) == (a + ".retry") + "." + Itoa(i);
      assert RetryQueueName(b, j) == (b + ".retry") + "." + Itoa(j);
      SplitLast(a + ".retry", Itoa(i), b + ".retry", Itoa(j), '.');
      assert a == (a + ".retry")[..|a + ".retry"| - 6] == (b + ".retry")[..|b + ".retry"| - 6] == b;
      ItoaInjective(i, j);
    }
  }

  lemma {:induction false} DecimalHasNoDot(n: nat)
    ensures '.' !in Decimal(n)
  {
    if n >= 10 { DecimalHasNoDot(n / 10); }
    assert Digit(n % 10) != '.' by { assert n % 10 in {0, 1, 2, 3, 4, 5, 6, 7, 8, 9}; }
  }

  lemma ItoaHasNoDot(n: int)
    ensures '.' !in Itoa(n)
  {
    DecimalHasNoDot(if n < 0 then -n else n);
  }

  /** Distinct queue names and routing keys, and no queue that is named like one of the retry queues. */
  ghost predicate Distinct(cfg: RabbitConfig) {
    && cfg.exchange != ""
    && cfg.uploadQueue != cfg.deleteQueue && cfg.uploadDlq != cfg.deleteDlq
    && cfg.uploadQueue != cfg.uploadDlq && cfg.uploadQueue != cfg.deleteDlq
    && cfg.deleteQueue != cfg.uploadDlq && cfg.deleteQueue != cfg.deleteDlq
    && cfg.uploadKey != cfg.deleteKey && cfg.uploadDlqKey != cfg.deleteDlqKey
    && cfg.uploadKey != cfg.uploadDlqKey && cfg.uploadKey != cfg.deleteDlqKey
    && cfg.deleteKey != cfg.uploadDlqKey && cfg.deleteKey != cfg.deleteDlqKey
    && (forall op: Op, i ::
      RetryQueueName(cfg.Main(op), i) !in {cfg.uploadQueue, cfg.deleteQueue, cfg.uploadDlq, cfg.deleteDlq})
  }

  /** The exchange alone. */
  function Named(cfg: RabbitConfig): Layout {
    NOTHING.(exchanges := {cfg.exchange})
  }

  /** Retry queues change no binding, and of the queues only those of positive delays. */
  lemma {:induction false} RetryQueuesAt(l: Layout, base: string, key: string, delays: seq<int>, n: nat, q: string)
    requires n <= |delays|
    ensures WithRetryQueues(l, base, key, delays, n).bindings == l.bindings
    ensures WithRetryQueues(l, base, key, delays, n).exchanges == l.exchanges
    ensures var queues := WithRetryQueues(l, base, key, delays, n).queues;
      && (forall i | 0 <= i < n && q == RetryQueueName(base, i) && delays[i] > 0 ::
        q in queues && queues[q] == Expiring(delays[i], key))
      && ((forall i | 0 <= i < n && q == RetryQueueName(base, i) :: delays[i] <= 0)
          ==> (q in queues <==> q in l.queues) && (q in l.queues ==> queues[q] == l.queues[q]))
  {
    hide RetryQueueName;
    if n == 0 {
    } else {
      RetryQueuesAt(l, base, key, delays, n - 1, q);
      forall i | 0 <= i < n && q == RetryQueueName(base, i) && q == RetryQueueName(base, n - 1)
        ensures i == n - 1
      {
        RetryQueueNamesEqualIff(base, i, base, n - 1);
      }
    }
  }

  /** The layout's bindings: each routing key leads to its one queue. */
  lemma KeysRoute(cfg: RabbitConfig, op: Op)
    requires Distinct(cfg)
    ensures Route(Built(NOTHING, cfg), cfg.exchange, cfg.MainKey(op)) == [cfg.Main(op)]
    ensures Route(Built(NOTHING, cfg), cfg.exchange, cfg.DlqKey(op)) == [cfg.Dlq(op)]
  {
    hide RetryQueueName;
    assert NOTHING.exchanges + {cfg.exchange} == {cfg.exchange};
    var main := WithBoundQueue(WithBoundQueue(Named(cfg), cfg.uploadQueue, cfg.uploadKey), cfg.deleteQueue,
      cfg.deleteKey);
    RetryQueuesAt(main, cfg.uploadQueue, cfg.uploadKey, cfg.uploadDelays, |cfg.uploadDelays|, "");
    var up := WithRetryQueues(main, cfg.uploadQueue, cfg.uploadKey, cfg.uploadDelays, |cfg.uploadDelays|);
    RetryQueuesAt(up, cfg.deleteQueue, cfg.deleteKey, cfg.deleteDelays, |cfg.deleteDelays|, "");
    hide WithRetryQueues;
  }

  lemma BoundQueueAt(l: Layout, queue: string, key: string, q: string)
    ensures var queues := WithBoundQueue(l, queue, key).queues;
      if q == queue then q in queues && queues[q] == Plain
      else (q in queues <==> q in l.queues) && (q in l.queues ==> queues[q] == l.queues[q])
  {
  }

  /** The layout's main queues and dead-letter queues are plain: they have no dead-letter exchange of their own. */
  lemma PlainQueues(cfg: RabbitConfig, op: Op, q: string)
    requires Distinct(cfg)
    requires q == cfg.Main(op) || q == cfg.Dlq(op)
    ensures q in Built(NOTHING, cfg).queues && Built(NOTHING, cfg).queues[q] == Plain
  {
    assert NOTHING.exchanges + {cfg.exchange} == {cfg.exchange};
    var main := WithBoundQueue(WithBoundQueue(Named(cfg), cfg.uploadQueue, cfg.uploadKey), cfg.deleteQueue,
      cfg.deleteKey);
    var up := WithRetryQueues(main, cfg.uploadQueue, cfg.uploadKey, cfg.uploadDelays, |cfg.uploadDelays|);
    var down := WithRetryQueues(up, cfg.deleteQueue, cfg.deleteKey, cfg.deleteDelays, |cfg.deleteDelays|);
    BoundQueueAt(Named(cfg), cfg.uploadQueue, cfg.uploadKey, q);
    BoundQueueAt(WithBoundQueue(Named(cfg), cfg.uploadQueue, cfg.uploadKey), cfg.deleteQueue, cfg.deleteKey, q);
    hide RetryQueueName, WithBoundQueue, WithRetryQueues;
    NotARetryQueue(cfg, q);
    RetryQueuesAt(main, cfg.uploadQueue, cfg.uploadKey, cfg.uploadDelays, |cfg.uploadDelays|, q);
    RetryQueuesAt(up, cfg.deleteQueue, cfg.deleteKey, cfg.deleteDelays, |cfg.deleteDelays|, q);
    BoundQueueAt(down, cfg.uploadDlq, cfg.uploadDlqKey, q);
    BoundQueueAt(WithBoundQueue(down, cfg.uploadDlq, cfg.uploadDlqKey), cfg.deleteDlq, cfg.deleteDlqKey, q);
  }

  lemma NotARetryQueue(cfg: RabbitConfig, q: string)
    requires Distinct(cfg)
    requires q in {cfg.uploadQueue, cfg.deleteQueue, cfg.uploadDlq, cfg.deleteDlq}
    ensures forall i :: q != RetryQueueName(cfg.uploadQueue, i)
    ensures forall i :: q != RetryQueueName(cfg.deleteQueue, i)
  {
    hide RetryQueueName;
    forall i
      ensures q != RetryQueueName(cfg.uploadQueue, i) && q != RetryQueueName(cfg.deleteQueue, i)
    {
      assert cfg.Main(Upload) == cfg.uploadQueue && cfg.Main(Delete) == cfg.deleteQueue;
      assert RetryQueueName(cfg.Main(Upload), i) !in {cfg.uploadQueue, cfg.deleteQueue, cfg.uploadDlq, cfg.deleteDlq};
      assert RetryQueueName(cfg.Main(Delete), i) !in {cfg.uploadQueue, cfg.deleteQueue, cfg.uploadDlq, cfg.deleteDlq};
    }
  }

  /** A retry queue exists exactly when its delay is positive, and then returns its messages to the main queue's key. */
  lemma RetryQueueDeclaredIff(cfg: RabbitConfig, op: Op, i: nat)
    requires Distinct(cfg) && i < |cfg.Delays(op)|
    ensures var q, queues := RetryQueueName(cfg.Main(op), i), Built(NOTHING, cfg).queues;
      && (q in queues <==> cfg.Delays(op)[i] > 0)
      && (q in queues ==> queues[q] == Expiring(cfg.Delays(op)[i], cfg.MainKey(op)))
  {
    var q := RetryQueueName(cfg.Main(op), i);
    OneRetryName(cfg, op, i, q);
    assert q !in {cfg.uploadQueue, cfg.deleteQueue, cfg.uploadDlq, cfg.deleteDlq};
    assert NOTHING.exchanges + {cfg.exchange} == {cfg.exchange};
    var main := WithBoundQueue(WithBoundQueue(Named(cfg), cfg.uploadQueue, cfg.uploadKey), cfg.deleteQueue,
      cfg.deleteKey);
    var up := WithRetryQueues(main, cfg.uploadQueue, cfg.uploadKey, cfg.uploadDelays, |cfg.uploadDelays|);
    var down := WithRetryQueues(up, cfg.deleteQueue, cfg.deleteKey, cfg.deleteDelays, |cfg.deleteDelays|);
    BoundQueueAt(Named(cfg), cfg.uploadQueue, cfg.uploadKey, q);
    BoundQueueAt(WithBoundQueue(Named(cfg), cfg.uploadQueue, cfg.uploadKey), cfg.deleteQueue, cfg.deleteKey, q);
    hide RetryQueueName, WithBoundQueue, WithRetryQueues, Distinct;
    assert q !in main.queues;
    RetryQueuesAt(main, cfg.uploadQueue, cfg.uploadKey, cfg.uploadDelays, |cfg.uploadDelays|, q);
    RetryQueuesAt(up, cfg.deleteQueue, cfg.deleteKey, cfg.deleteDelays, |cfg.deleteDelays|, q);
    BoundQueueAt(down, cfg.uploadDlq, cfg.uploadDlqKey, q);
    BoundQueueAt(WithBoundQueue(down, cfg.uploadDlq, cfg.uploadDlqKey), cfg.deleteDlq, cfg.deleteDlqKey, q);
    assert op == Upload ==> forall j :: q != RetryQueueName(cfg.Main(Delete), j);
    assert op == Delete ==> forall j :: q != RetryQueueName(cfg.Main(Upload), j);
  }

  lemma OneRetryName(cfg: RabbitConfig, op: Op, i: int, q: string)
    requires Distinct(cfg) && q == RetryQueueName(cfg.Main(op), i)
    ensures forall op': Op, j | q == RetryQueueName(cfg.Main(op'), j) :: op' == op && j == i
  {
    forall op': Op, j | q == RetryQueueName(cfg.Main(op'), j)
      ensures op' == op && j == i
    {
      RetryQueueNamesEqualIff(cfg.Main(op), i, cfg.Main(op'), j);
    }
  }
}
