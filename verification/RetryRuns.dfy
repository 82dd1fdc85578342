/**
 The bounded-retry protocol as a whole: publisher, topology, consumers and the onward publishes of failed messages,
 over any run with any failures, redeliveries included.

 A message is a bag of copies. Each copy is on a queue, held by a consumer, or published onwards and still to be
 acknowledged. The fates that end, multiply or lose a message are kept in a log no step reads.
 */
module RetryRuns {
  import opened Wrappers
  import opened Routing
  import opened Topology
  import opened Retry

  type Uid = nat

  datatype Stage = Queued | Held | Forwarded

  /** A copy with its history: retry queues entered, milliseconds waited in them, deliveries, redeliveries. */
  datatype Copy = Copy(
    uid: Uid, op: Op, decodes: bool, headers: Option<Table>,
    queue: string, stage: Stage,
    visits: seq<string>, waited: int, handled: nat, redelivered: nat)

  datatype Fate =
    | Published(uid: Uid)
    | Duplicated(uid: Uid)  // redelivered after it had been published onwards
    | Finished(uid: Uid)    // the job succeeded
    | Discarded(uid: Uid)   // the body is no JSON
    | Lost(uid: Uid)        // the onward publish failed, so the delivery was rejected for good
    | Unroutable(uid: Uid)  // published where no queue is bound

  datatype Sys = Sys(copies: seq<Copy>, log: multiset<Fate>)

  datatype Move =
    | Deliver
    | Handle(succeeds: bool, sent: bool, trace: Trace)
    | Settle               // the acknowledgement of a copy already published onwards
    | Expire(trace: Trace) // the broker may add headers of its own when it dead-letters
    | Crash                // the consumer is gone: the broker requeues what it had not settled

  datatype Event = Publish(uid: Uid, op: Op, decodes: bool, trace: Trace) | Touch(i: nat, move: Move)

  // ---------- steps ----------

  /** Which handler consumes a queue. */
  function Consumer(cfg: RabbitConfig, queue: string): Option<Op> {
    if queue == cfg.uploadQueue then Some(Upload) else if queue == cfg.deleteQueue then Some(Delete) else None
  }

  function Placed(l: Layout, c: Copy, queue: string): Copy {
    c.(queue := queue, stage := Queued,
       visits := if queue in l.queues && l.queues[queue].Expiring? then c.visits + [queue] else c.visits)
  }

  /** One copy for every queue a publish is routed to. */
  function Arrivals(l: Layout, c: Copy, queues: seq<string>): seq<Copy> {
    if queues == [] then [] else [Placed(l, c, queues[0])] + Arrivals(l, c, queues[1..])
  }

  datatype Effect = Disabled | Effect(copies: seq<Copy>, fates: multiset<Fate>)

  /** A publish under a routing key: the copies that arrive, or the fate of one nobody is bound to receive. */
  function Routed(l: Layout, exchange: string, key: string, c: Copy, kept: seq<Copy>): Effect {
    var queues := Route(l, exchange, key);
    Effect(kept + Arrivals(l, c, queues), if queues == [] then multiset{Unroutable(c.uid)} else multiset{})
  }

  function Handled(cfg: RabbitConfig, l: Layout, c: Copy, op: Op, succeeds: bool, sent: bool, trace: Trace): Effect {
    var d := Delivery(0, "", "", c.headers);
    var onward := SentOnward(cfg, op, d, Handling(c.decodes, succeeds, false, sent, trace));
    if !c.decodes then Effect([], multiset{Discarded(c.uid)})
    else if succeeds then Effect([], multiset{Finished(c.uid)})
    else if onward == [] then Effect([], multiset{Lost(c.uid)})
    else Routed(l, onward[0].exchange, onward[0].key, c.(headers := onward[0].headers), [c.(stage := Forwarded)])
  }

  function Moved(cfg: RabbitConfig, l: Layout, c: Copy, move: Move): Effect {
    match move
    case Deliver =>
      if c.stage != Queued || Consumer(cfg, c.queue).None? then Disabled
      else Effect([c.(stage := Held, handled := c.handled + 1)], multiset{})
    case Handle(succeeds, sent, trace) =>
      if c.stage != Held || Consumer(cfg, c.queue).None? then Disabled
      else Handled(cfg, l, c, Consumer(cfg, c.queue).value, succeeds, sent, trace)
    case Settle =>
      if c.stage != Forwarded then Disabled else Effect([], multiset{})
    case Expire(trace) =>
      if c.stage != Queued || c.queue !in l.queues || !l.queues[c.queue].Expiring? then Disabled
      else
        var q := l.queues[c.queue];
        Routed(l, cfg.exchange, q.returnKey, c.(headers := Some(Traced(c.headers, trace)), waited := c.waited + q.ttl),
          [])
    case Crash =>
      if c.stage == Queued then Disabled
      else
        Effect([c.(stage := Queued, redelivered := c.redelivered + 1)], if c.stage == Forwarded
          then multiset{Duplicated(c.uid)} else multiset{})
  }

  function Born(uid: Uid, op: Op, decodes: bool, trace: Trace): Copy {
    Copy(uid, op, decodes, Some(Traced(None, trace)), "", Queued, [], 0, 0, 0)
  }

  /** Publisher.PublishJSON reaching the exchange: no headers but those of tracing. */
  function PublishEffect(cfg: RabbitConfig, l: Layout, e: Event): Effect
    requires e.Publish?
  {
    Routed(l, cfg.exchange, cfg.MainKey(e.op), Born(e.uid, e.op, e.decodes, e.trace), [])
  }

  /** The copy an event touches is replaced by the copies it becomes. */
  function Step(cfg: RabbitConfig, s: Sys, e: Event): Sys {
    var l := Built(NOTHING, cfg);
    match e
    case Publish(uid, _, _, _) =>
      var x := PublishEffect(cfg, l, e);
      if x.Disabled? then s else Sys(s.copies + x.copies, s.log + x.fates + multiset{Published(uid)})
    case Touch(i, move) =>
      if i >= |s.copies| then s
      else
        var x := Moved(cfg, l, s.copies[i], move);
        if x.Disabled? then s else Sys(s.copies[..i] + x.copies + s.copies[i + 1..], s.log + x.fates)
  }

  predicate Enabled(cfg: RabbitConfig, s: Sys, e: Event) {
    e.Publish? || (e.i < |s.copies| && Moved(cfg, Built(NOTHING, cfg), s.copies[e.i], e.move).Effect?)
  }

  function Run(cfg: RabbitConfig, es: seq<Event>): Sys
    decreases |es|
  {
    if es == [] then Sys([], multiset{}) else Step(cfg, Run(cfg, es[..|es| - 1]), es[|es| - 1])
  }

  /** A configuration the broker accepts and the code can count in. */
  ghost predicate Sound(cfg: RabbitConfig) {
    Distinct(cfg) && Fits(cfg) && |cfg.uploadDelays| < MAX_INT32 && |cfg.deleteDelays| < MAX_INT32
  }

  // ---------- where a copy can be, and what it has been through ----------

  function Sum(delays: seq<int>, n: nat): int
    requires n <= |delays|
  {
    if n == 0 then 0 else Sum(delays, n - 1) + delays[n - 1]
  }

  predicate OnMain(cfg: RabbitConfig, c: Copy, n: nat)
    requires n <= |cfg.Delays(c.op)|
  {
    c.queue == cfg.Main(c.op) && c.waited == Sum(cfg.Delays(c.op), n)
    && c.handled == n + c.redelivered + (if c.stage == Queued then 0 else 1)
  }

  predicate OnRetry(cfg: RabbitConfig, c: Copy, n: nat)
    requires n <= |cfg.Delays(c.op)|
  {
    n > 0 && cfg.Delays(c.op)[n - 1] > 0
    && c.queue == RetryQueueName(cfg.Main(c.op), n - 1) && c.stage == Queued
    && c.waited == Sum(cfg.Delays(c.op), n - 1) && c.handled == n + c.redelivered
  }

  predicate OnDlq(cfg: RabbitConfig, c: Copy, n: nat)
    requires n <= |cfg.Delays(c.op)|
  {
    n == |cfg.Delays(c.op)| && c.queue == cfg.Dlq(c.op) && c.stage == Queued
    && c.waited == Sum(cfg.Delays(c.op), n) && c.handled == n + 1 + c.redelivered
  }

  /** The retry queues 0, 1, ..., n - 1, once each and in order. */
  predicate InOrder(cfg: RabbitConfig, op: Op, visits: seq<string>, n: int) {
    |visits| == n && forall i | 0 <= i < |visits| :: visits[i] == RetryQueueName(cfg.Main(op), i)
  }

  /** The header, the place and the history of a copy agree. */
  predicate CopyOk(cfg: RabbitConfig, c: Copy) {
    var n := RetryCount(c.headers);
    && 0 <= n <= |cfg.Delays(c.op)|
    && InOrder(cfg, c.op, c.visits, n)
    && (OnMain(cfg, c, n) || OnRetry(cfg, c, n) || OnDlq(cfg, c, n))
  }

  lemma ArrivesOnce(l: Layout, c: Copy, queue: string)
    ensures Arrivals(l, c, [queue]) == [Placed(l, c, queue)]
    ensures Arrivals(l, c, []) == []
  {
    assert Arrivals(l, c, [queue]) == [Placed(l, c, queue)] + Arrivals(l, c, []);
  }

  lemma ConsumerOf(cfg: RabbitConfig, op: Op)
    requires Distinct(cfg)
    ensures Consumer(cfg, cfg.Main(op)) == Some(op)
    ensures Consumer(cfg, cfg.Dlq(op)) == None
    ensures forall i :: Consumer(cfg, RetryQueueName(cfg.Main(op), i)) == None
  {
    hide RetryQueueName;
  }

  /** Each place's queue tells it from the other two. */
  lemma PlacesDiffer(cfg: RabbitConfig, op: Op)
    requires Distinct(cfg)
    ensures cfg.Main(op) != cfg.Dlq(op)
    ensures forall i ::
      RetryQueueName(cfg.Main(op), i) != cfg.Main(op) && RetryQueueName(cfg.Main(op), i) != cfg.Dlq(op)
  {
    hide RetryQueueName;
  }

  /** A publish that reaches a main queue or a dead-letter queue does so once, and counts as no visit. */
  lemma RoutedPlain(cfg: RabbitConfig, c: Copy, op: Op, kept: seq<Copy>, dead: bool)
    requires Distinct(cfg)
    ensures var l := Built(NOTHING, cfg);
      Routed(l, cfg.exchange, if dead then cfg.DlqKey(op) else cfg.MainKey(op), c, kept)
      == Effect(kept + [c.(queue := if dead then cfg.Dlq(op) else cfg.Main(op), stage := Queued)], multiset{})
  {
    hide Built, Distinct;
    var l := Built(NOTHING, cfg);
    KeysRoute(cfg, op);
    PlainQueues(cfg, op, cfg.Main(op));
    PlainQueues(cfg, op, cfg.Dlq(op));
    ArrivesOnce(l, c, cfg.Main(op));
    ArrivesOnce(l, c, cfg.Dlq(op));
  }

  /** A publish to retry queue n: one copy there, or nothing at all when the queue was never declared. */
  lemma RoutedRetry(cfg: RabbitConfig, c: Copy, op: Op, n: nat, kept: seq<Copy>)
    requires Distinct(cfg) && n < |cfg.Delays(op)|
    ensures var l, q := Built(NOTHING, cfg), RetryQueueName(cfg.Main(op), n);
      Routed(l, "", q, c, kept)
      == if cfg.Delays(op)[n] > 0
        then Effect(kept + [c.(queue := q, stage := Queued, visits := c.visits + [q])], multiset{})
         else Effect(kept, multiset{Unroutable(c.uid)})
  {
    hide Built, Distinct, RetryQueueName;
    var l, q := Built(NOTHING, cfg), RetryQueueName(cfg.Main(op), n);
    RetryQueueDeclaredIff(cfg, op, n);
    ArrivesOnce(l, c, q);
    assert kept + [] == kept;
  }

  ghost predicate AllOk(cfg: RabbitConfig, copies: seq<Copy>) {
    forall i | 0 <= i < |copies| :: CopyOk(cfg, copies[i])
  }

  lemma BornOk(cfg: RabbitConfig, uid: Uid, op: Op, decodes: bool, trace: Trace)
    ensures CopyOk(cfg, Born(uid, op, decodes, trace).(queue := cfg.Main(op)))
  {
    TracedKeepsCount(None, trace);
  }

  /** The copy sent onwards when a job fails: to the next retry queue, or to the dead-letter queue after the last. */
  function Successor(cfg: RabbitConfig, c: Copy, h: Option<Table>): Copy
    requires 0 <= RetryCount(c.headers) <= |cfg.Delays(c.op)|
  {
    var n := RetryCount(c.headers);
    if n == |cfg.Delays(c.op)| then c.(headers := h, queue := cfg.Dlq(c.op), stage := Queued)
    else
      var q := RetryQueueName(cfg.Main(c.op), n);
      c.(headers := h, queue := q, stage := Queued, visits := c.visits + [q])
  }

  /** The retry queue a copy would go to next was never declared. */
  predicate AtMissingQueue(cfg: RabbitConfig, c: Copy) {
    var n := RetryCount(c.headers);
    0 <= n < |cfg.Delays(c.op)| && cfg.Delays(c.op)[n] <= 0
  }

  function CountAfter(cfg: RabbitConfig, c: Copy): int {
    if RetryCount(c.headers) < |cfg.Delays(c.op)| then RetryCount(c.headers) + 1 else RetryCount(c.headers)
  }

  /** The headers republishOrDLQ sends. */
  function OnwardHeaders(cfg: RabbitConfig, c: Copy, trace: Trace): Option<Table> {
    var sent := SentOnward(cfg, c.op, Delivery(0, "", "", c.headers), Handling(true, false, false, true, trace));
    if sent == [] then None else sent[0].headers
  }

  /** What a failed job does with a copy it can send onwards. */
  lemma FailedOnward(cfg: RabbitConfig, c: Copy, trace: Trace)
    requires Sound(cfg) && CopyOk(cfg, c) && c.stage == Held && c.decodes
    ensures RetryCount(OnwardHeaders(cfg, c, trace)) == CountAfter(cfg, c)
    ensures Handled(cfg, Built(NOTHING, cfg), c, c.op, false, true, trace)
         == if AtMissingQueue(cfg, c) then Effect([c.(stage := Forwarded)], multiset{Unroutable(c.uid)})
            else Effect([c.(stage := Forwarded)] + [Successor(cfg, c, OnwardHeaders(cfg, c, trace))], multiset{})
  {
    hide Built, Distinct, RetryQueueName, Routed, Traced, InOrder;
    var n := RetryCount(c.headers);
    var d, h := Delivery(0, "", "", c.headers), Handling(true, false, false, true, trace);
    CounterRoundTrip(cfg, c.op, d, h);
    var p := SentOnward(cfg, c.op, d, h)[0];
    if n == |cfg.Delays(c.op)| {
      RoutedPlain(cfg, c.(headers := p.headers), c.op, [c.(stage := Forwarded)], true);
    } else {
      RoutedRetry(cfg, c.(headers := p.headers), c.op, n, [c.(stage := Forwarded)]);
    }
  }

  /**
   The worker's settlement of a delivery and what becomes of the copy are the same thing: an acknowledgement means
   that its body was no JSON, that its job succeeded, or that it has been published onwards and waits for that
   acknowledgement; a rejection means that the message is lost, and nothing else does.
   */
  lemma SettledAsLogged(cfg: RabbitConfig, c: Copy, op: Op, succeeds: bool, sent: bool, trace: Trace, tag: nat,
                        body: string, id: string)
    requires c.stage == Held && Consumer(cfg, c.queue) == Some(op)
    ensures var a := Delivered(Delivery(tag, body, id, c.headers), Handling(c.decodes, succeeds, false, sent, trace));
      var x := Moved(cfg, Built(NOTHING, cfg), c, Handle(succeeds, sent, trace));
      && x.Effect?
      && (SettlementOf(cfg, op, a) == Ack(tag) <==>
            || (x.copies == [] && x.fates == multiset{Discarded(c.uid)})
            || (x.copies == [] && x.fates == multiset{Finished(c.uid)})
            || (x.copies != [] && x.copies[0] == c.(stage := Forwarded)))
      && (SettlementOf(cfg, op, a) == Nack(tag) <==> x.copies == [] && x.fates == multiset{Lost(c.uid)})
      && (x.fates == multiset{Discarded(c.uid)} <==> !c.decodes)
      && (x.fates == multiset{Finished(c.uid)} <==> c.decodes && succeeds)
      && (x.fates == multiset{Lost(c.uid)}
        <==> (c.decodes && !succeeds && (!sent || CounterOverflows(cfg.Delays(op), RetryCount(c.headers)))))
  {
    hide Built, RetryCount, RetryQueueName, Traced, Route, NextHop, SentOnward, Arrivals, CounterOverflows;
    var d := Delivery(tag, body, id, c.headers);
    SentOnwardIff(cfg, op, d, Handling(c.decodes, succeeds, false, sent, trace));
    SentOnwardIff(cfg, op, Delivery(0, "", "", c.headers), Handling(c.decodes, succeeds, false, sent, trace));
    FatesDiffer(c.uid);
  }

  lemma FatesDiffer(u: Uid)
    ensures multiset{Discarded(u)} != multiset{Finished(u)} && multiset{Finished(u)} != multiset{Lost(u)}
    ensures multiset{Discarded(u)} != multiset{Lost(u)} && multiset{Lost(u)} != multiset{Unroutable(u)}
    ensures multiset{Discarded(u)} != multiset{Unroutable(u)} && multiset{Finished(u)} != multiset{Unroutable(u)}
    ensures multiset{Lost(u)} != multiset{} && multiset{Finished(u)} != multiset{}
      && multiset{Discarded(u)} != multiset{}
  {
    assert Discarded(u) in multiset{Discarded(u)} && Finished(u) in multiset{Finished(u)}
      && Lost(u) in multiset{Lost(u)} && Unroutable(u) in multiset{Unroutable(u)};
    assert Finished(u) !in multiset{Discarded(u)} && Lost(u) !in multiset{Discarded(u)}
      && Unroutable(u) !in multiset{Discarded(u)};
    assert Lost(u) !in multiset{Finished(u)} && Unroutable(u) !in multiset{Finished(u)};
    assert Unroutable(u) !in multiset{Lost(u)};
  }

  /** Only copies on a main queue are ever held. */
  lemma HeldOnMain(cfg: RabbitConfig, c: Copy)
    requires CopyOk(cfg, c) && c.stage != Queued
    ensures OnMain(cfg, c, RetryCount(c.headers)) && c.queue == cfg.Main(c.op)
  {
  }

  lemma SuccessorOk(cfg: RabbitConfig, c: Copy, h: Option<Table>)
    requires CopyOk(cfg, c) && c.stage == Held && !AtMissingQueue(cfg, c)
    requires RetryCount(h) == CountAfter(cfg, c)
    ensures CopyOk(cfg, Successor(cfg, c, h)) && CopyOk(cfg, c.(stage := Forwarded))
  {
    hide RetryQueueName, RetryCount;
    HeldOnMain(cfg, c);
  }

  lemma HandleKeeps(cfg: RabbitConfig, c: Copy, succeeds: bool, sent: bool, trace: Trace)
    requires Sound(cfg) && CopyOk(cfg, c)
    ensures var x := Moved(cfg, Built(NOTHING, cfg), c, Handle(succeeds, sent, trace));
      x.Effect? ==> AllOk(cfg, x.copies)
  {
    hide Built, Routed, CopyOk, Successor, Handled;
    if c.stage == Held {
      HeldOnMain(cfg, c);
      ConsumerOf(cfg, c.op);
      if c.decodes && !succeeds && sent {
        FailedOnward(cfg, c, trace);
        if AtMissingQueue(cfg, c) {
          ForwardedOk(cfg, c);
        } else {
          SuccessorOk(cfg, c, OnwardHeaders(cfg, c, trace));
        }
      } else {
        NothingLeft(cfg, c, succeeds, sent, trace);
      }
    }
  }

  lemma ForwardedOk(cfg: RabbitConfig, c: Copy)
    requires CopyOk(cfg, c) && c.stage == Held
    ensures CopyOk(cfg, c.(stage := Forwarded))
  {
  }

  /** A copy that is not sent onwards is gone when its handling ends. */
  lemma NothingLeft(cfg: RabbitConfig, c: Copy, succeeds: bool, sent: bool, trace: Trace)
    requires !c.decodes || succeeds || !sent
    ensures Handled(cfg, Built(NOTHING, cfg), c, c.op, succeeds, sent, trace)
         == Effect([],
           multiset{if !c.decodes then Discarded(c.uid) else if succeeds then Finished(c.uid) else Lost(c.uid)})
  {
    hide Built, Routed, NextHop;
  }

  /** The copy an expiry puts back on the main queue. */
  function Returned(cfg: RabbitConfig, c: Copy, ttl: int, trace: Trace): Copy {
    c.(headers := Some(Traced(c.headers, trace)), waited := c.waited + ttl, queue := cfg.Main(c.op), stage := Queued)
  }

  lemma PlainNeverExpires(cfg: RabbitConfig, c: Copy, trace: Trace)
    requires Distinct(cfg) && (c.queue == cfg.Main(c.op) || c.queue == cfg.Dlq(c.op))
    ensures Moved(cfg, Built(NOTHING, cfg), c, Expire(trace)) == Disabled
  {
    hide Built, Distinct, Traced, Routed, Handled, Consumer;
    PlainQueues(cfg, c.op, c.queue);
  }

  lemma RetryExpires(cfg: RabbitConfig, c: Copy, n: nat, trace: Trace)
    requires Distinct(cfg) && n < |cfg.Delays(c.op)| && cfg.Delays(c.op)[n] > 0
    requires c.queue == RetryQueueName(cfg.Main(c.op), n) && c.stage == Queued
    ensures Moved(cfg, Built(NOTHING, cfg), c, Expire(trace))
      == Effect([] + [Returned(cfg, c, cfg.Delays(c.op)[n], trace)], multiset{})
  {
    hide Built, Distinct, Traced, Routed, Handled, Consumer, RetryQueueName;
    RetryQueueDeclaredIff(cfg, c.op, n);
    RoutedPlain(cfg, c.(headers := Some(Traced(c.headers, trace)), waited := c.waited + cfg.Delays(c.op)[n]), c.op, [],
      false);
  }

  /** Only copies on a retry queue expire, and they return to their own main queue. */
  lemma ExpireReturns(cfg: RabbitConfig, c: Copy, trace: Trace)
    requires Sound(cfg) && CopyOk(cfg, c)
    ensures var n := RetryCount(c.headers);
      Moved(cfg, Built(NOTHING, cfg), c, Expire(trace))
      == if OnRetry(cfg, c, n) then Effect([] + [Returned(cfg, c, cfg.Delays(c.op)[n - 1], trace)], multiset{})
        else Disabled
  {
    hide Built, Distinct, Moved, RetryQueueName, InOrder, Sum, Returned, RetryCount;
    if OnRetry(cfg, c, RetryCount(c.headers)) {
      RetryExpires(cfg, c, RetryCount(c.headers) - 1, trace);
    } else {
      PlainNeverExpires(cfg, c, trace);
    }
  }

  lemma ReturnedOk(cfg: RabbitConfig, c: Copy, trace: Trace)
    requires CopyOk(cfg, c) && OnRetry(cfg, c, RetryCount(c.headers))
    ensures CopyOk(cfg, Returned(cfg, c, cfg.Delays(c.op)[RetryCount(c.headers) - 1], trace))
  {
    hide RetryQueueName, Traced, RetryCount;
    TracedKeepsCount(c.headers, trace);
  }

  lemma ExpireKeeps(cfg: RabbitConfig, c: Copy, trace: Trace)
    requires Sound(cfg) && CopyOk(cfg, c)
    ensures var x := Moved(cfg, Built(NOTHING, cfg), c, Expire(trace)); x.Effect? ==> AllOk(cfg, x.copies)
  {
    hide Built, Moved, CopyOk, OnRetry, Returned, Sound;
    ExpireReturns(cfg, c, trace);
    RetryCountOk(cfg, c);
    var n := RetryCount(c.headers);
    if OnRetry(cfg, c, n) {
      ReturnedOk(cfg, c, trace);
      assert ([] + [Returned(cfg, c, cfg.Delays(c.op)[n - 1], trace)])[0]
        == Returned(cfg, c, cfg.Delays(c.op)[n - 1], trace);
    }
  }

  lemma RetryCountOk(cfg: RabbitConfig, c: Copy)
    requires CopyOk(cfg, c)
    ensures 0 <= RetryCount(c.headers) <= |cfg.Delays(c.op)|
    ensures OnRetry(cfg, c, RetryCount(c.headers)) ==> RetryCount(c.headers) > 0
  {
  }

  lemma MoveKeeps(cfg: RabbitConfig, c: Copy, move: Move)
    requires Sound(cfg) && CopyOk(cfg, c)
    ensures var x := Moved(cfg, Built(NOTHING, cfg), c, move); x.Effect? ==> AllOk(cfg, x.copies)
  {
    ConsumerOf(cfg, c.op);
    hide Built, Distinct, RetryQueueName, Routed;
    match move
    case Handle(succeeds, sent, trace) => HandleKeeps(cfg, c, succeeds, sent, trace);
    case Expire(trace) => ExpireKeeps(cfg, c, trace);
    case _ =>
  }

  /** In every run every copy is on the right queue of its own kind, with the header and the history that fit. */
  lemma {:induction false} RunKeepsCopies(cfg: RabbitConfig, es: seq<Event>)
    requires Sound(cfg)
    ensures AllOk(cfg, Run(cfg, es).copies)
    decreases |es|
  {
    hide Built, Moved, Routed, CopyOk, Sound;
    if es == [] {
    } else {
      RunKeepsCopies(cfg, es[..|es| - 1]);
      var s := Run(cfg, es[..|es| - 1]);
      match es[|es| - 1]
      case Publish(uid, op, decodes, trace) =>
        PublishArrives(cfg, uid, op, decodes, trace);
      case Touch(i, move) =>
        if i < |s.copies| { MoveKeeps(cfg, s.copies[i], move); }
    }
  }

  lemma PublishArrives(cfg: RabbitConfig, uid: Uid, op: Op, decodes: bool, trace: Trace)
    requires Sound(cfg)
    ensures PublishEffect(cfg, Built(NOTHING, cfg), Publish(uid, op, decodes, trace))
         == Effect([] + [Born(uid, op, decodes, trace).(queue := cfg.Main(op))], multiset{})
    ensures CopyOk(cfg, Born(uid, op, decodes, trace).(queue := cfg.Main(op)))
  {
    hide Built, Routed, CopyOk, Distinct;
    RoutedPlain(cfg, Born(uid, op, decodes, trace), op, [], false);
    BornOk(cfg, uid, op, decodes, trace);
  }
}
