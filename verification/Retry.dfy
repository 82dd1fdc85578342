/** The worker's handling of one delivery: the job, the onward publish of a failed message, the acknowledgement. */
module Retry {
  import opened Wrappers
  import opened Routing
  import opened Topology

  /** A header value as an AMQP table may carry it. */
  datatype HeaderValue =
    | Int(n: int) | Int32(n: int) | Int64(n: int) | Float32(x: real) | Float64(x: real) | Other(text: string)

  type Table = map<string, HeaderValue>

  const COUNTER := "x-retry-count"

  /** Go's conversion of a float to an integer drops the fraction. */
  function Truncate(x: real): int {
    if x >= 0.0 then x.Floor else -((-x).Floor)
  }

  /** retryCountFromHeaders; None is the nil table. */
  function RetryCount(h: Option<Table>): int {
    if h.None? || COUNTER !in h.value then 0
    else match h.value[COUNTER]
      case Int(n) => n
      case Int32(n) => n
      case Int64(n) => n
      case Float32(x) => Truncate(x)
      case Float64(x) => Truncate(x)
      case Other(_) => 0
  }

  /** The entries tracing adds to a message: those of its own context propagation, never the counter. */
  type Trace = t: Table | COUNTER !in t witness map[]

  function Traced(h: Option<Table>, trace: Trace): Table {
    (if h.Some? then h.value else map[]) + trace
  }

  datatype Delivery = Delivery(tag: nat, body: string, id: string, headers: Option<Table>)

  datatype Publication = Publication(exchange: string, key: string, body: string, id: string, headers: Option<Table>)

  /** republishOrDLQ's decision: where a failed message goes and with which headers; None when the counter overflows. */
  function NextHop(cfg: RabbitConfig, op: Op, d: Delivery): Option<Publication> {
    var rc := RetryCount(d.headers);
    if |cfg.Delays(op)| == 0
      || rc >= |cfg.Delays(op)| then Some(Publication(cfg.exchange, cfg.DlqKey(op), d.body, d.id, d.headers))
    else if rc + 1 < 0 || rc + 1 > MAX_INT32 then None
    else
      Some(Publication("", RetryQueueName(cfg.Main(op), rc), d.body, d.id,
        Some(Traced(d.headers, map[])[COUNTER := Int32(rc + 1)])))
  }

  /** How one delivery goes: the body's JSON, the job, the handler's context at the publish, the channel. */
  datatype Handling = Handling(decodes: bool, succeeds: bool, expired: bool, accepted: bool, trace: Trace)

  /** What a handled delivery sends onwards. */
  function SentOnward(cfg: RabbitConfig, op: Op, d: Delivery, h: Handling): seq<Publication> {
    if !h.decodes || h.succeeds || h.expired || !h.accepted then []
    else match NextHop(cfg, op, d)
      case None => []
      case Some(p) => [p.(headers := Some(Traced(p.headers, h.trace)))]
  }

  /** A delivery is acknowledged when there is nothing to do, when it is done, and when it has been sent onwards. */
  predicate Acked(cfg: RabbitConfig, op: Op, d: Delivery, h: Handling) {
    !h.decodes || h.succeeds || SentOnward(cfg, op, d, h) != []
  }

  /** The one reason of its own a failed message has not to be sent on: the raised counter is no count of 32 bits. */
  predicate CounterOverflows(delays: seq<int>, count: int) {
    count < |delays| && !(-1 <= count < MAX_INT32) && delays != []
  }

  lemma SentOnwardIff(cfg: RabbitConfig, op: Op, d: Delivery, h: Handling)
    ensures SentOnward(cfg, op, d, h) != []
      <==> (h.decodes && !h.succeeds && !h.expired && h.accepted
        && !CounterOverflows(cfg.Delays(op), RetryCount(d.headers)))
  {
    hide RetryCount, RetryQueueName, Traced;
  }

  class WorkerChannel {
    var sent: seq<Publication>

    constructor ()
      ensures sent == []
    {
      sent := [];
    }

    /** PublishWithContext: refused when the context has expired; otherwise traced and handed to the channel. */
    method PublishWithContext(p: Publication, expired: bool, accepted: bool, trace: Trace) returns (ok: bool)
      modifies this
      ensures ok <==> !expired && accepted
      ensures sent == old(sent) + (if ok then [p.(headers := Some(Traced(p.headers, trace)))] else [])
    {
      if expired { return false; }
      var headers := if p.headers.Some? then p.headers.value else map[];
      headers := headers + trace;
      if accepted { sent := sent + [p.(headers := Some(headers))]; }
      return accepted;
    }
  }

  datatype Arrival = Delivered(d: Delivery, handling: Handling) | ContextDone | ChannelClosed

  /** An acknowledgement, or a rejection without requeueing. */
  datatype Settlement = Ack(tag: nat) | Nack(tag: nat)

  datatype LoopEnd = Stopped | Disconnected | StillWaiting

  function SettlementOf(cfg: RabbitConfig, op: Op, a: Arrival): Settlement
    requires a.Delivered?
  {
    if Acked(cfg, op, a.d, a.handling) then Ack(a.d.tag) else Nack(a.d.tag)
  }

  /** How many deliveries precede the first end of the loop. */
  function Taken(arrivals: seq<Arrival>): (n: nat)
    ensures n <= |arrivals|
    ensures forall i | 0 <= i < n :: arrivals[i].Delivered?
    ensures n < |arrivals| ==> !arrivals[n].Delivered?
  {
    if arrivals == [] || !arrivals[0].Delivered? then 0 else 1 + Taken(arrivals[1..])
  }

  class Processor {
    const cfg: RabbitConfig

    constructor (cfg: RabbitConfig)
      ensures this.cfg == cfg
    {
      this.cfg := cfg;
    }

    /** republishOrDLQ: the copied headers carry the raised counter; the delivery's own are left alone. */
    method RepublishOrDlq(ch: WorkerChannel, d: Delivery, op: Op, h: Handling) returns (ok: bool)
      requires h.decodes && !h.succeeds
      modifies ch
      ensures ok <==> SentOnward(cfg, op, d, h) != []
      ensures ch.sent == old(ch.sent) + SentOnward(cfg, op, d, h)
    {
      var delays := cfg.deleteDelays;
      var base := cfg.deleteQueue;
      var dlqKey := cfg.deleteDlqKey;
      if op == Upload {
        delays := cfg.uploadDelays;
        base := cfg.uploadQueue;
        dlqKey := cfg.uploadDlqKey;
      }
      var rc := RetryCount(d.headers);
      if |delays| == 0 || rc >= |delays| {
        ok := ch.PublishWithContext(Publication(cfg.exchange, dlqKey, d.body, d.id, d.headers), h.expired, h.accepted,
          h.trace);
        return;
      }
      var name := RetryQueueName(base, rc);
      var n := rc + 1;
      if n < 0 || n > MAX_INT32 { return false; }
      var headers: Table := if d.headers.Some? then d.headers.value else map[];
      headers := headers[COUNTER := Int32(n)];
      assert Traced(d.headers, map[]) == if d.headers.Some? then d.headers.value else map[];
      ok := ch.PublishWithContext(Publication("", name, d.body, d.id, Some(headers)), h.expired, h.accepted, h.trace);
    }

    /** HandleUploadDelivery and HandleDeleteDelivery. */
    method HandleDelivery(ch: WorkerChannel, d: Delivery, op: Op, h: Handling) returns (ok: bool)
      modifies ch
      ensures ok <==> Acked(cfg, op, d, h)
      ensures ch.sent == old(ch.sent) + SentOnward(cfg, op, d, h)
    {
      if !h.decodes { return true; }
      if h.succeeds { return true; }
      ok := RepublishOrDlq(ch, d, op, h);
    }

    /**
     consumeLoop: every delivery taken is settled exactly once, in order, and after its handling: acknowledged when
     there was nothing to do, the job succeeded or its own publish was sent, else rejected for good.
     */
    method ConsumeLoop(ch: WorkerChannel, op: Op, arrivals: seq<Arrival>)
                       returns (settled: seq<Settlement>, end: LoopEnd)
      modifies ch
      ensures |settled| == Taken(arrivals)
      ensures forall i | 0 <= i < Taken(arrivals) ::
        settled[i] == SettlementOf(cfg, op, arrivals[i])
      ensures forall i | 0 <= i < Taken(arrivals) :: var Delivered(d, h) := arrivals[i];
        settled[i] == if !h.decodes || h.succeeds || AddedBy(cfg, op, arrivals, i) > 0 then Ack(d.tag) else Nack(d.tag)
      ensures ch.sent == old(ch.sent) + AllSent(cfg, op, arrivals, Taken(arrivals))
      ensures end == if Taken(arrivals) == |arrivals| then StillWaiting
        else if arrivals[Taken(arrivals)].ContextDone? then Stopped else Disconnected
    {
      hide Acked, SentOnward, Taken, SettlementOf, AddedBy;
      settled := [];
      var i := 0;
      while i < |arrivals|
        invariant i <= |arrivals| && |settled| == i
        invariant forall j | 0 <= j < i :: arrivals[j].Delivered?
        invariant forall j | 0 <= j < i :: settled[j] == SettlementOf(cfg, op, arrivals[j])
        invariant forall j | 0 <= j < i :: var Delivered(d, h) := arrivals[j];
          settled[j] == if !h.decodes || h.succeeds || AddedBy(cfg, op, arrivals, j) > 0 then Ack(d.tag)
            else Nack(d.tag)
        invariant ch.sent == old(ch.sent) + AllSent(cfg, op, arrivals, i)
      {
        TakenAfter(arrivals, i);
        match arrivals[i]
        case ContextDone => return settled, Stopped;
        case ChannelClosed => return settled, Disconnected;
        case Delivered(d, handling) =>
          var ok := HandleDelivery(ch, d, op, handling);
          SettlementIff(cfg, op, arrivals, i);
          settled := settled + [if ok then Ack(d.tag) else Nack(d.tag)];
          i := i + 1;
      }
      TakenAll(arrivals);
      return settled, StillWaiting;
    }
  }

  /** What the first n deliveries sent onwards. */
  function AllSent(cfg: RabbitConfig, op: Op, arrivals: seq<Arrival>, n: nat): seq<Publication>
    requires n <= |arrivals|
    requires forall i | 0 <= i < n :: arrivals[i].Delivered?
  {
    if n == 0 then []
      else AllSent(cfg, op, arrivals, n - 1) + SentOnward(cfg, op, arrivals[n - 1].d, arrivals[n - 1].handling)
  }

  /** How many publications the handling of a delivery adds to those of the deliveries before it. */
  function AddedBy(cfg: RabbitConfig, op: Op, arrivals: seq<Arrival>, i: nat): int
    requires i < |arrivals|
    requires forall j | 0 <= j <= i :: arrivals[j].Delivered?
  {
    |AllSent(cfg, op, arrivals, i + 1)| - |AllSent(cfg, op, arrivals, i)|
  }

  /**
   A delivery is acknowledged exactly when its body is no JSON, its job succeeds, or its handling sends it onwards; in
   every other case it is rejected.
   */
  lemma SettlementIff(cfg: RabbitConfig, op: Op, arrivals: seq<Arrival>, i: nat)
    requires i < |arrivals| && forall j | 0 <= j <= i :: arrivals[j].Delivered?
    ensures var Delivered(d, h) := arrivals[i];
      && SettlementOf(cfg, op, arrivals[i])
        == (if !h.decodes || h.succeeds || AddedBy(cfg, op, arrivals, i) > 0 then Ack(d.tag) else Nack(d.tag))
      && (Acked(cfg, op, d, h) <==> !h.decodes || h.succeeds || AddedBy(cfg, op, arrivals, i) > 0)
      && 0 <= AddedBy(cfg, op, arrivals, i) <= 1
  {
    hide NextHop, RetryCount, Traced;
  }

  lemma {:induction false} TakenAfter(arrivals: seq<Arrival>, i: nat)
    requires i < |arrivals| && forall j | 0 <= j < i :: arrivals[j].Delivered?
    ensures Taken(arrivals) >= i
    ensures !arrivals[i].Delivered? ==> Taken(arrivals) == i
  {
    if i == 0 {
    } else {
      TakenAfter(arrivals[1..], i - 1);
    }
  }

  lemma {:induction false} TakenAll(arrivals: seq<Arrival>)
    requires forall j | 0 <= j < |arrivals| :: arrivals[j].Delivered?
    ensures Taken(arrivals) == |arrivals|
  {
    if arrivals == [] {
    } else {
      TakenAll(arrivals[1..]);
    }
  }

  // ---------- the counter ----------

  /**
   What a table says of the count: an integer of any width its value, a float that value rounded towards zero,
   anything else and nothing at all zero.
   */
  lemma CounterReads(h: Option<Table>)
    ensures h == None ==> RetryCount(h) == 0
    ensures h.Some? && COUNTER !in h.value ==> RetryCount(h) == 0
    ensures h.Some? && COUNTER in h.value ==> var v := h.value[COUNTER];
      && (v.Int? || v.Int32? || v.Int64? ==> RetryCount(h) == v.n)
      && (v.Float32? || v.Float64? ==>
        if v.x >= 0.0 then 0.0 <= v.x - RetryCount(h) as real < 1.0 else 0.0 <= RetryCount(h) as real - v.x < 1.0)
      && (v.Other? ==> RetryCount(h) == 0)
  {
  }

  /** Tracing never touches the counter. */
  lemma TracedKeepsCount(h: Option<Table>, trace: Trace)
    ensures RetryCount(Some(Traced(h, trace))) == RetryCount(h)
  {
    if h.Some? && COUNTER in h.value {
      assert Traced(h, trace)[COUNTER] == h.value[COUNTER];
    }
  }

  /**
   Round trip of the counter: what one handling writes the next one reads, one higher; tracing's headers are those of
   this handling, every other header, the body and the message id arrive as they were, and no header is made up.
   */
  lemma CounterRoundTrip(cfg: RabbitConfig, op: Op, d: Delivery, h: Handling)
    requires !h.succeeds && h.decodes && !h.expired && h.accepted
    requires 0 <= RetryCount(d.headers) <= MAX_INT32 - 1
    ensures |SentOnward(cfg, op, d, h)| == 1
    ensures var p := SentOnward(cfg, op, d, h)[0];
      && p.body == d.body && p.id == d.id && p.headers.Some?
      && RetryCount(p.headers)
        == (if RetryCount(d.headers) < |cfg.Delays(op)| then RetryCount(d.headers) + 1 else RetryCount(d.headers))
      && forall k | d.headers.Some? && k in d.headers.value && k != COUNTER && k !in h.trace ::
           k in p.headers.value && p.headers.value[k] == d.headers.value[k]
    ensures var p := SentOnward(cfg, op, d, h)[0];
      && (forall k | k in h.trace :: k in p.headers.value && p.headers.value[k] == h.trace[k])
      && (forall k | k in p.headers.value :: k == COUNTER || k in h.trace || (d.headers.Some? && k in d.headers.value))
      && (RetryCount(d.headers) < |cfg.Delays(op)| ==>
            COUNTER in p.headers.value && p.headers.value[COUNTER] == Int32(RetryCount(d.headers) + 1))
  {
    var p := NextHop(cfg, op, d).value;
    TracedKeepsCount(p.headers, h.trace);
    if RetryCount(d.headers) < |cfg.Delays(op)| {
      assert p.headers.value[COUNTER] == Int32(RetryCount(d.headers) + 1);
    }
  }

  /** The queue a failed message reaches is the one NextStop names, and none when the topology never declared it. */
  lemma HopFollowsNextStop(cfg: RabbitConfig, op: Op, d: Delivery)
    requires Distinct(cfg) && Fits(cfg)
    requires 0 <= RetryCount(d.headers) <= MAX_INT32 - 1
    ensures NextHop(cfg, op, d).Some?
    ensures var p := NextHop(cfg, op, d).value;
      Route(Built(NOTHING, cfg), p.exchange, p.key)
      == match NextStop(cfg.Delays(op), RetryCount(d.headers))
         case DeadLetter => [cfg.Dlq(op)]
         case RetryQueue(i) => [RetryQueueName(cfg.Main(op), i)]
         case MissingQueue => []
  {
    hide Built, Distinct, RetryQueueName;
    var rc := RetryCount(d.headers);
    if rc >= |cfg.Delays(op)| {
      KeysRoute(cfg, op);
      assert cfg.exchange != "" by { NamedExchange(cfg); }
    } else {
      RetryQueueDeclaredIff(cfg, op, rc);
    }
  }

  lemma NamedExchange(cfg: RabbitConfig)
    requires Distinct(cfg)
    ensures cfg.exchange != ""
  {
  }
}
