/**
 The lifecycle's queues are the broker's: a forwarded message goes where the worker's publish is routed, with the
 count it carries.
 */
module MailRoutes {
  import opened Keys
  import opened Routing
  import opened Lifecycle
  import Topology
  import opened Retry

  /** The queue a place of the lifecycle stands for. */
  function QueueOf(cfg: Topology.RabbitConfig, op: Topology.Op, place: Place): string {
    match place
    case Main => cfg.Main(op)
    case InFlight => cfg.Main(op)
    case Retry(i) => Topology.RetryQueueName(cfg.Main(op), i)
    case Dlq => cfg.Dlq(op)
  }

  /** The place and count of the copy a failed message is replaced by. */
  function Forwarded(delays: seq<int>, count: nat): (Place, nat)
    requires NextStop(delays, count) != MissingQueue
  {
    match NextStop(delays, count) case DeadLetter => (Dlq, count) case RetryQueue(i) => (Place.Retry(i), count + 1)
  }

  /**
   The publish of a failed delivery, accepted by the broker, reaches exactly the queue of the forwarded copy,
   carrying its count.
   */
  lemma PublishReachesPlace(cfg: Topology.RabbitConfig, op: Topology.Op, d: Delivery, h: Handling)
    requires Topology.Distinct(cfg) && Topology.Fits(cfg)
    requires h.decodes && !h.succeeds && !h.expired && h.accepted
    requires 0 <= RetryCount(d.headers) <= MAX_INT32 - 1
    ensures |SentOnward(cfg, op, d, h)| == 1
    ensures var p, count := SentOnward(cfg, op, d, h)[0], RetryCount(d.headers);
      var reached := Topology.Route(Topology.Built(Topology.NOTHING, cfg), p.exchange, p.key);
      if NextStop(cfg.Delays(op), count) == MissingQueue then reached == []
      else
        reached == [QueueOf(cfg, op, Forwarded(cfg.Delays(op), count).0)]
          && RetryCount(p.headers) == Forwarded(cfg.Delays(op), count).1
  {
    hide Topology.Built, Topology.Distinct, Topology.RetryQueueName, Topology.Route, Traced, RetryCount;
    CounterRoundTrip(cfg, op, d, h);
    HopFollowsNextStop(cfg, op, d);
  }

  /** Both forwards of the lifecycle are that copy. */
  lemma ForwardsAgree(delays: seq<int>, up: UploadMsg, down: DeleteMsg)
    requires NextStop(delays, up.count) != MissingQueue && NextStop(delays, down.count) != MissingQueue
    ensures var x := UploadForward(up, NextStop(delays, up.count));
      (x.place, x.count) == Forwarded(delays, up.count) && x.id == up.id && x.key == up.key
    ensures var x := DeleteForward(down, NextStop(delays, down.count));
      (x.place, x.count) == Forwarded(delays, down.count) && x.id == down.id && x.keys == down.keys
  {
  }

  /** A delivery of an upload message that the lifecycle holds with this count. */
  predicate Carries(d: Delivery, count: nat) {
    RetryCount(d.headers) == count <= MAX_INT32 - 1
  }

  /**
   The step UploadRequeued of the lifecycle is the worker's publish: what a failed upload job sends reaches
   exactly the queue of the copy it adds, with the copy's count, and nothing is reached when the step finds no
   queue.
   */
  lemma UploadReachesPlace(cfg: Topology.RabbitConfig, d: Delivery, h: Handling, msg: UploadMsg)
    requires Topology.Distinct(cfg) && Topology.Fits(cfg)
    requires h.decodes && !h.succeeds && !h.expired && h.accepted && Carries(d, msg.count)
    ensures |SentOnward(cfg, Topology.Upload, d, h)| == 1
    ensures var p := SentOnward(cfg, Topology.Upload, d, h)[0];
      var reached := Topology.Route(Topology.Built(Topology.NOTHING, cfg), p.exchange, p.key);
      var stop := NextStop(cfg.uploadDelays, msg.count);
      if stop == MissingQueue then reached == []
      else
        var copy := UploadForward(msg, stop);
        reached == [QueueOf(cfg, Topology.Upload, copy.place)] && RetryCount(p.headers) == copy.count
          && copy.id == msg.id && copy.key == msg.key
  {
    hide Topology.Built, Topology.Distinct, Topology.RetryQueueName, Topology.Route, RetryCount, SentOnward, QueueOf;
    PublishReachesPlace(cfg, Topology.Upload, d, h);
    if NextStop(cfg.uploadDelays, msg.count) != MissingQueue {
      ForwardsAgree(cfg.uploadDelays, msg, DeleteMsg(msg.id, {}, msg.count, Main));
    }
  }

  /** And the step DeleteForwarded is the publish of a failed cleanup job. */
  lemma DeleteReachesPlace(cfg: Topology.RabbitConfig, d: Delivery, h: Handling, msg: DeleteMsg)
    requires Topology.Distinct(cfg) && Topology.Fits(cfg)
    requires h.decodes && !h.succeeds && !h.expired && h.accepted && Carries(d, msg.count)
    ensures |SentOnward(cfg, Topology.Delete, d, h)| == 1
    ensures var p := SentOnward(cfg, Topology.Delete, d, h)[0];
      var reached := Topology.Route(Topology.Built(Topology.NOTHING, cfg), p.exchange, p.key);
      var stop := NextStop(cfg.deleteDelays, msg.count);
      if stop == MissingQueue then reached == []
      else
        var copy := DeleteForward(msg, stop);
        reached == [QueueOf(cfg, Topology.Delete, copy.place)] && RetryCount(p.headers) == copy.count
          && copy.id == msg.id && copy.keys == msg.keys
  {
    hide Topology.Built, Topology.Distinct, Topology.RetryQueueName, Topology.Route, RetryCount, SentOnward, QueueOf;
    PublishReachesPlace(cfg, Topology.Delete, d, h);
    if NextStop(cfg.deleteDelays, msg.count) != MissingQueue {
      ForwardsAgree(cfg.deleteDelays, UploadMsg(msg.id, PlaceholderOriginal(""), msg.count, Main), msg);
    }
  }

  /** What expires in a declared retry queue returns to the main queue, as in the lifecycle. */
  lemma ExpiryReturnsToMain(cfg: Topology.RabbitConfig, op: Topology.Op, i: nat)
    requires Topology.Distinct(cfg) && i < |cfg.Delays(op)| && cfg.Delays(op)[i] > 0
    ensures var l, q := Topology.Built(Topology.NOTHING, cfg), QueueOf(cfg, op, Place.Retry(i));
      q in l.queues && l.queues[q].Expiring?
        && Topology.Route(l, cfg.exchange, l.queues[q].returnKey) == [QueueOf(cfg, op, Main)]
  {
    hide Topology.Built, Topology.Distinct, Topology.RetryQueueName, Topology.Route;
    Topology.RetryQueueDeclaredIff(cfg, op, i);
    Topology.KeysRoute(cfg, op);
  }
}
