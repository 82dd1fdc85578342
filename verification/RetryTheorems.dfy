/** What holds of every run of the retry protocol: itinerary, conservation, termination. */
module RetryTheorems {
  import opened Wrappers
  import opened Routing
  import opened Topology
  import opened Retry
  import opened RetryRuns

  // ---------- reachable states ----------

  /** No consumer goes away, and an onward publish is accepted. */
  predicate Calm(e: Event) {
    e.Touch? ==> e.move != Crash && (e.move.Handle? ==> e.move.sent)
  }

  /** t follows s by one event, a calm one if so asked. */
  ghost predicate Follows(cfg: RabbitConfig, calm: bool, s: Sys, t: Sys) {
    exists e: Event :: (calm ==> Calm(e)) && t == Step(cfg, s, e)
  }

  ghost predicate Chain(cfg: RabbitConfig, calm: bool, ss: seq<Sys>) {
    ss != [] && ss[0] == Sys([], multiset{}) && forall i | 0 <= i < |ss| - 1 :: Follows(cfg, calm, ss[i], ss[i + 1])
  }

  /** s is reached from the empty broker; by calm events only, if so asked. */
  ghost predicate Reachable(cfg: RabbitConfig, calm: bool, s: Sys) {
    exists ss: seq<Sys> :: Chain(cfg, calm, ss) && ss[|ss| - 1] == s
  }

  lemma Cause(cfg: RabbitConfig, calm: bool, s: Sys, t: Sys) returns (e: Event)
    requires Follows(cfg, calm, s, t)
    ensures (calm ==> Calm(e)) && t == Step(cfg, s, e)
  {
    hide Step, Calm;
    e :| (calm ==> Calm(e)) && t == Step(cfg, s, e);
  }

  lemma {:induction false} ChainIsARun(cfg: RabbitConfig, calm: bool, ss: seq<Sys>) returns (es: seq<Event>)
    requires Chain(cfg, calm, ss)
    ensures Run(cfg, es) == ss[|ss| - 1] && (calm ==> Undisturbed(es))
    decreases |ss|
  {
    hide Step, Calm;
    if |ss| == 1 {
      es := [];
    } else {
      var front := ss[..|ss| - 1];
      assert forall i | 0 <= i < |front| :: front[i] == ss[i];
      assert forall i | 0 <= i < |front| - 1 :: Follows(cfg, calm, ss[i], ss[i + 1]);
      var before := ChainIsARun(cfg, calm, front);
      assert Follows(cfg, calm, ss[|ss| - 2], ss[|ss| - 2 + 1]);
      var e := Cause(cfg, calm, ss[|ss| - 2], ss[|ss| - 1]);
      es := before + [e];
      assert es[..|es| - 1] == before;
    }
  }

  lemma RunOf(cfg: RabbitConfig, calm: bool, s: Sys) returns (es: seq<Event>)
    requires Reachable(cfg, calm, s)
    ensures Run(cfg, es) == s && (calm ==> Undisturbed(es))
  {
    hide Run, Undisturbed;
    var ss: seq<Sys> :| Chain(cfg, calm, ss) && ss[|ss| - 1] == s;
    es := ChainIsARun(cfg, calm, ss);
  }

  /** Every run leads to a reachable state, so nothing said of these is said of less than all runs. */
  lemma {:induction false} RunIsAChain(cfg: RabbitConfig, calm: bool, es: seq<Event>) returns (ss: seq<Sys>)
    requires calm ==> Undisturbed(es)
    ensures Chain(cfg, calm, ss) && ss[|ss| - 1] == Run(cfg, es)
    decreases |es|
  {
    hide Step, Calm;
    if es == [] {
      ss := [Sys([], multiset{})];
    } else {
      assert forall e | e in es[..|es| - 1] :: e in es;
      var before := RunIsAChain(cfg, calm, es[..|es| - 1]);
      ss := before + [Run(cfg, es)];
      assert es[|es| - 1] in es;
      assert Follows(cfg, calm, before[|before| - 1], Run(cfg, es));
      assert forall i | 0 <= i < |before| - 1 :: Follows(cfg, calm, before[i], before[i + 1]);
    }
  }

  // ---------- itinerary ----------

  predicate OwnQueue(cfg: RabbitConfig, op: Op, queue: string) {
    || queue == cfg.Main(op)
    || queue == cfg.Dlq(op)
    || exists i | 0 <= i < |cfg.Delays(op)| :: queue == RetryQueueName(cfg.Main(op), i)
  }

  /** The upload queues and the delete queues have nothing in common. */
  lemma OwnQueuesDisjoint(cfg: RabbitConfig, queue: string)
    requires Distinct(cfg)
    ensures !(OwnQueue(cfg, Upload, queue) && OwnQueue(cfg, Delete, queue))
  {
    hide RetryQueueName;
    forall i, j
      ensures RetryQueueName(cfg.Main(Upload), i) != RetryQueueName(cfg.Main(Delete), j)
    {
      RetryQueueNamesEqualIff(cfg.Main(Upload), i, cfg.Main(Delete), j);
    }
  }

  /**
   Order and bound, whatever happens: a message stays on the queues of its own kind; it enters the retry queues
   0, 1, 2, ... once each and in order; it is handled at most once more than there are delays, not counting
   redeliveries; and when it reaches the dead-letter queue it has been handled exactly that often, has been through
   every retry queue, and has waited exactly the sum of the delays.
   */
  lemma Itinerary(cfg: RabbitConfig, s: Sys, i: nat)
    requires Sound(cfg) && Reachable(cfg, false, s) && i < |s.copies|
    ensures var c := s.copies[i];
      && OwnQueue(cfg, c.op, c.queue)
      && (forall j | 0 <= j < |c.visits| :: c.visits[j] == RetryQueueName(cfg.Main(c.op), j))
      && |c.visits| <= |cfg.Delays(c.op)|
      && c.handled <= |cfg.Delays(c.op)| + 1 + c.redelivered
      && (c.queue == cfg.Dlq(c.op) ==>
            && |c.visits| == |cfg.Delays(c.op)|
            && c.handled == |cfg.Delays(c.op)| + 1 + c.redelivered
            && c.waited == Sum(cfg.Delays(c.op), |cfg.Delays(c.op)|))
  {
    hide Reachable, RetryQueueName, Run, RetryCount;
    var es := RunOf(cfg, false, s);
    RunKeepsCopies(cfg, es);
    var c := s.copies[i];
    assert CopyOk(cfg, c);
    PlacesDiffer(cfg, c.op);
    hide Distinct;
  }

  // ---------- sums over the bag of copies ----------

  function Total(copies: seq<Copy>, w: Copy -> nat): nat {
    if copies == [] then 0 else w(copies[0]) + Total(copies[1..], w)
  }

  lemma {:induction false} TotalConcat(a: seq<Copy>, b: seq<Copy>, w: Copy -> nat)
    ensures Total(a + b, w) == Total(a, w) + Total(b, w)
  {
    if a == [] {
      assert a + b == b;
    } else {
      assert (a + b)[1..] == a[1..] + b;
      TotalConcat(a[1..], b, w);
    }
  }

  /** Replacing one copy changes a total by what the replacement adds. */
  lemma TotalReplaced(copies: seq<Copy>, i: nat, news: seq<Copy>, w: Copy -> nat)
    requires i < |copies|
    ensures Total(copies[..i] + news + copies[i + 1..], w) + w(copies[i]) == Total(copies, w) + Total(news, w)
  {
    assert copies == copies[..i] + ([copies[i]] + copies[i + 1..]);
    TotalConcat(copies[..i], [copies[i]] + copies[i + 1..], w);
    assert ([copies[i]] + copies[i + 1..])[1..] == copies[i + 1..];
    TotalConcat(copies[..i] + news, copies[i + 1..], w);
    TotalConcat(copies[..i], news, w);
  }

  lemma TotalSmall(a: Copy, b: Copy, w: Copy -> nat)
    ensures Total([], w) == 0 && Total([a], w) == w(a) && Total([a] + [b], w) == w(a) + w(b)
      && Total([] + [a], w) == w(a)
  {
    assert [a][1..] == [];
    assert ([a] + [b])[1..] == [b];
    assert [b][1..] == [];
    assert [] + [a] == [a];
  }

  // ---------- conservation ----------

  /** A copy that still stands for its message: not one already published onwards. */
  function Live(u: Uid): Copy -> nat {
    (c: Copy) => if c.uid == u && c.stage != Forwarded then 1 else 0
  }

  function Ended(log: multiset<Fate>, u: Uid): nat {
    log[Finished(u)] + log[Discarded(u)] + log[Lost(u)] + log[Unroutable(u)]
  }

  /** What one move of a copy does, in full. */
  lemma MoveEffect(cfg: RabbitConfig, c: Copy, move: Move)
    requires Sound(cfg) && CopyOk(cfg, c)
    ensures var x := Moved(cfg, Built(NOTHING, cfg), c, move);
      x.Effect? ==>
        match move
        case Deliver => c.stage == Queued && x == Effect([c.(stage := Held, handled := c.handled + 1)], multiset{})
        case Settle => c.stage == Forwarded && x == Effect([], multiset{})
        case Expire(trace) =>
          c.stage == Queued && RetryCount(c.headers) > 0 && RetryCount(c.headers) <= |cfg.Delays(c.op)|
          && OnRetry(cfg, c, RetryCount(c.headers))
          && x == Effect([] + [Returned(cfg, c, cfg.Delays(c.op)[RetryCount(c.headers) - 1], trace)], multiset{})
        case Crash =>
          c.stage != Queued
          && x == Effect([c.(stage := Queued, redelivered := c.redelivered + 1)], if c.stage == Forwarded
            then multiset{Duplicated(c.uid)} else multiset{})
        case Handle(succeeds, sent, trace) =>
          && c.stage == Held && 0 <= RetryCount(c.headers) <= |cfg.Delays(c.op)|
          && x == if !c.decodes then Effect([], multiset{Discarded(c.uid)})
                  else if succeeds then Effect([], multiset{Finished(c.uid)})
                  else if !sent then Effect([], multiset{Lost(c.uid)})
                  else if AtMissingQueue(cfg, c) then Effect([c.(stage := Forwarded)], multiset{Unroutable(c.uid)})
                  else Effect([c.(stage := Forwarded)] + [Successor(cfg, c, OnwardHeaders(cfg, c, trace))], multiset{})
  {
    hide Built, Routed, CopyOk, Successor, Handled, OnRetry, Returned, AtMissingQueue;
    RetryCountOk(cfg, c);
    match move
    case Expire(trace) =>
      ExpireReturns(cfg, c, trace);
      if OnRetry(cfg, c, RetryCount(c.headers)) { RetryIsQueued(cfg, c); }
    case Handle(succeeds, sent, trace) =>
      if c.stage == Held {
        HeldOnMain(cfg, c);
        ConsumerOf(cfg, c.op);
        if c.decodes && !succeeds && sent {
          FailedOnward(cfg, c, trace);
        } else {
          NothingLeft(cfg, c, succeeds, sent, trace);
        }
      }
    case _ =>
  }

  lemma RetryIsQueued(cfg: RabbitConfig, c: Copy)
    requires 0 <= RetryCount(c.headers) <= |cfg.Delays(c.op)|
    requires OnRetry(cfg, c, RetryCount(c.headers))
    ensures c.stage == Queued
  {
  }

  lemma MoveConserves(cfg: RabbitConfig, c: Copy, move: Move, u: Uid)
    requires Sound(cfg) && CopyOk(cfg, c)
    ensures var x := Moved(cfg, Built(NOTHING, cfg), c, move);
      x.Effect? ==>
        && Total(x.copies, Live(u)) + Ended(x.fates, u) == Live(u)(c) + x.fates[Duplicated(u)]
        && x.fates[Published(u)] == 0
  {
    hide Built, Moved, CopyOk, OnRetry, RetryQueueName, AtMissingQueue, Total, Sound;
    MoveEffect(cfg, c, move);
    var x := Moved(cfg, Built(NOTHING, cfg), c, move);
    if x.Effect? && x.copies != [] {
      TotalSmall(x.copies[0], if |x.copies| > 1 then x.copies[1] else c, Live(u));
    } else {
      TotalSmall(c, c, Live(u));
    }
  }

  ghost predicate Conserves(s: Sys, u: Uid) {
    Total(s.copies, Live(u)) + Ended(s.log, u) == s.log[Published(u)] + s.log[Duplicated(u)]
  }

  lemma PublishConserves(cfg: RabbitConfig, s: Sys, e: Event, u: Uid)
    requires Sound(cfg) && e.Publish? && Conserves(s, u)
    ensures Conserves(Step(cfg, s, e), u)
  {
    hide Built, Moved, Routed, CopyOk, Sound, Total, PublishEffect;
    PublishArrives(cfg, e.uid, e.op, e.decodes, e.trace);
    var c := Born(e.uid, e.op, e.decodes, e.trace).(queue := cfg.Main(e.op));
    TotalConcat(s.copies, [] + [c], Live(u));
    TotalSmall(c, c, Live(u));
  }

  lemma TouchConserves(cfg: RabbitConfig, s: Sys, e: Event, u: Uid)
    requires Sound(cfg) && e.Touch? && Conserves(s, u) && AllOk(cfg, s.copies)
    ensures Conserves(Step(cfg, s, e), u)
  {
    hide Built, Moved, Routed, CopyOk, Sound, Total, PublishEffect;
    if e.i < |s.copies| {
      MoveConserves(cfg, s.copies[e.i], e.move, u);
      var x := Moved(cfg, Built(NOTHING, cfg), s.copies[e.i], e.move);
      if x.Effect? { TotalReplaced(s.copies, e.i, x.copies, Live(u)); }
    }
  }

  lemma {:induction false} RunConserves(cfg: RabbitConfig, es: seq<Event>, u: Uid)
    requires Sound(cfg)
    ensures Conserves(Run(cfg, es), u)
    decreases |es|
  {
    hide Step, CopyOk, Sound, Total;
    if es == [] {
      TotalNone(Live(u));
    } else {
      var s := Run(cfg, es[..|es| - 1]);
      RunConserves(cfg, es[..|es| - 1], u);
      RunKeepsCopies(cfg, es[..|es| - 1]);
      if es[|es| - 1].Publish? {
        PublishConserves(cfg, s, es[|es| - 1], u);
      } else {
        TouchConserves(cfg, s, es[|es| - 1], u);
      }
    }
  }

  /**
   Conservation: at any time, through any failures and redeliveries, the places a message is in plus the times it
   ended equal the times it was published plus the times a redelivery duplicated it.
   */
  lemma Conservation(cfg: RabbitConfig, s: Sys, u: Uid)
    requires Sound(cfg) && Reachable(cfg, false, s)
    ensures Total(s.copies, Live(u)) + Ended(s.log, u) == s.log[Published(u)] + s.log[Duplicated(u)]
  {
    hide Reachable, Run, Total;
    var es := RunOf(cfg, false, s);
    RunConserves(cfg, es, u);
  }

  lemma TotalNone(w: Copy -> nat)
    ensures Total([], w) == 0
  {
  }

  // ---------- how a message can end ----------

  predicate AllDelaysDeclared(cfg: RabbitConfig) {
    AllDeclared(cfg.uploadDelays) && AllDeclared(cfg.deleteDelays)
  }

  predicate Undisturbed(es: seq<Event>) {
    forall e | e in es :: Calm(e)
  }

  /** The fates a disturbance or an undeclared queue would have caused. */
  predicate Clean(log: multiset<Fate>, u: Uid) {
    log[Duplicated(u)] == 0 && log[Lost(u)] == 0 && log[Unroutable(u)] == 0
  }

  lemma MoveClean(cfg: RabbitConfig, c: Copy, move: Move, u: Uid)
    requires Sound(cfg) && CopyOk(cfg, c) && AllDelaysDeclared(cfg)
    requires move != Crash && (move.Handle? ==> move.sent)
    ensures var x := Moved(cfg, Built(NOTHING, cfg), c, move); x.Effect? ==> Clean(x.fates, u)
  {
    MoveEffect(cfg, c, move);
    hide Built, Moved, CopyOk, OnRetry, RetryQueueName, Sound, RetryCount;
    assert !AtMissingQueue(cfg, c) by {
      assert cfg.Delays(c.op) == cfg.uploadDelays || cfg.Delays(c.op) == cfg.deleteDelays;
    }
  }

  lemma {:induction false} RunClean(cfg: RabbitConfig, es: seq<Event>, u: Uid)
    requires Sound(cfg) && AllDelaysDeclared(cfg) && Undisturbed(es)
    ensures Clean(Run(cfg, es).log, u)
    decreases |es|
  {
    hide Built, Moved, Routed, CopyOk, Sound, PublishEffect, AllDelaysDeclared;
    if es == [] {
    } else {
      var front := es[..|es| - 1];
      assert forall e | e in front :: e in es;
      RunClean(cfg, front, u);
      RunKeepsCopies(cfg, front);
      var s := Run(cfg, front);
      match es[|es| - 1]
      case Publish(uid, op, decodes, trace) => PublishArrives(cfg, uid, op, decodes, trace);
      case Touch(i, move) =>
        assert es[|es| - 1] in es;
        if i < |s.copies| { MoveClean(cfg, s.copies[i], move, u); }
    }
  }

  /**
   Message conservation: with every delay positive, no redelivery and no failed onward publish, a message published
   once is in exactly one place until it is over, and only a job that succeeds, or a body that is no JSON, ends it.
   */
  lemma MessageConservation(cfg: RabbitConfig, s: Sys, u: Uid)
    requires Sound(cfg) && AllDelaysDeclared(cfg) && Reachable(cfg, true, s)
    requires s.log[Published(u)] == 1
    ensures Total(s.copies, Live(u)) + s.log[Finished(u)] + s.log[Discarded(u)] == 1
  {
    hide Reachable, Run, Sound, AllDelaysDeclared, Total, Undisturbed;
    var es := RunOf(cfg, true, s);
    RunConserves(cfg, es, u);
    RunClean(cfg, es, u);
  }

  /**
   The converse, and exactly when a failed message survives: it does if and only if its onward publish is accepted
   and the delay it has come to is positive or past the last. Refused, it is rejected for good, with no dead-letter
   exchange to catch it; accepted for a queue that a delay of zero or less left undeclared, it is dropped by the
   broker and acknowledged all the same.
   */
  lemma FailedMessageSurvivesIff(cfg: RabbitConfig, c: Copy, sent: bool, trace: Trace)
    requires Sound(cfg) && CopyOk(cfg, c) && c.stage == Held && c.decodes
    ensures var n, x := RetryCount(c.headers), Moved(cfg, Built(NOTHING, cfg), c, Handle(false, sent, trace));
      && x.Effect?
      && (Total(x.copies, Live(c.uid)) == 1 <==> sent && !(n < |cfg.Delays(c.op)| && cfg.Delays(c.op)[n] <= 0))
      && (x.fates[Lost(c.uid)] > 0 <==> !sent)
      && (x.fates[Unroutable(c.uid)] > 0 <==> sent && n < |cfg.Delays(c.op)| && cfg.Delays(c.op)[n] <= 0)
  {
    var move := Handle(false, sent, trace);
    HeldMoves(cfg, c, move);
    MoveConserves(cfg, c, move, c.uid);
    MoveEffect(cfg, c, move);
    hide Built, CopyOk, RetryQueueName, Sound, Total, Successor, Moved, RetryCount;
  }

  lemma HeldMoves(cfg: RabbitConfig, c: Copy, move: Move)
    requires Distinct(cfg) && CopyOk(cfg, c) && c.stage == Held && move.Handle?
    ensures Moved(cfg, Built(NOTHING, cfg), c, move).Effect?
  {
    HeldOnMain(cfg, c);
    ConsumerOf(cfg, c.op);
    hide Built, CopyOk, Distinct, SentOnward;
  }

  // ---------- termination ----------

  /** Steps a copy can still take without a redelivery. */
  function Weight(cfg: RabbitConfig): Copy -> nat {
    (c: Copy) =>
      var left := if RetryCount(c.headers) < |cfg.Delays(c.op)| then 4 * (|cfg.Delays(c.op)| - RetryCount(c.headers))
        else 0;
      if c.stage == Forwarded then 1
      else if c.stage == Held then left + 2
      else if c.queue == cfg.Main(c.op) then left + 3
      else if c.queue == cfg.Dlq(c.op) then 0
      else left + 4
  }

  /** The most attempts either kind of message gets. */
  function Attempts(cfg: RabbitConfig): nat {
    1 + if |cfg.uploadDelays| > |cfg.deleteDelays| then |cfg.uploadDelays| else |cfg.deleteDelays|
  }

  lemma SuccessorWeight(cfg: RabbitConfig, c: Copy, h: Option<Table>)
    requires Distinct(cfg) && CopyOk(cfg, c) && c.stage == Held
    requires RetryCount(h) == CountAfter(cfg, c)
    ensures Weight(cfg)(Successor(cfg, c, h)) + 2 <= Weight(cfg)(c)
  {
    PlacesDiffer(cfg, c.op);
    hide RetryQueueName, RetryCount, Distinct;
  }

  lemma ReturnedWeight(cfg: RabbitConfig, c: Copy, trace: Trace)
    requires Distinct(cfg) && CopyOk(cfg, c) && OnRetry(cfg, c, RetryCount(c.headers))
    ensures Weight(cfg)(Returned(cfg, c, cfg.Delays(c.op)[RetryCount(c.headers) - 1], trace)) + 1 == Weight(cfg)(c)
  {
    PlacesDiffer(cfg, c.op);
    TracedKeepsCount(c.headers, trace);
    hide RetryQueueName, RetryCount, Distinct, Traced;
  }

  /** Every move but a crash uses up at least one step; a crash gives back at most all of one message's attempts. */
  lemma MoveWeight(cfg: RabbitConfig, c: Copy, move: Move)
    requires Sound(cfg) && CopyOk(cfg, c)
    ensures var x := Moved(cfg, Built(NOTHING, cfg), c, move);
      x.Effect? ==>
        Total(x.copies, Weight(cfg)) + 1 <= Weight(cfg)(c) + (if move == Crash then 4 * Attempts(cfg) else 0)
  {
    hide Built, Moved, CopyOk, OnRetry, RetryQueueName, AtMissingQueue, Total, Distinct, Successor, Returned, Weight;
    MoveEffect(cfg, c, move);
    RetryCountOk(cfg, c);
    var x := Moved(cfg, Built(NOTHING, cfg), c, move);
    if x.Effect? {
      TotalSmall(if x.copies != [] then x.copies[0] else c, if |x.copies| > 1 then x.copies[1] else c, Weight(cfg));
      match move
      case Handle(succeeds, sent, trace) =>
        HandleWeight(cfg, c);
        if c.decodes && !succeeds && sent && !AtMissingQueue(cfg, c) {
          FailedOnward(cfg, c, trace);
          SuccessorWeight(cfg, c, OnwardHeaders(cfg, c, trace));
        }
      case Expire(trace) => ReturnedWeight(cfg, c, trace);
      case Deliver => DeliverWeight(cfg, c);
      case Settle => SettleWeight(cfg, c);
      case Crash => CrashWeight(cfg, c);
    }
  }

  lemma HandleWeight(cfg: RabbitConfig, c: Copy)
    requires c.stage == Held
    ensures Weight(cfg)(c) >= 2 && Weight(cfg)(c.(stage := Forwarded)) == 1
  {
  }

  lemma SettleWeight(cfg: RabbitConfig, c: Copy)
    requires c.stage == Forwarded
    ensures Weight(cfg)(c) == 1
  {
  }

  lemma DeliverWeight(cfg: RabbitConfig, c: Copy)
    requires Distinct(cfg) && CopyOk(cfg, c) && c.stage == Queued
    requires Moved(cfg, Built(NOTHING, cfg), c, Deliver).Effect?
    ensures Weight(cfg)(c.(stage := Held, handled := c.handled + 1)) + 1 == Weight(cfg)(c)
  {
    ConsumerOf(cfg, c.op);
    hide RetryQueueName, Distinct, Built;
  }

  lemma CrashWeight(cfg: RabbitConfig, c: Copy)
    requires CopyOk(cfg, c) && c.stage != Queued
    ensures Weight(cfg)(c.(stage := Queued, redelivered := c.redelivered + 1)) + 1 <= Weight(cfg)(c) + 4 * Attempts(cfg)
  {
    HeldOnMain(cfg, c);
  }

  /** How many events of a run did something, and how many brought new work: publishes and redeliveries. */
  function Effective(cfg: RabbitConfig, es: seq<Event>): nat
    decreases |es|
  {
    if es == [] then 0
    else Effective(cfg, es[..|es| - 1]) + (if Enabled(cfg, Run(cfg, es[..|es| - 1]), es[|es| - 1]) then 1 else 0)
  }

  function Supplied(es: seq<Event>): nat
    decreases |es|
  {
    if es == [] then 0
    else Supplied(es[..|es| - 1]) + (if Supply(es[|es| - 1]) then 1 else 0)
  }

  predicate Supply(e: Event) {
    e.Publish? || e.move == Crash
  }

  lemma StepWeight(cfg: RabbitConfig, s: Sys, e: Event)
    requires Sound(cfg) && AllOk(cfg, s.copies)
    ensures Total(Step(cfg, s, e).copies, Weight(cfg)) + (if Enabled(cfg, s, e) then 1 else 0)
         <= Total(s.copies, Weight(cfg)) + (if Supply(e) then 4 * Attempts(cfg) else 0)
  {
    hide Built, Moved, Routed, CopyOk, Sound, Total, PublishEffect, Weight, Attempts;
    match e
    case Publish(uid, op, decodes, trace) =>
      PublishArrives(cfg, uid, op, decodes, trace);
      var c := Born(uid, op, decodes, trace).(queue := cfg.Main(op));
      TotalConcat(s.copies, [] + [c], Weight(cfg));
      TotalSmall(c, c, Weight(cfg));
      BornWeight(cfg, uid, op, decodes, trace);
    case Touch(i, move) =>
      if i < |s.copies| {
        MoveWeight(cfg, s.copies[i], move);
        var x := Moved(cfg, Built(NOTHING, cfg), s.copies[i], move);
        if x.Effect? { TotalReplaced(s.copies, i, x.copies, Weight(cfg)); }
      }
  }

  lemma {:induction false} StepsBounded(cfg: RabbitConfig, es: seq<Event>)
    requires Sound(cfg)
    ensures Effective(cfg, es) + Total(Run(cfg, es).copies, Weight(cfg)) <= Budget(cfg, Supplied(es))
    decreases |es|
  {
    hide AllOk, Sound, Total, Weight, Step, Enabled, Attempts;
    if es == [] {
      TotalNone(Weight(cfg));
    } else {
      var front := es[..|es| - 1];
      StepsBounded(cfg, front);
      RunKeepsCopies(cfg, front);
      StepWeight(cfg, Run(cfg, front), es[|es| - 1]);
    }
  }

  lemma BornWeight(cfg: RabbitConfig, uid: Uid, op: Op, decodes: bool, trace: Trace)
    ensures Weight(cfg)(Born(uid, op, decodes, trace).(queue := cfg.Main(op))) + 1 <= 4 * Attempts(cfg)
  {
    TracedKeepsCount(None, trace);
  }

  /** n times the steps of one message that fails every attempt. */
  function Budget(cfg: RabbitConfig, n: nat): nat {
    if n == 0 then 0 else Budget(cfg, n - 1) + 4 * Attempts(cfg)
  }

  lemma {:induction false} BudgetIsProduct(cfg: RabbitConfig, n: nat)
    ensures Budget(cfg, n) == 4 * Attempts(cfg) * n
  {
    hide Attempts;
    if n == 0 {
    } else {
      BudgetIsProduct(cfg, n - 1);
      assert 4 * Attempts(cfg) * n == 4 * Attempts(cfg) * (n - 1) + 4 * Attempts(cfg);
    }
  }

  /**
   Termination: however a run goes, the events that do anything number at most four for each attempt of each
   message published, and as many again for each redelivery.
   */
  lemma RetryTerminates(cfg: RabbitConfig, es: seq<Event>)
    requires Sound(cfg)
    ensures Effective(cfg, es) <= 4 * Attempts(cfg) * Supplied(es)
  {
    StepsBounded(cfg, es);
    BudgetIsProduct(cfg, Supplied(es));
  }

  /** Nothing gets stuck: a copy that is not on a dead-letter queue can move on without a redelivery. */
  lemma OnlyDeadLettersRest(cfg: RabbitConfig, s: Sys, i: nat)
    requires Sound(cfg) && Reachable(cfg, false, s) && i < |s.copies|
    ensures var c := s.copies[i];
      c.queue == cfg.Dlq(c.op) || exists move: Move | move != Crash :: Enabled(cfg, s, Touch(i, move))
  {
    hide Reachable, RetryQueueName, Run, Built, Moved;
    var es := RunOf(cfg, false, s);
    RunKeepsCopies(cfg, es);
    var c := s.copies[i];
    var move := if c.queue != cfg.Main(c.op) then Expire(map[]) else if c.stage == Queued then Deliver
      else if c.stage == Held then Handle(true, true, map[]) else Settle;
    assert CopyOk(cfg, c);
    if c.queue != cfg.Dlq(c.op) {
      CanMove(cfg, c, move);
      assert Enabled(cfg, s, Touch(i, move));
    }
  }

  lemma CanMove(cfg: RabbitConfig, c: Copy, move: Move)
    requires Sound(cfg) && CopyOk(cfg, c) && c.queue != cfg.Dlq(c.op)
    requires move == if c.queue != cfg.Main(c.op) then Expire(map[]) else if c.stage == Queued then Deliver
      else if c.stage == Held then Handle(true, true, map[]) else Settle
    ensures Moved(cfg, Built(NOTHING, cfg), c, move).Effect?
  {
    ConsumerOf(cfg, c.op);
    ExpireReturns(cfg, c, map[]);
    hide Built, RetryQueueName, Routed, Distinct, Sum;
  }
}
