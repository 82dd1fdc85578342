/**
 The publisher's AMQP session: one connection and one channel, opened through the circuit breaker, replaced when
 they have died, and released by Close. The mutex makes its operations a sequence.

 A dialled connection is owned until it is closed, whatever its Close returns. Each operation carries what its
 context and its calls report at every point where the code asks.
 */
module Publishing {
  import opened Wrappers
  import opened Breaker

  type ConnId = nat

  /** A channel, and the connection it was opened on. */
  datatype Channel = Channel(on: ConnId)

  datatype Sent = Sent(channel: Channel, key: string, body: string)

  /** How an attempt to connect goes once the breaker lets it through. */
  datatype Attempt = DialFailed | ChannelFailed | ExpiredMeanwhile | TopologyFailed | Established

  /** A call of connect: whether the context has expired, the attempt, and the breaker's clock readings. */
  datatype Connect = Connect(expired: bool, attempt: Attempt, checked: int, entered: int, done: int)

  /** What reconnectIfNeeded finds: an expired context, and whether connection and channel report to be open. */
  datatype Check = Check(expired: bool, connUp: bool, chUp: bool, connect: Connect)

  datatype Op =
    | PublishJson(expired: bool, marshals: bool, check: Check, sendExpired: bool, sends: bool, key: string,
      body: string)
    | Health(expired: bool, check: Check, queueNamed: bool, declares: bool)
    | Close

  /** Everything the operations touch. */
  datatype Session = Session(
    conn: Option<ConnId>,
    ch: Option<Channel>,
    breaker: Snapshot,
    net: Ledger)

  /** What has been opened, closed, tried and sent on the network. */
  datatype Ledger = Ledger(dialled: nat, closed: nat, open: set<ConnId>, failed: nat, sent: seq<Sent>)

  function CallOf(c: Connect): Call {
    Call(c.checked, c.entered, c.done, c.attempt == Established)
  }

  /** What an attempt leaves on the network: a dialled connection is either kept or closed again. */
  function Tried(n: Ledger, a: Attempt): Ledger {
    match a
    case DialFailed => n.(failed := n.failed + 1)
    case Established => n.(dialled := n.dialled + 1, open := n.open + {n.dialled})
    case _ => n.(dialled := n.dialled + 1, closed := n.closed + 1, failed := n.failed + 1)
  }

  /** What connect leaves, and whether it succeeds. */
  function Connected(l: Session, c: Connect): (Session, bool) {
    if c.expired then (l, false)
    else
      var b := Executed(l.breaker, CallOf(c));
      if ResponseTo(l.breaker, CallOf(c)) == Refused then (l.(breaker := b), false)
      else if c.attempt != Established then (l.(breaker := b, net := Tried(l.net, c.attempt)), false)
      else (Session(Some(l.net.dialled), Some(Channel(l.net.dialled)), b, Tried(l.net, c.attempt)), true)
  }

  /** What closeLocked leaves. */
  function Severed(l: Session): Session {
    if l.conn.None? then l.(ch := None)
    else l.(conn := None, ch := None, net := l.net.(closed := l.net.closed + 1, open := l.net.open - {l.conn.value}))
  }

  function Reconnected(l: Session, k: Check): (Session, bool) {
    if k.expired then (l, false)
    else if l.conn.Some? && k.connUp && l.ch.Some? && k.chUp then (l, true)
    else Connected(Severed(l), k.connect)
  }

  /** What one operation leaves, and whether it succeeds. */
  function Performed(l: Session, op: Op): (Session, bool) {
    match op
    case Close => (Severed(l), true)
    case Health(expired, check, queueNamed, declares) =>
      if expired then (l, false)
      else var (t, ok) := Reconnected(l, check); (t, ok && queueNamed && declares)
    case PublishJson(expired, marshals, check, sendExpired, sends, key, body) =>
      if expired || !marshals then (l, false)
      else
        var (t, ok) := Reconnected(l, check);
        if !ok || sendExpired || !sends || t.ch.None? then (t, false)
        else (t.(net := t.net.(sent := t.net.sent + [Sent(t.ch.value, key, body)])), true)
  }

  /**
   conn and ch are set together, the channel is the connection's own, and that connection is the only one open:
   connections opened minus connections closed is one while a session is held and zero otherwise.
   */
  ghost predicate Owned(l: Session) {
    && (l.conn.None? <==> l.ch.None?)
    && (l.ch.Some? ==> l.ch.value.on == l.conn.value)
    && l.net.open == (if l.conn.Some? then {l.conn.value} else {})
    && l.net.dialled - l.net.closed == (if l.conn.Some? then 1 else 0)
    && (l.conn.Some? ==> l.conn.value < l.net.dialled)
  }

  /** Connections are numbered in the order they were dialled. */
  ghost predicate Numbered(n: Ledger) {
    forall c | c in n.open :: c < n.dialled
  }

  // ---------- the operations ----------

  /** The broker's end: dialling, closing and sending. */
  class Network {
    var ledger: Ledger

    constructor ()
      ensures ledger == Ledger(0, 0, {}, 0, [])
    {
      ledger := Ledger(0, 0, {}, 0, []);
    }

    method Dial(ok: bool) returns (c: Option<ConnId>)
      modifies this
      ensures c == if ok then Some(old(ledger).dialled) else None
      ensures ledger == if ok
        then old(ledger).(dialled := old(ledger).dialled + 1, open := old(ledger).open + {old(ledger).dialled})
          else old(ledger)
    {
      if !ok { return None; }
      var id := ledger.dialled;
      ledger := ledger.(dialled := id + 1, open := ledger.open + {id});
      return Some(id);
    }

    method Hangup(c: ConnId)
      modifies this
      ensures ledger == old(ledger).(closed := old(ledger).closed + 1, open := old(ledger).open - {c})
    {
      ledger := ledger.(closed := ledger.closed + 1, open := ledger.open - {c});
    }

    /** Records that an attempt which reached the network has failed. */
    method NoteFailure()
      modifies this
      ensures ledger == old(ledger).(failed := old(ledger).failed + 1)
    {
      ledger := ledger.(failed := ledger.failed + 1);
    }

    method Send(ch: Channel, key: string, body: string, ok: bool) returns (done: bool)
      modifies this
      ensures done == ok
      ensures ledger == if ok then old(ledger).(sent := old(ledger).sent + [Sent(ch, key, body)]) else old(ledger)
    {
      if ok { ledger := ledger.(sent := ledger.sent + [Sent(ch, key, body)]); }
      return ok;
    }
  }

  class Publisher {
    var conn: Option<ConnId>
    var ch: Option<Channel>
    const cb: CircuitBreaker
    const net: Network

    constructor (cfg: Settings, net: Network, now: int)
      ensures fresh(cb) && this.net == net
      ensures State() == Session(None, None, Breaker.Fresh(cfg, now), net.ledger)
    {
      this.conn, this.ch, this.net := None, None, net;
      cb := new CircuitBreaker(cfg, now);
    }

    function State(): Session
      reads this, cb, net
    {
      Session(conn, ch, cb.Current(), net.ledger)
    }

    /** NewPublisher: a publisher with a session, or none and nothing left open. */
    static method NewPublisher(cfg: Settings, net: Network, now: int, expired: bool, url: string, c: Connect)
                               returns (p: Publisher?)
      requires Numbered(net.ledger)
      modifies net
      ensures var l := Session(None, None, Breaker.Fresh(cfg, now), old(net.ledger));
        if p == null
        then expired || url == "" || (!Connected(l, c).1 && net.ledger == Connected(l, c).0.net)
        else fresh(p) && fresh(p.cb) && p.net == net && Connected(l, c).1 && p.State() == Connected(l, c).0
      ensures p == null && (expired || url == "") ==> net.ledger == old(net.ledger)
      ensures p != null <==> !expired && url != "" && !c.expired && c.attempt == Established
      ensures p != null ==> p.ch == Some(Channel(old(net.ledger).dialled)) && p.cb.threshold > 0 && p.cb.cooldown > 0
    {
      if expired || url == "" { return null; }
      var q := new Publisher(cfg, net, now);
      var ok := q.ConnectOnce(c);
      return if ok then q else null;
    }

    /** connect: the dial, the channel and the topology run inside the breaker. */
    method ConnectOnce(c: Connect) returns (ok: bool)
      requires Numbered(net.ledger)
      modifies this, cb, net
      ensures (State(), ok) == Connected(old(State()), c)
    {
      if c.expired { return false; }
      // The breaker decides on the outcome of the guarded function, which runs only if the breaker lets it.
      var r := cb.Execute(CallOf(c));
      if r == Refused { return false; }
      var dialled := net.Dial(c.attempt != DialFailed);
      if dialled.None? {
        net.NoteFailure();
        return false;
      }
      if c.attempt != Established {
        net.Hangup(dialled.value);
        net.NoteFailure();
        assert net.ledger.open == old(net.ledger).open;
        return false;
      }
      conn := dialled;
      ch := Some(Channel(dialled.value));
      return true;
    }

    method CloseLocked()
      modifies this, net
      ensures cb.Current() == old(cb.Current())
      ensures State() == Severed(old(State()))
    {
      if ch.Some? { ch := None; }
      if conn.Some? {
        net.Hangup(conn.value);
        conn := None;
      }
    }

    method ReconnectIfNeeded(k: Check) returns (ok: bool)
      requires Numbered(net.ledger)
      modifies this, cb, net
      ensures (State(), ok) == Reconnected(old(State()), k)
    {
      if k.expired { return false; }
      if conn.Some? && k.connUp && ch.Some? && k.chUp { return true; }
      CloseLocked();
      ok := ConnectOnce(k.connect);
    }

    /** PublishJSON, Health or Close. The session is sound before and after, so the channel used is there to be used. */
    method Perform(op: Op) returns (ok: bool)
      requires Owned(State())
      modifies this, cb, net
      ensures (State(), ok) == Performed(old(State()), op)
      ensures Owned(State())
    {
      match op
      case Close =>
        CloseLocked();
        ok := true;
      case Health(expired, check, queueNamed, declares) =>
        if expired { return false; }
        ok := ReconnectIfNeeded(check);
        if !ok || !queueNamed { return false; }
        ok := declares;
      case PublishJson(expired, marshals, check, sendExpired, sends, key, body) =>
        if expired || !marshals { return false; }
        ok := ReconnectIfNeeded(check);
        if !ok || sendExpired { return false; }
        ok := net.Send(ch.value, key, body, sends);
    }
  }

  // ---------- when an operation succeeds ----------

  /** The session is there, and both of its ends report to be open. */
  predicate Up(l: Session, k: Check) {
    l.conn.Some? && l.ch.Some? && k.connUp && k.chUp
  }

  /** A new session can be had: the context holds, the breaker lets the attempt through, and it works. */
  predicate Opens(l: Session, c: Connect) {
    !c.expired && l.breaker.phase != Open && c.attempt == Established
  }

  lemma ConnectsIff(l: Session, c: Connect)
    ensures Connected(l, c).1 <==> Opens(l, c)
    ensures Opens(l, c) ==> var t := Connected(l, c).0;
      t.conn == Some(l.net.dialled) && t.ch == Some(Channel(l.net.dialled)) && t.net.dialled == l.net.dialled + 1
        && t.net.open == l.net.open + {l.net.dialled} && t.net.closed == l.net.closed && t.net.sent == l.net.sent
    ensures !Opens(l, c) ==> var t := Connected(l, c).0;
      t.conn == l.conn && t.ch == l.ch && t.net.open == l.net.open && t.net.sent == l.net.sent
  {
    hide Executed;
  }

  /** The session an operation goes on with: one that is up is kept, and otherwise a new one takes its place. */
  predicate Usable(l: Session, k: Check) {
    !k.expired && (Up(l, k) || Opens(l, k.connect))
  }

  lemma ReconnectsIff(l: Session, k: Check)
    requires Owned(l)
    ensures Reconnected(l, k).1 <==> Usable(l, k)
    ensures Up(l, k) || k.expired ==> Reconnected(l, k).0 == l
    ensures !Up(l, k) && Usable(l, k) ==> var t := Reconnected(l, k).0;
      t.ch == Some(Channel(l.net.dialled)) && t.net.dialled == l.net.dialled + 1 && t.net.open == {l.net.dialled}
    ensures !Usable(l, k) && !k.expired ==> var t := Reconnected(l, k).0; t.ch == None && t.net.open == {}
    ensures Usable(l, k) ==> Reconnected(l, k).0.ch.Some?
  {
    hide Connected, Executed;
    ConnectsIff(Severed(l), k.connect);
  }

  /**
   A publish succeeds exactly when the context holds at each of its checks, the body marshals, the session is up or a
   new one can be had, and the channel takes the message; a health check exactly when the context holds, there is a
   session in the same way, the queue has a name and the broker knows it; Close always.
   */
  lemma SucceedsIff(l: Session, op: Op)
    requires Owned(l)
    ensures op.PublishJson? ==>
      (Performed(l, op).1 <==>
        && !op.expired && op.marshals && !op.check.expired
        && (Up(l, op.check)
          || (!op.check.connect.expired && l.breaker.phase != Open && op.check.connect.attempt == Established))
        && !op.sendExpired && op.sends)
    ensures op.Health? ==>
      (Performed(l, op).1 <==>
        && !op.expired && !op.check.expired
        && (Up(l, op.check)
          || (!op.check.connect.expired && l.breaker.phase != Open && op.check.connect.attempt == Established))
        && op.queueNamed && op.declares)
    ensures op.Close? ==> Performed(l, op).1
  {
    hide Reconnected, Severed, Owned;
    if !op.Close? { ReconnectsIff(l, op.check); }
  }

  /** A session that is up is kept by a publish or a health check: nothing is dialled or closed. */
  lemma SessionKept(l: Session, op: Op)
    requires Owned(l) && !op.Close? && (op.expired || op.check.expired || Up(l, op.check))
    ensures var t := Performed(l, op).0;
      && t.conn == l.conn && t.ch == l.ch && t.breaker == l.breaker
      && t.net == l.net.(sent := t.net.sent)
  {
    hide Reconnected, Severed, Owned;
    ReconnectsIff(l, op.check);
  }

  /** One that is not is replaced, or given up, by every operation that comes to look at it. */
  lemma SessionReplaced(l: Session, op: Op)
    requires Owned(l) && !op.Close? && !op.expired && (op.PublishJson? ==> op.marshals)
    requires !op.check.expired && !Up(l, op.check)
    ensures var t := Performed(l, op).0;
      if !op.check.connect.expired && l.breaker.phase != Open && op.check.connect.attempt == Established
      then t.ch == Some(Channel(l.net.dialled)) && t.net.open == {l.net.dialled} && t.net.dialled == l.net.dialled + 1
      else t.ch == None && t.net.open == {}
  {
    hide Reconnected, Severed, Owned;
    ReconnectsIff(l, op.check);
  }

  // ---------- runs ----------

  function Run(l: Session, ops: seq<Op>): Session
    decreases |ops|
  {
    if ops == [] then l else Performed(Run(l, ops[..|ops| - 1]), ops[|ops| - 1]).0
  }

  lemma ConnectedOwned(l: Session, c: Connect)
    requires Owned(l) && l.conn.None?
    ensures Owned(Connected(l, c).0)
    ensures Connected(l, c).1 <==> Connected(l, c).0.conn.Some?
  {
  }

  lemma SeveredOwned(l: Session)
    requires Owned(l)
    ensures Owned(Severed(l)) && Severed(l).conn.None?
    ensures Severed(l).net.open == {} && Severed(l).net.dialled == Severed(l).net.closed
  {
  }

  lemma ReconnectedOwned(l: Session, k: Check)
    requires Owned(l)
    ensures Owned(Reconnected(l, k).0)
    ensures Reconnected(l, k).1 ==> Reconnected(l, k).0.ch.Some?
    ensures Reconnected(l, k).0.net.sent == l.net.sent
  {
    hide Severed, Connected, Owned;
    BothSet(l);
    SeveredOwned(l);
    ConnectedOwned(Severed(l), k.connect);
    NothingSent(l, k.connect);
    if Reconnected(l, k).1 && Connected(Severed(l), k.connect).1 {
      assert Connected(Severed(l), k.connect).0.conn.Some?;
      BothSet(Connected(Severed(l), k.connect).0);
    }
  }

  lemma BothSet(l: Session)
    requires Owned(l)
    ensures l.conn.Some? <==> l.ch.Some?
  {
  }

  lemma NothingSent(l: Session, c: Connect)
    ensures Severed(l).net.sent == l.net.sent
    ensures Connected(Severed(l), c).0.net.sent == l.net.sent
  {
  }

  /**
   Every operation keeps the session sound. A publish that succeeds sends its message once, on the channel of the
   one connection that is open; one that fails, and every other operation, sends nothing.
   */
  lemma PerformedOwned(l: Session, op: Op)
    requires Owned(l)
    ensures var (t, ok) := Performed(l, op);
      && Owned(t)
      && (if op.PublishJson? && ok
          then t.ch.Some? && t.net.open == {t.ch.value.on}
            && t.net.sent == l.net.sent + [Sent(t.ch.value, op.key, op.body)]
          else t.net.sent == l.net.sent)
      && (op.Close? ==> t.conn.None? && t.net.open == {} && t.net.dialled == t.net.closed)
  {
    hide Severed, Connected, Reconnected;
    SeveredOwned(l);
    match op
    case Close => NothingSent(l, Connect(true, DialFailed, 0, 0, 0));
    case Health(_, check, _, _) => ReconnectedOwned(l, check);
    case PublishJson(_, _, check, _, _, _, _) => ReconnectedOwned(l, check);
  }

  /** Session ownership over any run. */
  lemma {:induction false} RunOwned(l: Session, ops: seq<Op>)
    requires Owned(l)
    ensures Owned(Run(l, ops))
    ensures ops != [] && ops[|ops| - 1].Close?
      ==> Run(l, ops).net.open == {} && Run(l, ops).net.dialled == Run(l, ops).net.closed
    decreases |ops|
  {
    hide Performed, Owned;
    if ops == [] {
    } else {
      RunOwned(l, ops[..|ops| - 1]);
      PerformedOwned(Run(l, ops[..|ops| - 1]), ops[|ops| - 1]);
    }
  }

  // ---------- the breaker under the session ----------

  /** The calls one operation makes on the breaker: at most one, and none while the session is up. */
  function BreakerCallsOf(l: Session, op: Op): seq<Call> {
    if op.Close? || op.expired || (op.PublishJson? && !op.marshals) || op.check.expired then []
    else if l.conn.Some? && op.check.connUp && l.ch.Some? && op.check.chUp then []
    else if op.check.connect.expired then []
    else [CallOf(op.check.connect)]
  }

  function BreakerCalls(l: Session, ops: seq<Op>): seq<Call>
    decreases |ops|
  {
    if ops == [] then []
      else BreakerCalls(l, ops[..|ops| - 1]) + BreakerCallsOf(Run(l, ops[..|ops| - 1]), ops[|ops| - 1])
  }

  lemma OneOperation(l: Session, op: Op)
    ensures var t, calls := Performed(l, op).0, BreakerCallsOf(l, op);
      && (calls == [] ==> t.breaker == l.breaker && t.net.failed == l.net.failed)
      && (calls != [] ==> |calls| == 1 && t.breaker == Executed(l.breaker, calls[0])
                          && t.net.failed
                            == l.net.failed + (if ResponseTo(l.breaker, calls[0]) == Ran(false) then 1 else 0))
      && (calls != [] && ResponseTo(l.breaker, calls[0]) == Refused
        ==> !Performed(l, op).1 && t.net.dialled == l.net.dialled)
  {
    hide Executed;
  }

  /**
   The breaker's state is that of its own machine after the calls of the run, and the failed attempts are its
   failures.
   */
  lemma {:induction false} BreakerFollows(l: Session, ops: seq<Op>)
    ensures Run(l, ops).breaker == After(l.breaker, BreakerCalls(l, ops))
    ensures Run(l, ops).net.failed == l.net.failed + Passed(l.breaker, BreakerCalls(l, ops), false)
    decreases |ops|
  {
    hide Performed, Executed, BreakerCallsOf, ResponseTo;
    if ops == [] {
    } else {
      var front, op := ops[..|ops| - 1], ops[|ops| - 1];
      var s := Run(l, front);
      BreakerFollows(l, front);
      OneOperation(s, op);
      var calls := BreakerCalls(l, front) + BreakerCallsOf(s, op);
      if BreakerCallsOf(s, op) == [] {
        assert calls == BreakerCalls(l, front);
      } else {
        assert calls[..|calls| - 1] == BreakerCalls(l, front);
      }
    }
  }

  /** Whatever is published and however often, failing attempts to connect are bounded by the breaker's openings. */
  lemma FailedAttemptsBound(l: Session, ops: seq<Op>)
    requires Initial(l.breaker)
    ensures var calls := BreakerCalls(l, ops);
      Run(l, ops).net.failed - l.net.failed
      <= Passed(l.breaker, calls, true) + l.breaker.threshold * |Openings(l.breaker, calls)| + l.breaker.threshold - 1
  {
    BreakerFollows(l, ops);
    FailureBound(l.breaker, BreakerCalls(l, ops));
  }
}
