/**
 Any number of server replicas ensure the placeholder objects at the same time: each goes through the same targets,
 one stat or put at a time, interleaved in any way, with any failures.
 */
module Replicas {
  import opened Wrappers
  import opened Rendering
  import opened Placeholder

  /** A replica at target `pos`: about to stat it, or, once the stat said so, to put it. */
  datatype Replica = Replica(pos: nat, putting: bool, errs: nat, statFaults: nat)

  datatype World = World(objects: map<string, Bytes>, replicas: map<nat, Replica>)

  datatype Event = Start(r: nat) | Call(r: nat, ok: bool) | Die(r: nat)

  /** The next call of a replica at a target. An encoder that gives nothing is an error, and the put is skipped. */
  function Called(ts: seq<Target>, w: World, r: nat, ok: bool): World
    requires r in w.replicas && w.replicas[r].pos < |ts|
  {
    var me := w.replicas[r];
    var t := ts[me.pos];
    var next := me.(pos := me.pos + 1, putting := false);
    if me.putting && t.data.Some? then
      if ok then World(w.objects[t.key := t.data.value], w.replicas[r := next])
      else w.(replicas := w.replicas[r := next.(errs := me.errs + 1)])
    else if !ok then w.(replicas := w.replicas[r := next.(statFaults := me.statFaults + 1)])
    else if Filled(w.objects, t.key) then w.(replicas := w.replicas[r := next])
    else if t.data.None? then w.(replicas := w.replicas[r := next.(errs := me.errs + 1)])
    else w.(replicas := w.replicas[r := me.(putting := true)])
  }

  function Apply(ts: seq<Target>, w: World, e: Event): World {
    match e
    case Start(r) => if r in w.replicas then w else w.(replicas := w.replicas[r := Replica(0, false, 0, 0)])
    case Call(r, ok) => if r in w.replicas && w.replicas[r].pos < |ts| then Called(ts, w, r, ok) else w
    case Die(r) => w.(replicas := w.replicas - {r})
  }

  function Run(ts: seq<Target>, w: World, es: seq<Event>): World
    decreases |es|
  {
    if es == [] then w else Apply(ts, Run(ts, w, es[..|es| - 1]), es[|es| - 1])
  }

  // ---------- targets ----------

  /** No key is ensured twice, and nothing empty is put. */
  ghost predicate Sound(ts: seq<Target>) {
    && (forall i, j | 0 <= i < j < |ts| :: ts[i].key != ts[j].key)
    && (forall i | 0 <= i < |ts| && ts[i].data.Some? :: ts[i].data.value != [])
  }

  predicate IsTarget(ts: seq<Target>, k: string) {
    exists i | 0 <= i < |ts| :: ts[i].key == k
  }

  // ---------- the invariant ----------

  /** An object is as it was at the start, or, if there was none or an empty one, its target's bytes. */
  ghost predicate ObjectsOk(ts: seq<Target>, start: map<string, Bytes>, objects: map<string, Bytes>) {
    && (forall k | Filled(start, k) || !IsTarget(ts, k) ::
      (k in objects <==> k in start) && (k in start ==> objects[k] == start[k]))
    && (forall i | 0 <= i < |ts| ::
          || ((ts[i].key in objects <==> ts[i].key in start)
            && (ts[i].key in start ==> objects[ts[i].key] == start[ts[i].key]))
          || (ts[i].key in objects && ts[i].data == Some(objects[ts[i].key])))
  }

  /**
   A replica puts only what was missing or empty at the start; one without faults leaves nothing missing behind
   it.
   */
  ghost predicate ReplicaOk(ts: seq<Target>, start: map<string, Bytes>, objects: map<string, Bytes>, me: Replica) {
    && me.pos <= |ts|
    && (me.putting ==> me.pos < |ts| && ts[me.pos].data.Some? && !Filled(start, ts[me.pos].key))
    && (me.errs == 0 && me.statFaults == 0 ==> forall i | 0 <= i < me.pos :: Filled(objects, ts[i].key))
  }

  ghost predicate Inv(ts: seq<Target>, start: map<string, Bytes>, w: World) {
    ObjectsOk(ts, start, w.objects) && forall r | r in w.replicas :: ReplicaOk(ts, start, w.objects, w.replicas[r])
  }

  lemma PutKeeps(ts: seq<Target>, start: map<string, Bytes>, objects: map<string, Bytes>, i: nat)
    requires Sound(ts) && ObjectsOk(ts, start, objects)
    requires i < |ts| && ts[i].data.Some? && !Filled(start, ts[i].key)
    ensures ObjectsOk(ts, start, objects[ts[i].key := ts[i].data.value])
    ensures forall me | ReplicaOk(ts, start, objects, me) ::
      ReplicaOk(ts, start, objects[ts[i].key := ts[i].data.value], me)
  {
  }

  lemma CalledKeeps(ts: seq<Target>, start: map<string, Bytes>, w: World, r: nat, ok: bool)
    requires Sound(ts) && Inv(ts, start, w)
    requires r in w.replicas && w.replicas[r].pos < |ts|
    ensures Inv(ts, start, Called(ts, w, r, ok))
  {
    var me := w.replicas[r];
    assert ReplicaOk(ts, start, w.objects, me);
    if me.putting && ok {
      PutKeeps(ts, start, w.objects, me.pos);
      hide ObjectsOk;
    } else {
      hide ObjectsOk;
      if Filled(start, ts[me.pos].key) { StaysFilled(ts, start, w.objects, ts[me.pos].key); }
    }
  }

  lemma StaysFilled(ts: seq<Target>, start: map<string, Bytes>, objects: map<string, Bytes>, k: string)
    requires ObjectsOk(ts, start, objects) && Filled(start, k)
    ensures Filled(objects, k) && objects[k] == start[k]
  {
  }

  lemma {:induction false} RunKeeps(ts: seq<Target>, start: map<string, Bytes>, w: World, es: seq<Event>)
    requires Sound(ts) && Inv(ts, start, w)
    ensures Inv(ts, start, Run(ts, w, es))
    decreases |es|
  {
    hide Called, ObjectsOk;
    if es == [] {
    } else {
      var front := es[..|es| - 1];
      RunKeeps(ts, start, w, front);
      match es[|es| - 1]
      case Call(r, ok) =>
        if r in Run(ts, w, front).replicas && Run(ts, w, front).replicas[r].pos < |ts| {
          CalledKeeps(ts, start, Run(ts, w, front), r, ok);
        }
      case _ =>
    }
  }

  lemma StartOk(ts: seq<Target>, start: map<string, Bytes>)
    ensures Inv(ts, start, World(start, map[]))
  {
  }

  // ---------- convergence ----------

  /**
   Convergence: whatever the replicas do and in whatever order, an object that was there and not empty is never
   overwritten, objects that are no targets are never touched, and every target is as it was at the start or is its
   deterministic render.
   */
  lemma Convergence(ts: seq<Target>, start: map<string, Bytes>, es: seq<Event>)
    requires Sound(ts)
    ensures ObjectsOk(ts, start, Run(ts, World(start, map[]), es).objects)
  {
    hide ObjectsOk, Sound;
    StartOk(ts, start);
    RunKeeps(ts, start, World(start, map[]), es);
  }

  ghost predicate AllFilled(ts: seq<Target>, objects: map<string, Bytes>) {
    forall i | 0 <= i < |ts| :: Filled(objects, ts[i].key)
  }

  /** One replica that comes to its end without an error and without a failed stat has everything in place. */
  lemma CleanReplicaCompletes(ts: seq<Target>, start: map<string, Bytes>, es: seq<Event>, r: nat)
    requires Sound(ts)
    requires var w := Run(ts, World(start, map[]), es);
      r in w.replicas && w.replicas[r] == Replica(|ts|, false, 0, 0)
    ensures AllFilled(ts, Run(ts, World(start, map[]), es).objects)
  {
    hide ObjectsOk, Sound, Run;
    StartOk(ts, start);
    RunKeeps(ts, start, World(start, map[]), es);
    assert ReplicaOk(ts, start, Run(ts, World(start, map[]), es).objects, Replica(|ts|, false, 0, 0));
  }

  lemma SettledStep(ts: seq<Target>, start: map<string, Bytes>, w: World, e: Event, r: nat)
    requires Sound(ts) && Inv(ts, start, w) && AllFilled(ts, w.objects)
    ensures Apply(ts, w, e).objects == w.objects
    ensures (r in w.replicas ==> !w.replicas[r].putting)
      ==> (r in Apply(ts, w, e).replicas ==> !Apply(ts, w, e).replicas[r].putting)
  {
    if e.Call? && e.r in w.replicas && w.replicas[e.r].pos < |ts| {
      var me := w.replicas[e.r];
      assert ReplicaOk(ts, start, w.objects, me);
      var t := ts[me.pos];
      assert Filled(w.objects, t.key);
      if me.putting && e.ok {
        SettledValue(ts, start, w.objects, me.pos);
        assert w.objects[t.key := t.data.value] == w.objects;
      }
      hide ObjectsOk;
    }
  }

  /** What fills a target that was missing or empty is its own bytes, so putting them again changes nothing. */
  lemma SettledValue(ts: seq<Target>, start: map<string, Bytes>, objects: map<string, Bytes>, i: nat)
    requires ObjectsOk(ts, start, objects)
    requires i < |ts| && Filled(objects, ts[i].key) && !Filled(start, ts[i].key)
    ensures ts[i].data == Some(objects[ts[i].key])
  {
  }

  /**
   Once every target is in place the store never changes again, and no replica that is not in the middle of a put
   ever begins one: a second pass over the targets does no puts at all.
   */
  lemma {:induction false} SettledForGood(ts: seq<Target>, start: map<string, Bytes>, es: seq<Event>, fs: seq<Event>,
                                          r: nat)
    requires Sound(ts)
    requires var w := Run(ts, World(start, map[]), es);
      AllFilled(ts, w.objects) && (r in w.replicas ==> !w.replicas[r].putting)
    ensures var w, v := Run(ts, World(start, map[]), es), Run(ts, World(start, map[]), es + fs);
      v.objects == w.objects && (r in v.replicas ==> !v.replicas[r].putting)
    decreases |fs|
  {
    hide ObjectsOk, Sound, Apply, AllFilled;
    if fs == [] {
      assert es + fs == es;
    } else {
      var front := fs[..|fs| - 1];
      SettledForGood(ts, start, es, front, r);
      assert (es + fs)[..|es + fs| - 1] == es + front;
      StartOk(ts, start);
      RunKeeps(ts, start, World(start, map[]), es + front);
      SettledStep(ts, start, Run(ts, World(start, map[]), es + front), fs[|fs| - 1], r);
    }
  }

  // ---------- one replica alone ----------

  /** The calls of the first n targets: a stat, and a put when the stat finds the object missing or empty. */
  function Calls(ts: seq<Target>, objects: map<string, Bytes>, calls: Placeholder.Calls, n: nat, r: nat): seq<Event>
    requires n <= |ts|
  {
    if n == 0 then []
    else
      var t := ts[n - 1];
      Calls(ts, objects, calls, n - 1, r) + [Call(r, calls.stat(n - 1))]
      + (if calls.stat(n - 1) && !Filled(Ensured(ts, objects, calls, n - 1).0, t.key)
        && t.data.Some? then [Call(r, calls.put(n - 1))] else [])
  }

  function Faults(calls: Placeholder.Calls, n: nat): nat {
    if n == 0 then 0 else Faults(calls, n - 1) + (if calls.stat(n - 1) then 0 else 1)
  }

  /** Target i is put: it can be looked at, is missing or empty, can be encoded, and the put works. */
  predicate IsPut(ts: seq<Target>, objects: map<string, Bytes>, calls: Placeholder.Calls, i: nat)
    requires i < |ts|
  {
    calls.stat(i) && (ts[i].key !in objects || objects[ts[i].key] == []) && ts[i].data.Some? && calls.put(i)
  }

  /** Target i is an error: it would be put, but cannot be encoded, or the put fails. */
  predicate IsError(ts: seq<Target>, objects: map<string, Bytes>, calls: Placeholder.Calls, i: nat)
    requires i < |ts|
  {
    calls.stat(i) && (ts[i].key !in objects || objects[ts[i].key] == []) && !(ts[i].data.Some? && calls.put(i))
  }

  /** The object under k is what it was. */
  predicate Same(was: map<string, Bytes>, now: map<string, Bytes>, k: string) {
    (k in now <==> k in was) && (k in was ==> now[k] == was[k])
  }

  /**
   What one replica alone leaves of its first n targets: those it puts hold their bytes, and everything else is as it
   was.
   */
  lemma {:induction false} EnsuredAt(ts: seq<Target>, objects: map<string, Bytes>, calls: Placeholder.Calls, n: nat,
                                     k: string)
    requires n <= |ts| && Sound(ts)
    ensures var after := Ensured(ts, objects, calls, n).0;
      && (forall i | 0 <= i < n && ts[i].key == k && IsPut(ts, objects, calls, i) ::
            k in after && ts[i].data == Some(after[k]))
      && ((forall i | 0 <= i < n && IsPut(ts, objects, calls, i) :: ts[i].key != k) ==> Same(objects, after, k))
  {
    if n > 0 {
      EnsuredAt(ts, objects, calls, n - 1, k);
      EnsuredAt(ts, objects, calls, n - 1, ts[n - 1].key);
    }
  }

  function Errors(ts: seq<Target>, objects: map<string, Bytes>, calls: Placeholder.Calls, n: nat): (es: set<nat>)
    requires n <= |ts|
    ensures forall i: nat :: i in es <==> i < n && IsError(ts, objects, calls, i)
  {
    if n == 0 then {}
    else Errors(ts, objects, calls, n - 1) + if IsError(ts, objects, calls, n - 1) then {n - 1} else {}
  }

  lemma NoneEnsured(ts: seq<Target>, objects: map<string, Bytes>, calls: Placeholder.Calls)
    ensures Ensured(ts, objects, calls, 0).1 == 0
  {
  }

  /** A target is found as it was at the start. */
  lemma SameBefore(ts: seq<Target>, objects: map<string, Bytes>, calls: Placeholder.Calls, n: nat)
    requires n < |ts| && Sound(ts)
    ensures Same(objects, Ensured(ts, objects, calls, n).0, ts[n].key)
  {
    hide Ensured, Same;
    EnsuredAt(ts, objects, calls, n, ts[n].key);
  }

  lemma OneEnsured(ts: seq<Target>, objects: map<string, Bytes>, calls: Placeholder.Calls, n: nat)
    requires n < |ts| && Same(objects, Ensured(ts, objects, calls, n).0, ts[n].key)
    ensures Ensured(ts, objects, calls, n + 1).1
      == Ensured(ts, objects, calls, n).1 + if IsError(ts, objects, calls, n) then 1 else 0
  {
  }

  /** And it reports one error for each target that should have been put and was not. */
  lemma {:induction false} EnsuredErrors(ts: seq<Target>, objects: map<string, Bytes>, calls: Placeholder.Calls, n: nat)
    requires n <= |ts| && Sound(ts)
    ensures Ensured(ts, objects, calls, n).1 == |Errors(ts, objects, calls, n)|
  {
    hide Ensured, IsError, IsPut, Same, Sound;
    if n == 0 {
      NoneEnsured(ts, objects, calls);
    } else {
      EnsuredErrors(ts, objects, calls, n - 1);
      SameBefore(ts, objects, calls, n - 1);
      OneEnsured(ts, objects, calls, n - 1);
      assert n - 1 !in Errors(ts, objects, calls, n - 1);
    }
  }

  lemma RunThen(ts: seq<Target>, w: World, es: seq<Event>, e: Event)
    ensures Run(ts, w, es + [e]) == Apply(ts, Run(ts, w, es), e)
  {
    hide Apply;
    assert (es + [e])[..|es + [e]| - 1] == es;
  }

  /** ensureInS3 on its own is a run of the replicas' events, so convergence and settling are true of it. */
  lemma {:induction false} EnsureIsARun(ts: seq<Target>, objects: map<string, Bytes>, calls: Placeholder.Calls, n: nat,
                                        r: nat)
    requires n <= |ts|
    ensures Run(ts, World(objects, map[r := Replica(0, false, 0, 0)]), Calls(ts, objects, calls, n, r))
         == World(Ensured(ts, objects, calls, n).0,
           map[r := Replica(n, false, Ensured(ts, objects, calls, n).1, Faults(calls, n))])
  {
    hide Run;
    var w := World(objects, map[r := Replica(0, false, 0, 0)]);
    if n == 0 {
      RunNone(ts, w);
    } else {
      EnsureIsARun(ts, objects, calls, n - 1, r);
      var before := Calls(ts, objects, calls, n - 1, r);
      RunThen(ts, w, before, Call(r, calls.stat(n - 1)));
      RunThen(ts, w, before + [Call(r, calls.stat(n - 1))], Call(r, calls.put(n - 1)));
      assert before + [Call(r, calls.stat(n - 1))] + [] == before + [Call(r, calls.stat(n - 1))];
      OneTarget(ts,
        World(Ensured(ts, objects, calls, n - 1).0,
          map[r := Replica(n - 1, false, Ensured(ts, objects, calls, n - 1).1, Faults(calls, n - 1))]),
                r, calls.stat(n - 1), calls.put(n - 1));
    }
  }

  lemma RunNone(ts: seq<Target>, w: World)
    ensures Run(ts, w, []) == w
  {
  }

  /** What the one or two calls at a target amount to. */
  lemma OneTarget(ts: seq<Target>, w: World, r: nat, stat: bool, put: bool)
    requires r in w.replicas && w.replicas == map[r := w.replicas[r]] && !w.replicas[r].putting
      && w.replicas[r].pos < |ts|
    ensures var me := w.replicas[r];
      var t := ts[me.pos];
      var first := Apply(ts, w, Call(r, stat));
      var last := if stat && !Filled(w.objects, t.key) && t.data.Some? then Apply(ts, first, Call(r, put)) else first;
      last == World(if stat && !Filled(w.objects, t.key) && t.data.Some? && put then w.objects[t.key := t.data.value]
        else w.objects,
                    map[r := Replica(me.pos + 1, false,
                                     me.errs + (if stat && !Filled(w.objects, t.key) && (t.data.None? || !put) then 1
                                       else 0),
                                     me.statFaults + (if stat then 0 else 1))])
  {
  }
}
