/** Reachable states: those at the end of a chain of events from the empty system. */
module Reachability {
  import opened Lifecycle
  import opened Invariants
  import opened Preservation

  ghost predicate Follows(cfg: Config, s: State, t: State) {
    exists e: Event :: t == Apply(cfg, s, e)
  }

  ghost predicate Chain(cfg: Config, s: State, ss: seq<State>) {
    ss != [] && ss[0] == s && forall i | 0 <= i < |ss| - 1 :: Follows(cfg, ss[i], ss[i + 1])
  }

  /** t can come after s. */
  ghost predicate LeadsTo(cfg: Config, s: State, t: State) {
    exists ss: seq<State> :: Chain(cfg, s, ss) && ss[|ss| - 1] == t
  }

  ghost predicate Reachable(cfg: Config, s: State) {
    LeadsTo(cfg, EMPTY, s)
  }

  lemma {:induction false} ChainIsARun(cfg: Config, s: State, ss: seq<State>) returns (es: seq<Event>)
    requires Chain(cfg, s, ss)
    ensures Run(cfg, s, es) == ss[|ss| - 1]
    decreases |ss|
  {
    hide Apply;
    if |ss| == 1 {
      es := [];
    } else {
      var front := ss[..|ss| - 1];
      assert forall i | 0 <= i < |front| :: front[i] == ss[i];
      assert forall i | 0 <= i < |front| - 1 :: Follows(cfg, ss[i], ss[i + 1]);
      var before := ChainIsARun(cfg, s, front);
      assert Follows(cfg, ss[|ss| - 2], ss[|ss| - 2 + 1]);
      var e :| ss[|ss| - 1] == Apply(cfg, ss[|ss| - 2], e);
      es := before + [e];
      assert es[..|es| - 1] == before;
    }
  }

  lemma {:induction false} RunIsAChain(cfg: Config, s: State, es: seq<Event>) returns (ss: seq<State>)
    ensures Chain(cfg, s, ss) && ss[|ss| - 1] == Run(cfg, s, es)
    decreases |es|
  {
    hide Apply;
    if es == [] {
      ss := [s];
    } else {
      var before := RunIsAChain(cfg, s, es[..|es| - 1]);
      ss := before + [Run(cfg, s, es)];
      assert Follows(cfg, before[|before| - 1], Run(cfg, s, es));
      assert forall i | 0 <= i < |before| - 1 :: Follows(cfg, before[i], before[i + 1]);
    }
  }

  /** The states that follow s are those its runs end in. */
  lemma LeadsToIffRun(cfg: Config, s: State, t: State)
    ensures LeadsTo(cfg, s, t) <==> exists es: seq<Event> :: Run(cfg, s, es) == t
  {
    hide Run;
    if LeadsTo(cfg, s, t) {
      var ss: seq<State> :| Chain(cfg, s, ss) && ss[|ss| - 1] == t;
      var es := ChainIsARun(cfg, s, ss);
    }
    if es: seq<Event> :| Run(cfg, s, es) == t {
      var ss := RunIsAChain(cfg, s, es);
    }
  }

  /** Every interleaving of the four actors, under every outcome of every call, is in good order. */
  lemma ReachableInv(cfg: Config, s: State)
    requires Reachable(cfg, s)
    ensures Inv(cfg, s)
  {
    hide Run, Inv, LeadsTo;
    LeadsToIffRun(cfg, EMPTY, s);
    var es: seq<Event> :| Run(cfg, EMPTY, es) == s;
    EmptyInv(cfg);
    RunKeeps(cfg, EMPTY, es);
  }

  lemma LeadsToInv(cfg: Config, s: State, t: State)
    requires Inv(cfg, s) && LeadsTo(cfg, s, t)
    ensures Inv(cfg, t)
  {
    hide Run, Inv, LeadsTo;
    LeadsToIffRun(cfg, s, t);
    var es: seq<Event> :| Run(cfg, s, es) == t;
    RunKeeps(cfg, s, es);
  }
}
