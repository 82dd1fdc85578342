/** A thumbnail job on its own is a run of the lifecycle's events, so what is proved of all runs is true of it. */
module JobRuns {
  import opened Wrappers
  import opened Keys
  import opened Catalogs
  import opened Rendering
  import opened Avatars
  import opened Lifecycle
  import opened Invariants
  import opened Handlers
  import opened Jobs

  /** One call of the job on message m; only a removal names a key, and only a publish a message. */
  function Call(m: MsgId, ok: bool): Event {
    JobCall(m, ok, PlaceholderOriginal(""), 0)
  }

  function Puts(m: MsgId, n: nat): seq<Event> {
    if n == 0 then [] else Puts(m, n - 1) + [Call(m, true)]
  }

  function Removals(cfg: Config, m: MsgId, id: Id, n: nat, calls: JobCalls): seq<Event>
    requires n <= |ThePlan(cfg)|
  {
    if n == 0 then []
      else Removals(cfg, m, id, n - 1, calls) + [JobCall(m, calls.remove(n - 1), PlanKey(cfg, id, n - 1), 0)]
  }

  /** The deferred rollback: the removals, the end of the loop, and the status. */
  function RollbackEvents(cfg: Config, m: MsgId, id: Id, n: nat, calls: JobCalls): seq<Event>
    requires n <= |ThePlan(cfg)|
  {
    Removals(cfg, m, id, n, calls) + [Call(m, true), Call(m, calls.mark)]
  }

  /** From s the job on m has come to pc, and to these rows and objects; all else but its own place is as it was. */
  predicate Reached(s: State, t: State, m: MsgId, pc: JobPc, rows: map<Id, Avatar>, objects: map<ObjectKey, Bytes>) {
    && m in t.jobs && t.jobs[m] == pc && t.jobs.Keys == s.jobs.Keys
      && (forall x | x in s.jobs && x != m :: t.jobs[x] == s.jobs[x])
    && t.rows == rows && t.objects == objects
    && t.uploads == s.uploads && t.deletes == s.deletes
    && t.uploaders == s.uploaders && t.deleters == s.deleters && t.cleaners == s.cleaners
  }

  lemma RunThen(cfg: Config, s: State, es: seq<Event>, e: Event)
    ensures Run(cfg, s, es + [e]) == Apply(cfg, Run(cfg, s, es), e)
  {
    hide Apply;
    assert (es + [e])[..|es + [e]| - 1] == es;
  }

  lemma JobMoves(cfg: Config, s: State, m: MsgId, ok: bool, pick: ObjectKey)
    requires m in s.jobs && m in s.uploads
    ensures Apply(cfg, s, JobCall(m, ok, pick, 0)) == JobStep(cfg, s, m, ok, pick, 0)
  {
    hide JobStep;
  }

  // ---------- the nested loops ----------

  lemma PutMove(cfg: Config, s: State, m: MsgId, n: nat, img: Image)
    requires m in s.jobs && m in s.uploads && s.jobs[m] == Filling(n, img)
    requires n < |ThePlan(cfg)| && NextThumbnail(cfg, n, img).Some?
    ensures Reached(s, JobStep(cfg, s, m, true, PlaceholderOriginal(""), 0), m, Filling(n + 1, img), s.rows,
                    s.objects[PlanKey(cfg, s.uploads[m].id, n) := NextThumbnail(cfg, n, img).value])
  {
    hide Plan, PlanKeys, JobAt, JobRead, JobLoad, RowCompleted, RowFailed, UploadRequeued, UploadAcked;
  }

  lemma {:induction false} PutRun(cfg: Config, s: State, m: MsgId, img: Image, n: nat)
    requires m in s.jobs && m in s.uploads && s.jobs[m] == Filling(0, img)
    requires n <= |ThePlan(cfg)| && forall i | 0 <= i < n :: NextThumbnail(cfg, i, img).Some?
    ensures Reached(s, Run(cfg, s, Puts(m, n)), m, Filling(n, img), s.rows,
      WithThumbnails(cfg, s.uploads[m].id, img, s.objects, n))
  {
    hide Plan, ThePlan, JobStep, Apply, Run, NextThumbnail, PlanKey;
    if n == 0 {
      RunNone(cfg, s);
    } else {
      PutRun(cfg, s, m, img, n - 1);
      var t := Run(cfg, s, Puts(m, n - 1));
      RunThen(cfg, s, Puts(m, n - 1), Call(m, true));
      JobMoves(cfg, t, m, true, PlaceholderOriginal(""));
      PutMove(cfg, t, m, n - 1, img);
    }
  }

  // ---------- the rollback ----------

  /** The uploaded keys the rollback has not visited yet. */
  function Remaining(cfg: Config, id: Id, from: nat, n: nat): set<ObjectKey>
    requires n <= |ThePlan(cfg)|
  {
    set i | from <= i < n :: PlanKey(cfg, id, i)
  }

  lemma NextRemoval(cfg: Config, id: Id, from: nat, n: nat)
    requires ValidCatalog(cfg.catalog)
    requires from < n <= |ThePlan(cfg)|
    ensures PlanKey(cfg, id, from) in Remaining(cfg, id, from, n)
    ensures Remaining(cfg, id, from, n) - {PlanKey(cfg, id, from)} == Remaining(cfg, id, from + 1, n)
  {
    hide Plan;
    forall i | from < i < n
      ensures PlanKey(cfg, id, i) != PlanKey(cfg, id, from)
    {
      PlanDistinct(cfg.catalog.sizes, from, i);
    }
  }

  lemma RemovalMove(cfg: Config, s: State, m: MsgId, ok: bool, todo: set<ObjectKey>, k: ObjectKey)
    requires m in s.jobs && m in s.uploads && s.jobs[m] == RollingBack(todo) && k in todo
    ensures Reached(s, JobStep(cfg, s, m, ok, k, 0), m, RollingBack(todo - {k}), s.rows, if ok then s.objects - {k}
      else s.objects)
  {
    hide Plan, PlanKeys, JobAt, JobRead, JobLoad, JobPut, RowCompleted, RowFailed, UploadRequeued, UploadAcked;
  }

  lemma {:induction false} RemovalRun(cfg: Config, s: State, m: MsgId, n: nat, i: nat, calls: JobCalls)
    requires ValidCatalog(cfg.catalog)
    requires i <= n <= |ThePlan(cfg)|
    requires m in s.jobs && m in s.uploads && s.jobs[m] == RollingBack(Remaining(cfg, s.uploads[m].id, 0, n))
    ensures Reached(s, Run(cfg, s, Removals(cfg, m, s.uploads[m].id, i, calls)), m,
      RollingBack(Remaining(cfg, s.uploads[m].id, i, n)),
                    s.rows, RolledBack(cfg, s.uploads[m].id, s.objects, i, calls))
    decreases i
  {
    hide Plan, ThePlan, JobStep, Apply, Run, PlanKey, Remaining, ValidCatalog;
    var id := s.uploads[m].id;
    if i == 0 {
      RunNone(cfg, s);
    } else {
      RemovalRun(cfg, s, m, n, i - 1, calls);
      var before := Removals(cfg, m, id, i - 1, calls);
      var t := Run(cfg, s, before);
      var k := PlanKey(cfg, id, i - 1);
      NextRemoval(cfg, id, i - 1, n);
      RunThen(cfg, s, before, JobCall(m, calls.remove(i - 1), k, 0));
      JobMoves(cfg, t, m, calls.remove(i - 1), k);
      RemovalMove(cfg, t, m, calls.remove(i - 1), Remaining(cfg, id, i - 1, n), k);
    }
  }

  lemma EndMove(cfg: Config, s: State, m: MsgId)
    requires m in s.jobs && m in s.uploads && s.jobs[m] == RollingBack({})
    ensures Reached(s, JobStep(cfg, s, m, true, PlaceholderOriginal(""), 0), m, MarkingFailed, s.rows, s.objects)
  {
    hide Plan, PlanKeys, ThumbnailRemoved, ThumbnailLeft, JobRead, JobLoad, JobPut, RowCompleted, RowFailed,
      UploadRequeued, UploadAcked;
  }

  lemma MarkMove(cfg: Config, s: State, m: MsgId, ok: bool)
    requires m in s.jobs && m in s.uploads && s.jobs[m] == MarkingFailed
    ensures var id := s.uploads[m].id;
      Reached(s, JobStep(cfg, s, m, ok, PlaceholderOriginal(""), 0), m, Requeueing,
              if ok && id in s.rows && !s.rows[id].deleted then s.rows[id := s.rows[id].(status := Failed)]
                else s.rows, s.objects)
  {
    hide Plan, PlanKeys, ThumbnailRemoved, ThumbnailLeft, JobRead, JobLoad, JobPut, RowCompleted, UploadRequeued,
      UploadAcked;
  }

  /** The rollback and the status it leaves. */
  lemma RollbackRun(cfg: Config, s: State, m: MsgId, n: nat, calls: JobCalls)
    requires ValidCatalog(cfg.catalog)
    requires n <= |ThePlan(cfg)|
    requires m in s.jobs && m in s.uploads && s.jobs[m] == RollingBack(Remaining(cfg, s.uploads[m].id, 0, n))
    ensures var id := s.uploads[m].id;
      Reached(s, Run(cfg, s, RollbackEvents(cfg, m, id, n, calls)), m, Requeueing,
              if calls.mark && id in s.rows && !s.rows[id].deleted then s.rows[id := s.rows[id].(status := Failed)]
                else s.rows,
              RolledBack(cfg, id, s.objects, n, calls))
  {
    hide Plan, ThePlan, JobStep, Apply, Run, PlanKey, ValidCatalog, Removals, RolledBack;
    var id := s.uploads[m].id;
    var removals := Removals(cfg, m, id, n, calls);
    RemovalRun(cfg, s, m, n, n, calls);
    assert Remaining(cfg, id, n, n) == {};
    var t := Run(cfg, s, removals);
    RunThen(cfg, s, removals, Call(m, true));
    JobMoves(cfg, t, m, true, PlaceholderOriginal(""));
    EndMove(cfg, t, m);
    var u := Run(cfg, s, removals + [Call(m, true)]);
    RunThen(cfg, s, removals + [Call(m, true)], Call(m, calls.mark));
    JobMoves(cfg, u, m, calls.mark, PlaceholderOriginal(""));
    MarkMove(cfg, u, m, calls.mark);
    assert removals + [Call(m, true)] + [Call(m, calls.mark)] == RollbackEvents(cfg, m, id, n, calls);
  }

  // ---------- the whole job ----------

  lemma AtReached(s: State, m: MsgId, pc: JobPc)
    requires m in s.jobs
    ensures Reached(s, JobAt(s, m, pc), m, pc, s.rows, s.objects)
  {
  }

  /** What a job does after it has read its row. */
  function Received(rows: map<Id, Avatar>, id: Id): JobPc {
    if Taken(rows, id) then Loading else if id in rows && rows[id].deleted then Acking(Dropped) else Acking(Finished)
  }

  lemma ReadMove(cfg: Config, s: State, m: MsgId, ok: bool)
    requires m in s.jobs && m in s.uploads && s.jobs[m] == Reading
    ensures Reached(s, JobStep(cfg, s, m, ok, PlaceholderOriginal(""), 0), m,
                    if !ok then Requeueing else Received(s.rows, s.uploads[m].id), s.rows, s.objects)
  {
    hide Reached, Plan, PlanKeys, JobAt, ThumbnailRemoved, ThumbnailLeft, JobLoad, JobPut, RowCompleted, RowFailed,
      UploadRequeued, UploadAcked;
    AtReached(s, m, Requeueing);
    AtReached(s, m, Loading);
    AtReached(s, m, Acking(Finished));
    AtReached(s, m, Acking(Dropped));
  }

  lemma LoadMove(cfg: Config, s: State, m: MsgId, ok: bool)
    requires m in s.jobs && m in s.uploads && s.jobs[m] == Loading
    ensures var key := s.uploads[m].key;
      Reached(s, JobStep(cfg, s, m, ok, PlaceholderOriginal(""), 0), m,
              if ok && key in s.objects && cfg.codec.decode(s.objects[key]).Some?
              then Filling(0, cfg.codec.decode(s.objects[key]).value) else RollingBack({}), s.rows, s.objects)
  {
    hide Reached, Plan, PlanKeys, JobAt, ThumbnailRemoved, ThumbnailLeft, JobRead, JobPut, RowCompleted, RowFailed,
      UploadRequeued, UploadAcked;
    AtReached(s, m, RollingBack({}));
    if s.uploads[m].key in s.objects && cfg.codec.decode(s.objects[s.uploads[m].key]).Some? {
      AtReached(s, m, Filling(0, cfg.codec.decode(s.objects[s.uploads[m].key]).value));
    }
  }

  lemma RemainingAreThePut(cfg: Config, id: Id, n: nat)
    requires n <= |ThePlan(cfg)|
    ensures PlanKeys(ThePlan(cfg), id, n) == Remaining(cfg, id, 0, n)
  {
    hide Plan;
    forall i | 0 <= i < n
      ensures PlanKey(cfg, id, i) in PlanKeys(ThePlan(cfg), id, n) && PlanKey(cfg, id, i) in Remaining(cfg, id, 0, n)
    {
    }
    forall k
      ensures k in PlanKeys(ThePlan(cfg), id, n) <==> k in Remaining(cfg, id, 0, n)
    {
      if k in PlanKeys(ThePlan(cfg), id, n) {
        var i :| 0 <= i < n && k == Thumbnail(id, ThePlan(cfg)[i].size, ThePlan(cfg)[i].format);
        assert k == PlanKey(cfg, id, i);
      }
    }
  }

  /** A failed put, an encoder that gives nothing, or a failed update: the rollback starts with the keys put so far. */
  lemma FailMove(cfg: Config, s: State, m: MsgId, n: nat, img: Image)
    requires m in s.jobs && m in s.uploads && s.jobs[m] == Filling(n, img) && n <= |ThePlan(cfg)|
    ensures Reached(s, JobStep(cfg, s, m, false, PlaceholderOriginal(""), 0), m,
                    RollingBack(Remaining(cfg, s.uploads[m].id, 0, n)), s.rows, s.objects)
  {
    hide Reached, Plan, JobAt, PlanKeys, Remaining, ThumbnailPut, ThumbnailRemoved, ThumbnailLeft, JobRead, JobLoad,
      RowCompleted, RowFailed, UploadRequeued, UploadAcked;
    RemainingAreThePut(cfg, s.uploads[m].id, n);
    AtReached(s, m, RollingBack(Remaining(cfg, s.uploads[m].id, 0, n)));
  }

  lemma CompleteMove(cfg: Config, s: State, m: MsgId, img: Image)
    requires m in s.jobs && m in s.uploads && s.jobs[m] == Filling(|ThePlan(cfg)|, img)
    requires Taken(s.rows, s.uploads[m].id)
    ensures var id := s.uploads[m].id;
      Reached(s, JobStep(cfg, s, m, true, PlaceholderOriginal(""), 0), m, Acking(Finished),
        s.rows[id := CompletedRow(cfg, s.rows[id], id, img)], s.objects)
  {
    hide Plan, PlanKeys, CompletedRow, ThumbnailRemoved, ThumbnailLeft, JobRead, JobLoad, JobPut, RowFailed,
      UploadRequeued, UploadAcked;
  }

  lemma FirstMove(cfg: Config, s: State, m: MsgId, ok: bool, es: seq<Event>)
    requires m in s.jobs && m in s.uploads
    ensures Run(cfg, s, [Call(m, ok)] + es) == Run(cfg, JobStep(cfg, s, m, ok, PlaceholderOriginal(""), 0), es)
  {
    hide Run, Apply, JobStep;
    RunFirst(cfg, s, Call(m, ok), es);
    JobMoves(cfg, s, m, ok, PlaceholderOriginal(""));
  }

  /** Where a job with this ending leaves its message: to be acknowledged, or to be published onwards. */
  function Outcome(rows: map<Id, Avatar>, id: Id, e: Ending): JobPc {
    if e.FailedAfter? then Requeueing else if e.Skipped? then Received(rows, id) else Acking(Finished)
  }

  /** From its first put on, the job's way to its ending. */
  function FillingEvents(cfg: Config, m: MsgId, id: Id, e: Ending, calls: JobCalls): seq<Event>
    requires e.Done? || (e.FailedAfter? && e.n <= |ThePlan(cfg)|)
  {
    if e.Done? then Puts(m, |ThePlan(cfg)|) + ([Call(m, true)] + [])
    else Puts(m, e.n) + ([Call(m, false)] + RollbackEvents(cfg, m, id, e.n, calls))
  }

  lemma FillingRun(cfg: Config, s: State, m: MsgId, e: Ending, img: Image, calls: JobCalls)
    requires ValidCatalog(cfg.catalog)
    requires m in s.jobs && m in s.uploads && s.jobs[m] == Filling(0, img)
    requires Taken(s.rows, s.uploads[m].id)
    requires e == match FirstFailure(cfg, img, calls, 0)
                  case Some(n) => FailedAfter(n, Some(img), true)
                  case None => if calls.update then Done(img) else FailedAfter(|ThePlan(cfg)|, Some(img), true)
    ensures var id := s.uploads[m].id;
      Reached(s, Run(cfg, s, FillingEvents(cfg, m, id, e, calls)), m, Outcome(s.rows, id, e),
        RowsAfter(cfg, s.rows, id, e, calls), ObjectsAfter(cfg, s.objects, id, e, calls))
  {
    hide Run, Apply, JobStep, Plan, ThePlan, NextThumbnail, PlanKey, Puts, RollbackEvents, Remaining,
      WithThumbnails, RolledBack, CompletedRow, ValidCatalog, FirstFailure;
    var id := s.uploads[m].id;
    var n := if e.Done? then |ThePlan(cfg)| else e.n;
    var t := Run(cfg, s, Puts(m, n));
    PutRun(cfg, s, m, img, n);
    if e.Done? {
      RunConcat(cfg, s, Puts(m, n), [Call(m, true)] + []);
      FirstMove(cfg, t, m, true, []);
      RunNone(cfg, JobStep(cfg, t, m, true, PlaceholderOriginal(""), 0));
      CompleteMove(cfg, t, m, img);
    } else {
      RunConcat(cfg, s, Puts(m, n), [Call(m, false)] + RollbackEvents(cfg, m, id, n, calls));
      FirstMove(cfg, t, m, false, RollbackEvents(cfg, m, id, n, calls));
      FailMove(cfg, t, m, n, img);
      RollbackRun(cfg, JobStep(cfg, t, m, false, PlaceholderOriginal(""), 0), m, n, calls);
    }
  }

  function JobEvents(cfg: Config, m: MsgId, id: Id, e: Ending, calls: JobCalls): (es: seq<Event>)
    requires e.FailedAfter? ==> e.n <= |ThePlan(cfg)|
    ensures es != []
  {
    match e
    case Skipped => [Call(m, true)] + []
    case Done(_) => [Call(m, true)] + ([Call(m, true)] + FillingEvents(cfg, m, id, e, calls))
    case FailedAfter(n, source, tracked) =>
      if !tracked then [Call(m, false)] + []
      else if source.None? then [Call(m, true)] + ([Call(m, calls.load)] + RollbackEvents(cfg, m, id, 0, calls))
      else [Call(m, true)] + ([Call(m, true)] + FillingEvents(cfg, m, id, e, calls))
  }

  /** Two stretches of a job make one. */
  lemma Onwards(s: State, t: State, m: MsgId)
    requires exists pc :: Reached(s, t, m, pc, s.rows, s.objects)
    ensures m in t.jobs && t.uploads == s.uploads && t.rows == s.rows && t.objects == s.objects
    ensures forall pc | Reached(s, t, m, pc, s.rows, s.objects) :: t.jobs[m] == pc
    ensures forall u, pc, rows, objects | Reached(t, u, m, pc, rows, objects) :: Reached(s, u, m, pc, rows, objects)
  {
  }

  lemma LoadingRun(cfg: Config, s: State, m: MsgId, e: Ending, calls: JobCalls)
    requires ValidCatalog(cfg.catalog)
    requires m in s.jobs && m in s.uploads && s.jobs[m] == Loading
    requires calls.read && Taken(s.rows, s.uploads[m].id)
    requires e == EndingOf(cfg, s.rows, s.objects, s.uploads[m].id, s.uploads[m].key, calls)
    ensures e.FailedAfter? ==> e.n <= |ThePlan(cfg)|
    ensures var id := s.uploads[m].id;
      Reached(s, Run(cfg, s, JobEvents(cfg, m, id, e, calls)[1..]), m, Outcome(s.rows, id, e),
        RowsAfter(cfg, s.rows, id, e, calls), ObjectsAfter(cfg, s.objects, id, e, calls))
  {
    hide Reached, Run, Apply, JobStep, Plan, ThePlan, FillingEvents, RollbackEvents, WithThumbnails, CompletedRow,
      ValidCatalog, FirstFailure;
    var id := s.uploads[m].id;
    LoadMove(cfg, s, m, calls.load);
    var t := JobStep(cfg, s, m, calls.load, PlaceholderOriginal(""), 0);
    Onwards(s, t, m);
    if e.FailedAfter? && e.source.None? {
      FirstMove(cfg, s, m, calls.load, RollbackEvents(cfg, m, id, 0, calls));
      assert Remaining(cfg, id, 0, 0) == {};
      RollbackRun(cfg, t, m, 0, calls);
    } else {
      FirstMove(cfg, s, m, true, FillingEvents(cfg, m, id, e, calls));
      FillingRun(cfg, t, m, e, t.jobs[m].img, calls);
    }
  }

  /**
   The job as the worker writes it, on its own, is the run JobEvents of the protocol: same rows, same objects, and
   its message left to be acknowledged exactly when the job reports no error.
   */
  lemma JobIsARun(cfg: Config, s: State, m: MsgId, calls: JobCalls)
    requires ValidCatalog(cfg.catalog)
    requires m in s.jobs && m in s.uploads && s.jobs[m] == Reading
    ensures var id := s.uploads[m].id;
      var e := EndingOf(cfg, s.rows, s.objects, id, s.uploads[m].key, calls);
      && (e.FailedAfter? ==> e.n <= |ThePlan(cfg)|)
      && Reached(s, Run(cfg, s, JobEvents(cfg, m, id, e, calls)), m, Outcome(s.rows, id, e),
        RowsAfter(cfg, s.rows, id, e, calls), ObjectsAfter(cfg, s.objects, id, e, calls))
  {
    hide Run, Apply, JobStep, Plan, ThePlan, FillingEvents, RollbackEvents, WithThumbnails, CompletedRow,
      RolledBack, ValidCatalog, FirstFailure;
    var id := s.uploads[m].id;
    var e := EndingOf(cfg, s.rows, s.objects, id, s.uploads[m].key, calls);
    ReadMove(cfg, s, m, calls.read);
    var t := JobStep(cfg, s, m, calls.read, PlaceholderOriginal(""), 0);
    var rest := JobEvents(cfg, m, id, e, calls)[1..];
    assert JobEvents(cfg, m, id, e, calls) == [Call(m, calls.read)] + rest;
    FirstMove(cfg, s, m, calls.read, rest);
    if calls.read && Taken(s.rows, id) {
      LoadingRun(cfg, t, m, e, calls);
    } else {
      RunNone(cfg, t);
    }
  }

  // ---------- the cleanup job ----------

  /** The removals of the first n keys, one call each. */
  function CleanCalls(m: MsgId, keys: seq<ObjectKey>, remove: nat -> bool, n: nat): seq<Event>
    requires n <= |keys|
  {
    if n == 0 then [] else CleanCalls(m, keys, remove, n - 1) + [CleanCall(m, remove(n - 1), keys[n - 1], 0)]
  }

  /** The keys the loop has not tried yet. */
  function Untried(keys: seq<ObjectKey>, n: nat): set<ObjectKey>
    requires n <= |keys|
  {
    set k | k in keys[n..]
  }

  function Cleaned(objects: map<ObjectKey, Bytes>, keys: seq<ObjectKey>, remove: nat -> bool,
                   n: nat): map<ObjectKey, Bytes>
    requires n <= |keys|
  {
    if n == 0 then objects
    else
      var before := Cleaned(objects, keys, remove, n - 1);
      if remove(n - 1) then before - {keys[n - 1]} else before
  }

  predicate AnyFailed(remove: nat -> bool, n: nat) {
    exists i | 0 <= i < n :: !remove(i)
  }

  predicate CleanerReached(s: State, t: State, m: MsgId, pc: CleanPc, objects: map<ObjectKey, Bytes>) {
    && m in t.cleaners && t.cleaners[m] == pc
    && t.objects == objects && t.rows == s.rows && t.uploads == s.uploads && t.deletes == s.deletes
  }

  lemma CleanMoves(cfg: Config, s: State, m: MsgId, ok: bool, pick: ObjectKey)
    requires m in s.cleaners && m in s.deletes
    ensures Apply(cfg, s, CleanCall(m, ok, pick, 0)) == CleanStep(cfg, s, m, ok, pick, 0)
  {
    hide CleanStep;
  }

  lemma CleanMove(cfg: Config, s: State, m: MsgId, ok: bool, todo: set<ObjectKey>, failed: bool, k: ObjectKey)
    requires m in s.cleaners && m in s.deletes && s.cleaners[m] == Cleaning(todo, failed) && k in todo
    ensures CleanerReached(s, CleanStep(cfg, s, m, ok, k, 0), m, Cleaning(todo - {k}, failed || !ok), if ok
      then s.objects - {k} else s.objects)
  {
    hide DeleteForwarded, DeleteSettled, DeleteForward;
  }

  lemma CleanEnd(cfg: Config, s: State, m: MsgId, failed: bool)
    requires m in s.cleaners && m in s.deletes && s.cleaners[m] == Cleaning({}, failed)
    ensures CleanerReached(s, CleanStep(cfg, s, m, true, PlaceholderOriginal(""), 0), m, if failed then Forwarding
      else Settling(Finished), s.objects)
  {
    hide DeleteForwarded, DeleteSettled, DeleteForward, KeyCleaned;
  }

  lemma NextUntried(keys: seq<ObjectKey>, n: nat)
    requires n < |keys| && forall i, j | 0 <= i < j < |keys| :: keys[i] != keys[j]
    ensures keys[n] in Untried(keys, n) && Untried(keys, n) - {keys[n]} == Untried(keys, n + 1)
  {
    assert keys[n..] == [keys[n]] + keys[n + 1..];
    assert keys[n] !in keys[n + 1..];
  }

  lemma {:induction false} CleanRun(cfg: Config, s: State, m: MsgId, keys: seq<ObjectKey>, remove: nat -> bool, n: nat)
    requires n <= |keys| && forall i, j | 0 <= i < j < |keys| :: keys[i] != keys[j]
    requires m in s.cleaners && m in s.deletes && s.cleaners[m] == Cleaning(Untried(keys, 0), false)
    ensures CleanerReached(s, Run(cfg, s, CleanCalls(m, keys, remove, n)), m,
      Cleaning(Untried(keys, n), AnyFailed(remove, n)), Cleaned(s.objects, keys, remove, n))
  {
    hide Run, Apply, CleanStep, Untried;
    if n == 0 {
      RunNone(cfg, s);
    } else {
      CleanRun(cfg, s, m, keys, remove, n - 1);
      var before := CleanCalls(m, keys, remove, n - 1);
      var t := Run(cfg, s, before);
      NextUntried(keys, n - 1);
      RunThen(cfg, s, before, CleanCall(m, remove(n - 1), keys[n - 1], 0));
      CleanMoves(cfg, t, m, remove(n - 1), keys[n - 1]);
      CleanMove(cfg, t, m, remove(n - 1), Untried(keys, n - 1), AnyFailed(remove, n - 1), keys[n - 1]);
    }
  }

  /**
   ProcessAvatarDelete on its own is a run of the protocol: the objects left are those not listed and those whose
   removal failed, and the message is settled exactly when no removal did.
   */
  lemma CleanIsARun(cfg: Config, s: State, m: MsgId, keys: seq<ObjectKey>, remove: nat -> bool, k: ObjectKey)
    requires forall i, j | 0 <= i < j < |keys| :: keys[i] != keys[j]
    requires m in s.cleaners && m in s.deletes && s.cleaners[m] == Cleaning(set x | x in keys, false)
    ensures var t := Run(cfg, s,
      CleanCalls(m, keys, remove, |keys|) + [CleanCall(m, true, PlaceholderOriginal(""), 0)]);
      && CleanerReached(s, t, m, if forall i | 0 <= i < |keys| ::
        remove(i) then Settling(Finished) else Forwarding, t.objects)
      && (k in t.objects <==> k in s.objects && forall i | 0 <= i < |keys| && keys[i] == k :: !remove(i))
      && (k in t.objects ==> t.objects[k] == s.objects[k])
  {
    hide Run, Apply, CleanStep, CleanCalls, Cleaned;
    var calls := CleanCalls(m, keys, remove, |keys|);
    assert keys[0..] == keys;
    CleanRun(cfg, s, m, keys, remove, |keys|);
    var t := Run(cfg, s, calls);
    RunThen(cfg, s, calls, CleanCall(m, true, PlaceholderOriginal(""), 0));
    CleanMoves(cfg, t, m, true, PlaceholderOriginal(""));
    CleanEnd(cfg, t, m, AnyFailed(remove, |keys|));
    CleanedAt(s.objects, keys, remove, |keys|, k);
  }

  lemma {:induction false} CleanedAt(objects: map<ObjectKey, Bytes>, keys: seq<ObjectKey>, remove: nat -> bool, n: nat,
                                     k: ObjectKey)
    requires n <= |keys|
    ensures var after := Cleaned(objects, keys, remove, n);
      && (k in after <==> k in objects && forall i | 0 <= i < n && keys[i] == k :: !remove(i))
      && (k in after ==> after[k] == objects[k])
  {
    if n == 0 {
    } else {
      CleanedAt(objects, keys, remove, n - 1, k);
    }
  }
}
