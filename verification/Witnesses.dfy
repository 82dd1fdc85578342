/**
 Why the guarantees carry exceptions: histories in which every job succeeds and no compensation fails, and which
 all the same end in a state the exceptions describe.
 */
module Witnesses {
  import opened Wrappers
  import opened Keys
  import opened Catalogs
  import opened Rendering
  import opened Avatars
  import opened Lifecycle
  import opened Invariants
  import opened Handlers
  import opened Jobs
  import opened JobRuns

  /** One avatar, its upload message 0, and delete handler 0. */
  predicate Scene(s: State, id: Id, row: Avatar, uploads: map<MsgId, UploadMsg>, deleters: map<nat, Deleter>,
                  jobs: map<MsgId, JobPc>) {
    && s.rows == map[id := row] && s.uploads == uploads && s.deleters == deleters && s.jobs == jobs
    && s.uploaders == map[] && s.deletes == map[] && s.cleaners == map[]
  }

  const ALL_WELL := UploadCalls(true, true, true, true, true, true)

  lemma Uploaded(cfg: Config, id: Id, user: string, mime: string, body: Bytes, created: int)
    ensures var b := Birth(user, mime, OriginalKeyFor(user, id, mime), body, created);
      var s := Run(cfg, EMPTY, UploadEvents(id, user, mime, body, created, 0, ALL_WELL));
      && Scene(s, id, NewRow(b), map[0 := UploadMsg(id, b.key, 0, Main)], map[], map[])
      && s.objects == map[b.key := b.body]
  {
    hide Run, OriginalKeyFor, UploadEvents;
    UploadIsARun(cfg, EMPTY, id, user, mime, body, created, 0, ALL_WELL);
  }

  lemma RunSteps(cfg: Config, s: State, es: seq<Event>)
    ensures Run(cfg, s, es[..0]) == s
    ensures forall n: nat | n < |es| :: Run(cfg, s, es[..n + 1]) == Apply(cfg, Run(cfg, s, es[..n]), es[n])
  {
    hide Apply;
    assert forall n: nat | n < |es| :: es[..n + 1][..n] == es[..n];
  }

  // ---------- a job drops its message, and the row comes back ----------

  lemma DeleteBegins(cfg: Config, s: State, id: Id, row: Avatar, uploads: map<MsgId, UploadMsg>)
    requires Scene(s, id, row, uploads, map[], map[]) && !row.deleted
    ensures Scene(Apply(cfg, s, StartDelete(0, id, row.user)), id, row, uploads,
      map[0 := Deleter(id, AllKeys(row), SoftDeleting)], map[])
    ensures Apply(cfg, s, StartDelete(0, id, row.user)).objects == s.objects
  {
    hide AllKeys;
  }

  lemma RowIsMarked(cfg: Config, s: State, id: Id, row: Avatar, uploads: map<MsgId, UploadMsg>, keys: set<ObjectKey>)
    requires Scene(s, id, row, uploads, map[0 := Deleter(id, keys, SoftDeleting)], map[]) && !row.deleted
    ensures Scene(Apply(cfg, s, DeleteCall(0, true, 0)), id, row.(deleted := true), uploads,
      map[0 := Deleter(id, keys, Announcing)], map[])
    ensures Apply(cfg, s, DeleteCall(0, true, 0)).objects == s.objects
  {
    hide AllKeys;
  }

  lemma JobBegins(cfg: Config, s: State, id: Id, row: Avatar, key: ObjectKey, deleters: map<nat, Deleter>)
    requires Scene(s, id, row, map[0 := UploadMsg(id, key, 0, Main)], deleters, map[])
    ensures Scene(Apply(cfg, s, DeliverUpload(0)), id, row, map[0 := UploadMsg(id, key, 0, InFlight)], deleters,
      map[0 := Reading])
    ensures Apply(cfg, s, DeliverUpload(0)).objects == s.objects
  {
  }

  lemma JobSeesMark(cfg: Config, s: State, id: Id, row: Avatar, key: ObjectKey, deleters: map<nat, Deleter>)
    requires Scene(s, id, row, map[0 := UploadMsg(id, key, 0, InFlight)], deleters, map[0 := Reading]) && row.deleted
    ensures Scene(Apply(cfg, s, Call(0, true)), id, row, map[0 := UploadMsg(id, key, 0, InFlight)], deleters,
      map[0 := Acking(Dropped)])
  {
    hide Run, JobLoad, JobPut, Plan, PlanKeys, UploadForward;
  }

  lemma DropIsAcked(cfg: Config, s: State, id: Id, row: Avatar, key: ObjectKey, deleters: map<nat, Deleter>)
    requires Scene(s, id, row, map[0 := UploadMsg(id, key, 0, InFlight)], deleters, map[0 := Acking(Dropped)])
    ensures Scene(Apply(cfg, s, Call(0, true)), id, row, map[], deleters, map[])
    ensures Apply(cfg, s, Call(0, true)).objects == s.objects
  {
    hide Run, JobLoad, JobPut, JobRead, Plan, PlanKeys, UploadForward;
  }

  lemma PublishRefused(cfg: Config, s: State, id: Id, row: Avatar, keys: set<ObjectKey>)
    requires Scene(s, id, row, map[], map[0 := Deleter(id, keys, Announcing)], map[])
    ensures Scene(Apply(cfg, s, DeleteCall(0, false, 0)), id, row, map[], map[0 := Deleter(id, keys, Restoring)], map[])
  {
    hide AllKeys;
  }

  lemma RowIsRestored(cfg: Config, s: State, id: Id, row: Avatar, keys: set<ObjectKey>)
    requires Scene(s, id, row, map[], map[0 := Deleter(id, keys, Restoring)], map[]) && row.deleted
    ensures Scene(Apply(cfg, s, DeleteCall(0, true, 0)), id, row.(deleted := false), map[], map[], map[])
  {
    hide AllKeys;
  }

  function RestoreTrace(id: Id, user: string): seq<Event> {
    [StartDelete(0, id, user), DeleteCall(0, true, 0), DeliverUpload(0), Call(0, true), Call(0, true),
      DeleteCall(0, false, 0), DeleteCall(0, true, 0)]
  }

  /**
   An upload that is deleted before it is processed, whose job finds the mark and drops the message, and whose
   delete event is then refused: the restored row is live and pending, and no message will ever process it. Only
   one publish failed, and its compensation worked.
   */
  lemma RestoredWithoutMessage(cfg: Config, id: Id, user: string, mime: string, body: Bytes, created: int)
    ensures var s := History(cfg, UploadEvents(id, user, mime, body, created, 0, ALL_WELL) + RestoreTrace(id, user));
      && id in s.rows && !s.rows[id].deleted && s.rows[id].status == Pending
      && id !in s.uploaders && !Carried(s.uploads, s.jobs, id)
  {
    hide Run, Apply, Scene, OriginalKeyFor, UploadEvents, AllKeys;
    var es := UploadEvents(id, user, mime, body, created, 0, ALL_WELL);
    var s0 := Run(cfg, EMPTY, es);
    RunConcat(cfg, EMPTY, es, RestoreTrace(id, user));
    Uploaded(cfg, id, user, mime, body, created);
    RestoreRuns(cfg, s0, id, NewRow(Birth(user, mime, OriginalKeyFor(user, id, mime), body, created)),
      OriginalKeyFor(user, id, mime));
    SceneFacts(Run(cfg, s0, RestoreTrace(id, user)), id,
      NewRow(Birth(user, mime, OriginalKeyFor(user, id, mime), body, created)));
  }

  lemma SceneFacts(s: State, id: Id, row: Avatar)
    requires Scene(s, id, row, map[], map[], map[])
    ensures id in s.rows && s.rows[id] == row && id !in s.uploaders && !Carried(s.uploads, s.jobs, id)
  {
  }

  lemma RestoreRuns(cfg: Config, s0: State, id: Id, row: Avatar, key: ObjectKey)
    requires Scene(s0, id, row, map[0 := UploadMsg(id, key, 0, Main)], map[], map[]) && !row.deleted
    ensures Scene(Run(cfg, s0, RestoreTrace(id, row.user)), id, row, map[], map[], map[])
  {
    hide Run, Apply, Scene, AllKeys;
    var held := map[0 := UploadMsg(id, key, 0, Main)];
    var d := Deleter(id, AllKeys(row), Announcing);
    var marked := row.(deleted := true);
    var tail := RestoreTrace(id, row.user);
    DeleteBegins(cfg, s0, id, row, held);
    var s1 := Apply(cfg, s0, tail[0]);
    RowIsMarked(cfg, s1, id, row, held, AllKeys(row));
    var s2 := Apply(cfg, s1, tail[1]);
    JobBegins(cfg, s2, id, marked, key, map[0 := d]);
    var s3 := Apply(cfg, s2, tail[2]);
    JobSeesMark(cfg, s3, id, marked, key, map[0 := d]);
    var s4 := Apply(cfg, s3, tail[3]);
    DropIsAcked(cfg, s4, id, marked, key, map[0 := d]);
    var s5 := Apply(cfg, s4, tail[4]);
    PublishRefused(cfg, s5, id, marked, AllKeys(row));
    var s6 := Apply(cfg, s5, tail[5]);
    RowIsRestored(cfg, s6, id, marked, AllKeys(row));
    assert marked.(deleted := false) == row;
    var s7 := Apply(cfg, s6, tail[6]);
    RunSteps(cfg, s0, tail);
    assert tail[..7] == tail;
  }

  // ---------- a job completes between the delete handler's read and its soft delete ----------

  /** The delete handler, the job to its end and its acknowledgement, then the soft delete and its event. */
  function StaleTrace(cfg: Config, id: Id, user: string, e: Ending, calls: JobCalls): seq<Event>
    requires e.Done?
  {
    [StartDelete(0, id, user), DeliverUpload(0)] + JobEvents(cfg, 0, id, e, calls)
      + [Call(0, true), DeleteCall(0, true, 0), DeleteCall(0, true, 0)]
  }

  lemma EndIsAcked(cfg: Config, s: State, id: Id, row: Avatar, key: ObjectKey, deleters: map<nat, Deleter>)
    requires Scene(s, id, row, map[0 := UploadMsg(id, key, 0, InFlight)], deleters, map[0 := Acking(Finished)])
    ensures Scene(Apply(cfg, s, Call(0, true)), id, row, map[], deleters, map[])
    ensures Apply(cfg, s, Call(0, true)).objects == s.objects
  {
    hide Run, JobLoad, JobPut, JobRead, Plan, PlanKeys, UploadForward;
  }

  lemma JobRunsOut(cfg: Config, s: State, id: Id, row: Avatar, key: ObjectKey, deleters: map<nat, Deleter>,
                   calls: JobCalls)
    requires ValidCatalog(cfg.catalog)
    requires Scene(s, id, row, map[0 := UploadMsg(id, key, 0, InFlight)], deleters, map[0 := Reading])
    requires EndingOf(cfg, s.rows, s.objects, id, key, calls).Done?
    ensures var e := EndingOf(cfg, s.rows, s.objects, id, key, calls);
      var t := Run(cfg, s, JobEvents(cfg, 0, id, e, calls));
      && Scene(t, id, CompletedRow(cfg, row, id, e.img), map[0 := UploadMsg(id, key, 0, InFlight)], deleters,
        map[0 := Acking(Finished)])
      && t.objects == WithThumbnails(cfg, id, e.img, s.objects, |ThePlan(cfg)|)
  {
    hide Run, JobEvents, Plan, WithThumbnails, CompletedRow, EndingOf, FirstFailure;
    JobIsARun(cfg, s, 0, calls);
    var e := EndingOf(cfg, s.rows, s.objects, id, key, calls);
    var t := Run(cfg, s, JobEvents(cfg, 0, id, e, calls));
    assert t.jobs == map[0 := Acking(Finished)];
  }

  lemma EventIsSent(cfg: Config, s: State, id: Id, row: Avatar, keys: set<ObjectKey>)
    requires Scene(s, id, row, map[], map[0 := Deleter(id, keys, Announcing)], map[])
    ensures var t := Apply(cfg, s, DeleteCall(0, true, 0));
      && t.rows == s.rows && t.objects == s.objects && t.deletes == map[0 := DeleteMsg(id, keys, 0, Main)]
      && t.deleters == map[] && t.jobs == map[] && t.cleaners == map[] && t.uploaders == map[]
  {
    hide AllKeys;
  }

  /** With the delete event sent, nobody answers for an object its key list leaves out. */
  lemma NobodyClaims(cfg: Config, s: State, id: Id, row: Avatar, keys: set<ObjectKey>, k: ObjectKey)
    requires s.rows == map[id := row] && row.deleted && s.deletes == map[0 := DeleteMsg(id, keys, 0, Main)]
    requires s.deleters == map[] && s.jobs == map[] && s.uploaders == map[]
    requires k !in keys
    ensures !Claimed(cfg, s, k) && !UploaderClaims(s.uploaders, s.born, k)
  {
    hide AllKeys;
  }

  lemma StaleRuns(cfg: Config, s0: State, id: Id, row: Avatar, calls: JobCalls, k: ObjectKey)
    requires ValidCatalog(cfg.catalog)
    requires Scene(s0, id, row, map[0 := UploadMsg(id, row.key, 0, Main)], map[], map[]) && !row.deleted
      && row.thumbs == None
    requires EndingOf(cfg, s0.rows, s0.objects, id, row.key, calls).Done?
    requires k != row.key
    ensures var e := EndingOf(cfg, s0.rows, s0.objects, id, row.key, calls);
      var s := Run(cfg, s0, StaleTrace(cfg, id, row.user, e, calls));
      && s.objects == WithThumbnails(cfg, id, e.img, s0.objects, |ThePlan(cfg)|)
      && !Claimed(cfg, s, k) && !UploaderClaims(s.uploaders, s.born, k)
  {
    hide Run, Apply, Scene, JobEvents, Plan, WithThumbnails, EndingOf, Claimed, UploaderClaims, JobStep, ValidCatalog;
    var e := EndingOf(cfg, s0.rows, s0.objects, id, row.key, calls);
    var keys := AllKeys(row);
    assert keys == {row.key};
    var first := [StartDelete(0, id, row.user), DeliverUpload(0)];
    var last := [Call(0, true), DeleteCall(0, true, 0), DeleteCall(0, true, 0)];
    var row' := CompletedRow(cfg, row, id, e.img);
    DeleteBegins(cfg, s0, id, row, map[0 := UploadMsg(id, row.key, 0, Main)]);
    var s1 := Apply(cfg, s0, first[0]);
    JobBegins(cfg, s1, id, row, row.key, map[0 := Deleter(id, keys, SoftDeleting)]);
    var s2 := Apply(cfg, s1, first[1]);
    SameRows(s0, s2, id, row);
    JobRunsOut(cfg, s2, id, row, row.key, map[0 := Deleter(id, keys, SoftDeleting)], calls);
    var s3 := Run(cfg, s2, JobEvents(cfg, 0, id, e, calls));
    EndIsAcked(cfg, s3, id, row', row.key, map[0 := Deleter(id, keys, SoftDeleting)]);
    var s4 := Apply(cfg, s3, last[0]);
    RowIsMarked(cfg, s4, id, row', map[], keys);
    var s5 := Apply(cfg, s4, last[1]);
    EventIsSent(cfg, s5, id, row'.(deleted := true), keys);
    var s6 := Apply(cfg, s5, last[2]);
    MarkedRow(s5, id, row'.(deleted := true));
    NobodyClaims(cfg, s6, id, row'.(deleted := true), keys, k);
    RunSteps(cfg, s0, first);
    assert first[..2] == first;
    RunConcat(cfg, s0, first, JobEvents(cfg, 0, id, e, calls));
    RunConcat(cfg, s0, first + JobEvents(cfg, 0, id, e, calls), last);
    RunSteps(cfg, s3, last);
    assert last[..3] == last;
  }

  lemma SameRows(s: State, t: State, id: Id, row: Avatar)
    requires exists uploads, deleters, jobs :: Scene(s, id, row, uploads, deleters, jobs)
    requires exists uploads, deleters, jobs :: Scene(t, id, row, uploads, deleters, jobs)
    ensures s.rows == t.rows
  {
  }

  lemma MarkedRow(s: State, id: Id, row: Avatar)
    requires exists uploads, deleters, jobs :: Scene(s, id, row, uploads, deleters, jobs)
    ensures s.rows == map[id := row]
  {
  }

  /**
   A job that completes between the delete handler's read of the row and its soft delete: every thumbnail it made
   is in the store, the delete event lists the original alone, and no row, handler, job or message answers for the
   thumbnails. No call failed.
   */
  lemma StaleKeyListOrphans(cfg: Config, id: Id, user: string, mime: string, body: Bytes, created: int,
      calls: JobCalls, n: nat)
    requires ValidCatalog(cfg.catalog) && n < |ThePlan(cfg)|
    requires var b := Birth(user, mime, OriginalKeyFor(user, id, mime), body, created);
      EndingOf(cfg, map[id := NewRow(b)], map[b.key := body], id, b.key, calls).Done?
    ensures var b := Birth(user, mime, OriginalKeyFor(user, id, mime), body, created);
      var e := EndingOf(cfg, map[id := NewRow(b)], map[b.key := body], id, b.key, calls);
      var s := History(cfg,
        UploadEvents(id, user, mime, body, created, 0, ALL_WELL) + StaleTrace(cfg, id, user, e, calls));
      var k := PlanKey(cfg, id, n);
      k in s.objects && !Claimed(cfg, s, k) && !UploaderClaims(s.uploaders, s.born, k)
  {
    hide Run, Apply, Scene, OriginalKeyFor, UploadEvents, Plan, WithThumbnails, EndingOf, StaleTrace, Claimed,
      UploaderClaims, ValidCatalog;
    var b := Birth(user, mime, OriginalKeyFor(user, id, mime), body, created);
    var e := EndingOf(cfg, map[id := NewRow(b)], map[b.key := body], id, b.key, calls);
    var k := PlanKey(cfg, id, n);
    var es := UploadEvents(id, user, mime, body, created, 0, ALL_WELL);
    var s0 := Run(cfg, EMPTY, es);
    Uploaded(cfg, id, user, mime, body, created);
    MarkedRow(s0, id, NewRow(b));
    StaleRuns(cfg, s0, id, NewRow(b), calls, k);
    RunConcat(cfg, EMPTY, es, StaleTrace(cfg, id, user, e, calls));
    EveryThumbnailPut(cfg, map[id := NewRow(b)], map[b.key := body], id, b.key, calls, n);
  }

  lemma EveryThumbnailPut(cfg: Config, rows: map<Id, Avatar>, objects: map<ObjectKey, Bytes>, id: Id, key: ObjectKey,
                          calls: JobCalls, n: nat)
    requires n < |ThePlan(cfg)| && EndingOf(cfg, rows, objects, id, key, calls).Done?
    ensures PlanKey(cfg, id, n) in WithThumbnails(cfg, id, EndingOf(cfg, rows, objects, id, key, calls).img, objects,
      |ThePlan(cfg)|)
  {
    hide WithThumbnails, Plan;
    WithThumbnailsAt(cfg, id, EndingOf(cfg, rows, objects, id, key, calls).img, objects, |ThePlan(cfg)|,
      PlanKey(cfg, id, n));
  }

  // ---------- two jobs for one avatar ----------

  function Both(id: Id, key: ObjectKey, second: Place): map<MsgId, UploadMsg> {
    map[0 := UploadMsg(id, key, 0, InFlight), 1 := UploadMsg(id, key, 0, second)]
  }

  lemma JobTakesRow(cfg: Config, s: State, id: Id, row: Avatar, uploads: map<MsgId, UploadMsg>,
                    jobs: map<MsgId, JobPc>, m: MsgId)
    requires Scene(s, id, row, uploads, map[], jobs) && !row.deleted && row.status != Completed
    requires m in jobs && jobs[m] == Reading && m in uploads && uploads[m].id == id
    ensures Scene(Apply(cfg, s, Call(m, true)), id, row, uploads, map[], jobs[m := Loading])
    ensures Apply(cfg, s, Call(m, true)).objects == s.objects
  {
    hide Run, JobLoad, JobPut, Plan, PlanKeys, UploadForward;
  }

  lemma Redelivered(cfg: Config, s: State, id: Id, row: Avatar, key: ObjectKey)
    requires Scene(s, id, row, map[0 := UploadMsg(id, key, 0, InFlight)], map[], map[0 := Loading])
    ensures Scene(Apply(cfg, s, RedeliverUpload(0, 1)), id, row, Both(id, key, Main), map[], map[0 := Loading])
    ensures Apply(cfg, s, RedeliverUpload(0, 1)).objects == s.objects
  {
  }

  lemma SecondBegins(cfg: Config, s: State, id: Id, row: Avatar, key: ObjectKey)
    requires Scene(s, id, row, Both(id, key, Main), map[], map[0 := Loading])
    ensures Scene(Apply(cfg, s, DeliverUpload(1)), id, row, Both(id, key, InFlight), map[],
      map[0 := Loading, 1 := Reading])
    ensures Apply(cfg, s, DeliverUpload(1)).objects == s.objects
  {
  }

  /** The first job from its load to its end. */
  lemma FirstCompletes(cfg: Config, s: State, id: Id, row: Avatar, key: ObjectKey, calls: JobCalls)
    requires ValidCatalog(cfg.catalog)
    requires Scene(s, id, row, Both(id, key, InFlight), map[], map[0 := Loading, 1 := Loading]) && !row.deleted
      && row.status != Completed
    requires calls.read && EndingOf(cfg, s.rows, s.objects, id, key, calls).Done?
    ensures var e := EndingOf(cfg, s.rows, s.objects, id, key, calls);
      var t := Run(cfg, s, JobEvents(cfg, 0, id, e, calls)[1..]);
      && Scene(t, id, CompletedRow(cfg, row, id, e.img), Both(id, key, InFlight), map[],
        map[0 := Acking(Finished), 1 := Loading])
      && t.objects == WithThumbnails(cfg, id, e.img, s.objects, |ThePlan(cfg)|)
  {
    hide Run, JobEvents, Plan, WithThumbnails, CompletedRow, EndingOf, FirstFailure;
    var e := EndingOf(cfg, s.rows, s.objects, id, key, calls);
    LoadingRun(cfg, s, 0, e, calls);
    var t := Run(cfg, s, JobEvents(cfg, 0, id, e, calls)[1..]);
    assert t.jobs == map[0 := Acking(Finished), 1 := Loading];
  }

  /** The second job puts every thumbnail again, fails to update the row, and takes every thumbnail back. */
  function LoserEvents(cfg: Config, id: Id, calls: JobCalls): seq<Event> {
    [Call(1, true)] + (Puts(1, |ThePlan(cfg)|) + ([Call(1, false)] + RollbackEvents(cfg, 1, id, |ThePlan(cfg)|, calls)))
  }

  lemma SecondUndoes(cfg: Config, s: State, id: Id, row: Avatar, key: ObjectKey, img: Image, calls: JobCalls, n: nat)
    requires ValidCatalog(cfg.catalog) && n < |ThePlan(cfg)|
    requires Scene(s, id, row, Both(id, key, InFlight), map[], map[0 := Acking(Finished), 1 := Loading]) && !row.deleted
    requires key in s.objects && cfg.codec.decode(s.objects[key]) == Some(img)
    requires forall i | 0 <= i < |ThePlan(cfg)| :: NextThumbnail(cfg, i, img).Some?
    requires calls.mark && forall i :: calls.remove(i)
    ensures var t := Run(cfg, s, LoserEvents(cfg, id, calls));
      && t.rows == map[id := row.(status := Failed)]
      && PlanKey(cfg, id, n) !in t.objects
  {
    hide Run, Apply, Reached, Scene, JobStep, Plan, ThePlan, PlanKey, NextThumbnail, ValidCatalog, Puts,
      RollbackEvents, Remaining, WithThumbnails, RolledBack;
    var plan := |ThePlan(cfg)|;
    SecondFacts(s, id, row, key);
    FirstMove(cfg, s, 1, true, Puts(1, plan) + ([Call(1, false)] + RollbackEvents(cfg, 1, id, plan, calls)));
    LoadMove(cfg, s, 1, true);
    var t := JobStep(cfg, s, 1, true, PlaceholderOriginal(""), 0);
    ReachedFacts(s, t, 1, Filling(0, img), s.rows, s.objects);
    RunConcat(cfg, t, Puts(1, plan), [Call(1, false)] + RollbackEvents(cfg, 1, id, plan, calls));
    PutRun(cfg, t, 1, img, plan);
    var u := Run(cfg, t, Puts(1, plan));
    ReachedFacts(t, u, 1, Filling(plan, img), s.rows, WithThumbnails(cfg, id, img, s.objects, plan));
    FirstMove(cfg, u, 1, false, RollbackEvents(cfg, 1, id, plan, calls));
    FailMove(cfg, u, 1, plan, img);
    var v := JobStep(cfg, u, 1, false, PlaceholderOriginal(""), 0);
    ReachedFacts(u, v, 1, RollingBack(Remaining(cfg, id, 0, plan)), u.rows, u.objects);
    RollbackRun(cfg, v, 1, plan, calls);
    ReachedFacts(v, Run(cfg, v, RollbackEvents(cfg, 1, id, plan, calls)), 1, Requeueing,
      map[id := row.(status := Failed)], RolledBack(cfg, id, v.objects, plan, calls));
    RolledBackAt(cfg, id, v.objects, plan, calls, PlanKey(cfg, id, n));
  }

  lemma SecondFacts(s: State, id: Id, row: Avatar, key: ObjectKey)
    requires Scene(s, id, row, Both(id, key, InFlight), map[], map[0 := Acking(Finished), 1 := Loading])
    ensures 1 in s.jobs && s.jobs[1] == Loading && 1 in s.uploads && s.uploads[1].id == id && s.uploads[1].key == key
      && s.rows == map[id := row]
    ensures map[id := row][id := row.(status := Failed)] == map[id := row.(status := Failed)]
  {
  }

  lemma ReachedFacts(s: State, t: State, m: MsgId, pc: JobPc, rows: map<Id, Avatar>, objects: map<ObjectKey, Bytes>)
    requires Reached(s, t, m, pc, rows, objects)
    ensures m in t.jobs && t.jobs[m] == pc && t.rows == rows && t.objects == objects && t.uploads == s.uploads
  {
  }

  /** Both jobs find the row unfinished. */
  const BEGIN := [DeliverUpload(0), Call(0, true), RedeliverUpload(0, 1), DeliverUpload(1), Call(1, true)]

  lemma TwoJobsBegin(cfg: Config, s0: State, id: Id, row: Avatar, key: ObjectKey)
    requires Scene(s0, id, row, map[0 := UploadMsg(id, key, 0, Main)], map[], map[]) && !row.deleted
      && row.status != Completed
    ensures var t := Run(cfg, s0, BEGIN);
      Scene(t, id, row, Both(id, key, InFlight), map[], map[0 := Loading, 1 := Loading]) && t.objects == s0.objects
  {
    hide Run, Apply, Scene;
    JobBegins(cfg, s0, id, row, key, map[]);
    var s1 := Apply(cfg, s0, BEGIN[0]);
    JobTakesRow(cfg, s1, id, row, map[0 := UploadMsg(id, key, 0, InFlight)], map[0 := Reading], 0);
    assert map[0 := Reading][0 := Loading] == map[0 := Loading];
    var s2 := Apply(cfg, s1, BEGIN[1]);
    Redelivered(cfg, s2, id, row, key);
    var s3 := Apply(cfg, s2, BEGIN[2]);
    SecondBegins(cfg, s3, id, row, key);
    var s4 := Apply(cfg, s3, BEGIN[3]);
    JobTakesRow(cfg, s4, id, row, Both(id, key, InFlight), map[0 := Loading, 1 := Reading], 1);
    assert map[0 := Loading, 1 := Reading][1 := Loading] == map[0 := Loading, 1 := Loading];
    var s5 := Apply(cfg, s4, BEGIN[4]);
    RunSteps(cfg, s0, BEGIN);
    assert BEGIN[..5] == BEGIN;
  }

  function DuplicateTrace(cfg: Config, id: Id, e: Ending, calls: JobCalls): seq<Event>
    requires e.Done?
  {
    BEGIN + (JobEvents(cfg, 0, id, e, calls)[1..] + LoserEvents(cfg, id, calls))
  }

  /**
   An upload message that is delivered a second time while its first job goes on: the first job completes the row,
   the second finds it unfinished before that, fails at its last call, and its rollback removes the thumbnails the
   completed row lists and marks the row failed.
   */
  lemma LoserUndoesWinner(cfg: Config, id: Id, user: string, mime: string, body: Bytes, created: int,
      calls: JobCalls, n: nat)
    requires ValidCatalog(cfg.catalog) && n < |ThePlan(cfg)|
    requires calls.mark && forall i :: calls.remove(i)
    requires var b := Birth(user, mime, OriginalKeyFor(user, id, mime), body, created);
      EndingOf(cfg, map[id := NewRow(b)], map[b.key := body], id, b.key, calls).Done?
    ensures var b := Birth(user, mime, OriginalKeyFor(user, id, mime), body, created);
      var e := EndingOf(cfg, map[id := NewRow(b)], map[b.key := body], id, b.key, calls);
      var s := History(cfg,
        UploadEvents(id, user, mime, body, created, 0, ALL_WELL) + DuplicateTrace(cfg, id, e, calls));
      && id in s.rows && !s.rows[id].deleted && s.rows[id].status == Failed
      && s.rows[id].thumbs == Some(FullMap(cfg.catalog.sizes, id))
      && PlanKey(cfg, id, n) !in s.objects
  {
    hide Run, Apply, Scene, OriginalKeyFor, UploadEvents, Plan, EndingOf, LoserEvents, JobEvents, FullMap, PlanKey,
      ValidCatalog, NextThumbnail;
    var b := Birth(user, mime, OriginalKeyFor(user, id, mime), body, created);
    var e := EndingOf(cfg, map[id := NewRow(b)], map[b.key := body], id, b.key, calls);
    var es := UploadEvents(id, user, mime, body, created, 0, ALL_WELL);
    var s0 := Run(cfg, EMPTY, es);
    Uploaded(cfg, id, user, mime, body, created);
    RunConcat(cfg, EMPTY, es, DuplicateTrace(cfg, id, e, calls));
    DuplicateRuns(cfg, s0, id, NewRow(b), b.key, e, calls, n);
  }

  lemma DoneFacts(cfg: Config, rows: map<Id, Avatar>, objects: map<ObjectKey, Bytes>, id: Id, key: ObjectKey,
                  calls: JobCalls)
    requires EndingOf(cfg, rows, objects, id, key, calls).Done?
    ensures calls.read && key in objects
      && cfg.codec.decode(objects[key]) == Some(EndingOf(cfg, rows, objects, id, key, calls).img)
    ensures forall i | 0 <= i < |ThePlan(cfg)| ::
      NextThumbnail(cfg, i, EndingOf(cfg, rows, objects, id, key, calls).img).Some?
  {
    hide Plan, NextThumbnail;
  }

  /** The thumbnails a job puts are not the original. */
  lemma OriginalStays(cfg: Config, id: Id, img: Image, objects: map<ObjectKey, Bytes>, key: ObjectKey)
    requires key.Original? && key in objects && forall i | 0 <= i < |ThePlan(cfg)| :: NextThumbnail(cfg, i, img).Some?
    ensures var after := WithThumbnails(cfg, id, img, objects, |ThePlan(cfg)|);
      key in after && after[key] == objects[key]
  {
    hide WithThumbnails, Plan, NextThumbnail;
    WithThumbnailsAt(cfg, id, img, objects, |ThePlan(cfg)|, key);
  }

  lemma DuplicateRuns(cfg: Config, s0: State, id: Id, row: Avatar, key: ObjectKey, e: Ending, calls: JobCalls, n: nat)
    requires ValidCatalog(cfg.catalog) && n < |ThePlan(cfg)|
    requires calls.mark && forall i :: calls.remove(i)
    requires Scene(s0, id, row, map[0 := UploadMsg(id, key, 0, Main)], map[], map[]) && !row.deleted
      && row.status != Completed
    requires key.Original? && e == EndingOf(cfg, map[id := row], s0.objects, id, key, calls) && e.Done?
    ensures var t := Run(cfg, s0, DuplicateTrace(cfg, id, e, calls));
      && t.rows == map[id := CompletedRow(cfg, row, id, e.img).(status := Failed)]
      && PlanKey(cfg, id, n) !in t.objects
  {
    hide Run, Apply, Scene, Plan, EndingOf, LoserEvents, JobEvents, CompletedRow, PlanKey, ValidCatalog,
      NextThumbnail, WithThumbnails;
    TwoJobsBegin(cfg, s0, id, row, key);
    var s5 := Run(cfg, s0, BEGIN);
    MarkedRow(s5, id, row);
    DoneFacts(cfg, s5.rows, s5.objects, id, key, calls);
    FirstCompletes(cfg, s5, id, row, key, calls);
    var s6 := Run(cfg, s5, JobEvents(cfg, 0, id, e, calls)[1..]);
    OriginalStays(cfg, id, e.img, s5.objects, key);
    StillLive(cfg, row, id, e.img);
    SecondUndoes(cfg, s6, id, CompletedRow(cfg, row, id, e.img), key, e.img, calls, n);
    RunConcat(cfg, s0, BEGIN, JobEvents(cfg, 0, id, e, calls)[1..] + LoserEvents(cfg, id, calls));
    RunConcat(cfg, s5, JobEvents(cfg, 0, id, e, calls)[1..], LoserEvents(cfg, id, calls));
  }

  lemma StillLive(cfg: Config, row: Avatar, id: Id, img: Image)
    ensures CompletedRow(cfg, row, id, img).deleted == row.deleted
  {
  }
}
