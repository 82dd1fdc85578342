/** What the invariant means for the service: the lifecycle's guarantees in every reachable state. */
module Guarantees {
  import opened Wrappers
  import opened Keys
  import opened Catalogs
  import opened Rendering
  import opened Avatars
  import opened Routing
  import opened Lifecycle
  import opened Invariants
  import opened Preservation
  import opened Reachability

  // ---------- objects ----------

  /**
   No object is orphaned. In every reachable state each object is the key of an avatar and holds exactly the bytes it
   should. If the avatar has a row, the object is answered for by the live row that lists it, a delete handler at
   work, a thumbnail job that will take it back, or a delete message in some queue that lists it and has not removed
   it yet, or else one of the failures in Excused struck it. If not, its upload handler is still at work, or was
   cut short by a crash or by its own failing removal.
   */
  lemma NoOrphans(cfg: Config, s: State, k: ObjectKey)
    requires Reachable(cfg, s) && k in s.objects
    ensures
      && k.Avatar?() && k.id in s.born
      && Genuine(cfg, k, s.objects[k], s.born[k.id])
      && (if k.id in s.rows then Claimed(cfg, s, k) || Excused(s.incidents, k)
          else
            UploaderClaims(s.uploaders, s.born, k) || RemoveFailed(k) in s.incidents
              || UploadCrashed(k.id) in s.incidents)
  {
    hide Reachable, Inv, Genuine, Claimed, Excused, UploaderClaims;
    ReachableInv(cfg, s);
    ObjectIsGenuine(cfg, s, k);
    ObjectIsCovered(cfg, s, k);
  }

  lemma ObjectIsGenuine(cfg: Config, s: State, k: ObjectKey)
    requires Inv(cfg, s) && k in s.objects
    ensures k.Avatar?() && k.id in s.born && Genuine(cfg, k, s.objects[k], s.born[k.id])
  {
    hide Genuine;
    assert Sat(ObjectsClause, cfg, s);
  }

  lemma ObjectIsCovered(cfg: Config, s: State, k: ObjectKey)
    requires Inv(cfg, s) && k in s.objects && k.Avatar?()
    ensures
      if k.id in s.rows then Claimed(cfg, s, k) || Excused(s.incidents, k)
      else
        UploaderClaims(s.uploaders, s.born, k) || RemoveFailed(k) in s.incidents || UploadCrashed(k.id) in s.incidents
  {
    hide Claimed, Excused, UploaderClaims;
    assert Sat(CoveredClause, cfg, s);
    assert Sat(RowlessClause, cfg, s);
  }

  /**
   A live row has no delete event, in any queue or ever before, and its original is in the store with the bytes
   that were uploaded, unless the rollback of its own upload failed to delete the row.
   */
  lemma LiveRowSafety(cfg: Config, s: State, id: Id)
    requires Reachable(cfg, s) && id in s.rows && !s.rows[id].deleted
    ensures
      && id !in s.announced
      && (forall m | m in s.deletes :: s.deletes[m].id != id)
      && id in s.born && s.rows[id].key == s.born[id].key
      && ((s.rows[id].key in s.objects && s.objects[s.rows[id].key] == s.born[id].body)
        || DeleteHardFailed(id) in s.incidents)
  {
    hide Reachable, Inv;
    ReachableInv(cfg, s);
    LiveRowUnannounced(cfg, s, id);
    LiveRowStored(cfg, s, id);
  }

  lemma LiveRowUnannounced(cfg: Config, s: State, id: Id)
    requires Inv(cfg, s) && id in s.rows && !s.rows[id].deleted
    ensures id !in s.announced && forall m | m in s.deletes :: s.deletes[m].id != id
  {
    hide KeysOf;
    assert Sat(AnnouncedClause, cfg, s);
    assert Sat(DeletesClause, cfg, s);
  }

  lemma LiveRowStored(cfg: Config, s: State, id: Id)
    requires Inv(cfg, s) && id in s.rows && id !in s.announced
    ensures id in s.born && s.rows[id].key == s.born[id].key && s.born[id].key.Original? && s.born[id].key.id == id
    ensures (s.rows[id].key in s.objects && s.objects[s.rows[id].key] == s.born[id].body)
      || DeleteHardFailed(id) in s.incidents
  {
    hide Plan, FullMap, RenderThumbnail, SanitizePathSegment;
    assert Sat(BornClause, cfg, s);
    assert Sat(RowsClause, cfg, s);
    assert Sat(OriginalsClause, cfg, s);
    assert Sat(ObjectsClause, cfg, s);
  }

  // ---------- processing ----------

  /**
   No processing is lost: a live row that is not completed has an upload message still to be handled or parked in
   the dead-letter queue, or an upload handler at work, unless one of the failures in Abandoned struck it.
   */
  lemma NoLostProcessing(cfg: Config, s: State, id: Id)
    requires Reachable(cfg, s)
    requires id in s.rows && !s.rows[id].deleted && s.rows[id].status != Completed
    ensures Carried(s.uploads, s.jobs, id) || id in s.uploaders || Abandoned(s.incidents, id)
  {
    ReachableInv(cfg, s);
    hide Reachable;
    assert Sat(AttendedClause, cfg, s);
  }

  /**
   In every reachable state a row is what its upload and its processing made it: the user, type, key and time of the
   upload; and once a job has completed it, the dimensions of the decoded upload and a key map of every thumbnail.
   */
  lemma RowsAreTheirUploads(cfg: Config, s: State, id: Id)
    requires Reachable(cfg, s) && id in s.rows
    ensures id in s.born
    ensures var row, b := s.rows[id], s.born[id];
      && row.user == b.user && row.mime == b.mime && row.key == b.key && row.created == b.created
      && (row.status == Completed ==> row.thumbs.Some?)
      && (row.thumbs.Some? <==> row.dimensions.Some?)
      && (row.thumbs.Some? ==>
            && row.thumbs.value == FullMap(cfg.catalog.sizes, id)
            && cfg.codec.decode(b.body).Some?
            && row.dimensions.value == (cfg.codec.decode(b.body).value.width, cfg.codec.decode(b.body).value.height))
  {
    hide Reachable, Inv, FullMap;
    ReachableInv(cfg, s);
    RowIsItsUpload(cfg, s, id);
  }

  lemma RowIsItsUpload(cfg: Config, s: State, id: Id)
    requires Inv(cfg, s) && id in s.rows
    ensures id in s.born && RowOk(cfg, id, s.rows[id], s.born[id])
  {
    hide RowOk;
    assert Sat(RowsClause, cfg, s);
  }

  /** Only the owner of a live row starts its deletion, with the list of all its keys. */
  lemma DeletionStartsIff(cfg: Config, s: State, h: nat, id: Id, actor: string)
    requires h !in s.deleters
    ensures var t := Apply(cfg, s, StartDelete(h, id, actor));
      && (h in t.deleters <==> id in s.rows && !s.rows[id].deleted && s.rows[id].user == actor)
      && (h in t.deleters ==> t.deleters == s.deleters[h := Deleter(id, AllKeys(s.rows[id]), SoftDeleting)])
      && t.rows == s.rows && t.objects == s.objects
  {
    hide AllKeys;
  }

  predicate WorkerEvent(e: Event) {
    e.DeliverUpload? || e.JobCall? || e.CrashJob? || e.RedeliverUpload? || e.ExpireUpload?
    || e.DeliverDelete? || e.CleanCall? || e.CrashClean? || e.RedeliverDelete? || e.ExpireDelete?
  }

  /** No worker step ever changes, removes or revives a soft-deleted row. */
  lemma WorkersLeaveDeletedRows(cfg: Config, s: State, e: Event, id: Id)
    requires WorkerEvent(e)
    requires id in s.rows && s.rows[id].deleted
    ensures id in Apply(cfg, s, e).rows && Apply(cfg, s, e).rows[id] == s.rows[id]
  {
    hide Apply, JobStep;
    if e.JobCall? {
      JobCallApplies(cfg, s, e.m, e.ok, e.pick, e.newId);
      if e.m in s.jobs && e.m in s.uploads { JobLeavesDeletedRow(cfg, s, e.m, e.ok, e.pick, e.newId, id); }
    } else {
      OthersLeaveRows(cfg, s, e);
    }
  }

  lemma JobCallApplies(cfg: Config, s: State, m: MsgId, ok: bool, pick: ObjectKey, newId: MsgId)
    ensures Apply(cfg, s, JobCall(m, ok, pick, newId))
      == if m in s.jobs && m in s.uploads then JobStep(cfg, s, m, ok, pick, newId) else s
  {
    hide JobStep;
  }

  lemma OthersLeaveRows(cfg: Config, s: State, e: Event)
    requires WorkerEvent(e) && !e.JobCall?
    ensures Apply(cfg, s, e).rows == s.rows
  {
    hide CleanStep, JobStep, UploadStep, DeleteStep, UploadDelivered, JobDied, JobCrashNotes, UploadRedelivered,
      UploadExpired, DeleteDelivered, CleanerDied, DeleteRedelivered, DeleteExpired, MayDelete, AllKeys,
      OriginalKeyFor, DeleterAt, DeleterGone, UploaderGone, Conceived;
  }

  lemma JobLeavesDeletedRow(cfg: Config, s: State, m: MsgId, ok: bool, pick: ObjectKey, newId: MsgId, id: Id)
    requires m in s.jobs && m in s.uploads
    requires id in s.rows && s.rows[id].deleted
    ensures var t := JobStep(cfg, s, m, ok, pick, newId); id in t.rows && t.rows[id] == s.rows[id]
  {
    hide Plan, PlanKeys, NextStop, UploadForward, CompletedRow, JobAt, JobRead, JobLoad, JobPut, ThumbnailRemoved,
      ThumbnailLeft, UploadRequeued, UploadAcked, ThePlan, RowCompleted, RowFailed;
    var mid := s.uploads[m].id;
    if mid in s.rows && !s.rows[mid].deleted {
      assert mid != id;
      LiveRowsOnly(cfg, s, m, id);
    }
  }

  /** The two effects of a job on the table are on its own row. */
  lemma LiveRowsOnly(cfg: Config, s: State, m: MsgId, id: Id)
    requires m in s.uploads && s.uploads[m].id in s.rows && s.uploads[m].id != id
    requires id in s.rows
    ensures var t := RowFailed(s, m, s.uploads[m].id); id in t.rows && t.rows[id] == s.rows[id]
    ensures forall img :: var t := RowCompleted(cfg, s, m, s.uploads[m].id, img);
      id in t.rows && t.rows[id] == s.rows[id]
  {
    hide CompletedRow;
  }

  // ---------- completion ----------

  /** What completion fixes for good: the row stays, completed, with the same key map. */
  predicate StaysCompleted(s: State, t: State, id: Id)
    requires id in s.rows
  {
    id in t.rows && t.rows[id].status == Completed && t.rows[id].thumbs == s.rows[id].thumbs
  }

  lemma UploadStepKeepsCompletion(cfg: Config, s: State, id: Id, ok: bool, newId: MsgId, x: Id)
    requires Inv(cfg, s)
    requires id in s.uploaders && id in s.born
    requires x in s.rows && s.rows[x].status == Completed
    ensures StaysCompleted(s, UploadStep(s, id, ok, newId), x)
  {
    hide Inv, OriginalPut, UploaderGone, UploaderAt, UploadPublished, OriginalRemoved, RowInserted, RowUndone;
    UploaderNotCompleted(cfg, s, id, x);
    if id != x { UploadOnOtherRow(s, id, x); }
  }

  /** A handler that may still delete its row has not seen it completed. */
  lemma UploaderNotCompleted(cfg: Config, s: State, id: Id, x: Id)
    requires Inv(cfg, s)
    requires id in s.uploaders && x in s.rows && s.rows[x].status == Completed
    ensures s.uploaders[id] == Undoing ==> id != x
    ensures s.uploaders[id] == Inserting ==> id != x
  {
    assert Sat(UploadersClause, cfg, s);
  }

  lemma UploadOnOtherRow(s: State, id: Id, x: Id)
    requires id in s.born && id != x && x in s.rows
    ensures StaysRow(s, RowInserted(s, id, s.born[id]), x)
    ensures StaysRow(s, RowUndone(s, id), x)
  {
  }

  predicate StaysRow(s: State, t: State, x: Id)
    requires x in s.rows
  {
    x in t.rows && t.rows[x].status == s.rows[x].status && t.rows[x].thumbs == s.rows[x].thumbs
  }

  lemma DeleteStepKeepsCompletion(s: State, h: nat, ok: bool, newId: MsgId, x: Id)
    requires h in s.deleters
    requires x in s.rows && s.rows[x].status == Completed
    ensures StaysCompleted(s, DeleteStep(s, h, ok, newId), x)
  {
    hide DeleterGone, DeleterAt, DeleteAnnounced, SoftDeleted, RowRestored;
    if s.deleters[h].id in s.rows { DeletedFlagOnly(s, h, x); }
  }

  lemma DeletedFlagOnly(s: State, h: nat, x: Id)
    requires h in s.deleters && s.deleters[h].id in s.rows && x in s.rows
    ensures StaysRow(s, SoftDeleted(s, h, s.deleters[h]), x)
    ensures StaysRow(s, RowRestored(s, h, s.deleters[h]), x)
  {
    hide AllKeys;
  }

  lemma JobStepKeepsCompletion(cfg: Config, s: State, m: MsgId, ok: bool, pick: ObjectKey, newId: MsgId, x: Id)
    requires Inv(cfg, s)
    requires m in s.jobs && m in s.uploads
    requires x in s.rows && s.rows[x].status == Completed
    requires Overlapped(x) !in s.incidents
    ensures StaysCompleted(s, JobStep(cfg, s, m, ok, pick, newId), x)
  {
    hide Inv, JobStep, FullMap;
    CompletedJobFacts(cfg, s, m, x);
    if s.uploads[m].id != x {
      JobLeavesOtherRow(cfg, s, m, ok, pick, newId, x);
    } else if s.rows[x].deleted {
      JobLeavesDeletedRow(cfg, s, m, ok, pick, newId, x);
    } else {
      CompletedAgain(cfg, s, m);
      JobOnCompletedRow(cfg, s, m, ok, pick, newId);
    }
  }

  lemma JobLeavesOtherRow(cfg: Config, s: State, m: MsgId, ok: bool, pick: ObjectKey, newId: MsgId, x: Id)
    requires m in s.jobs && m in s.uploads
    requires x in s.rows && s.uploads[m].id != x
    ensures var t := JobStep(cfg, s, m, ok, pick, newId); x in t.rows && t.rows[x] == s.rows[x]
  {
    hide Plan, PlanKeys, NextStop, UploadForward, JobAt, JobRead, JobLoad, JobPut, ThumbnailRemoved, ThumbnailLeft,
      UploadRequeued, UploadAcked, ThePlan, RowCompleted, RowFailed;
    if s.uploads[m].id in s.rows { LiveRowsOnly(cfg, s, m, x); }
  }

  lemma JobOnCompletedRow(cfg: Config, s: State, m: MsgId, ok: bool, pick: ObjectKey, newId: MsgId)
    requires m in s.jobs && m in s.uploads && !s.jobs[m].MarkingFailed?
    requires s.uploads[m].id in s.rows && s.rows[s.uploads[m].id].status == Completed
    requires forall img :: StaysCompleted(s, RowCompleted(cfg, s, m, s.uploads[m].id, img), s.uploads[m].id)
    ensures StaysCompleted(s, JobStep(cfg, s, m, ok, pick, newId), s.uploads[m].id)
  {
    hide Plan, PlanKeys, NextStop, UploadForward, JobAt, JobRead, JobLoad, JobPut, ThumbnailRemoved, ThumbnailLeft,
      UploadRequeued, UploadAcked, ThePlan, RowCompleted, RowFailed;
  }

  lemma CompletedJobFacts(cfg: Config, s: State, m: MsgId, x: Id)
    requires Inv(cfg, s)
    requires m in s.jobs && m in s.uploads
    requires x in s.rows && s.rows[x].status == Completed
    requires Overlapped(x) !in s.incidents
    ensures s.rows[x].thumbs == Some(FullMap(cfg.catalog.sizes, x))
    ensures s.uploads[m].id == x ==> !s.jobs[m].MarkingFailed?
  {
    hide FullMap, Plan;
    assert Sat(RowsClause, cfg, s);
    assert Sat(WorkingClause, cfg, s);
  }

  lemma CompletedAgain(cfg: Config, s: State, m: MsgId)
    requires m in s.uploads && s.uploads[m].id in s.rows
    requires s.rows[s.uploads[m].id].thumbs == Some(FullMap(cfg.catalog.sizes, s.uploads[m].id))
    ensures forall img :: StaysCompleted(s, RowCompleted(cfg, s, m, s.uploads[m].id, img), s.uploads[m].id)
  {
    hide FullMap;
  }

  lemma OthersKeepCompletion(cfg: Config, s: State, e: Event, x: Id)
    requires Inv(cfg, s) && !e.JobCall?
    requires x in s.rows && s.rows[x].status == Completed
    ensures StaysCompleted(s, Apply(cfg, s, e), x)
  {
    hide Inv, UploadStep, DeleteStep, JobStep, CleanStep, UploadDelivered, JobDied, JobCrashNotes,
      UploadRedelivered, UploadExpired, DeleteDelivered, CleanerDied, DeleteRedelivered, DeleteExpired, DeleterAt,
      DeleterGone, UploaderGone, Conceived, MayDelete, AllKeys, OriginalKeyFor;
    match e
    case UploadCall(id, ok, newId) =>
      if id in s.uploaders && id in s.born { UploadStepKeepsCompletion(cfg, s, id, ok, newId, x); }
    case DeleteCall(h, ok, newId) =>
      if h in s.deleters { DeleteStepKeepsCompletion(s, h, ok, newId, x); }
    case _ =>
  }

  lemma StepKeepsCompletion(cfg: Config, s: State, e: Event, x: Id)
    requires Inv(cfg, s)
    requires x in s.rows && s.rows[x].status == Completed
    requires Overlapped(x) !in s.incidents
    ensures StaysCompleted(s, Apply(cfg, s, e), x)
  {
    hide Inv, Apply, JobStep;
    if e.JobCall? {
      JobCallApplies(cfg, s, e.m, e.ok, e.pick, e.newId);
      if e.m in s.jobs && e.m in s.uploads { JobStepKeepsCompletion(cfg, s, e.m, e.ok, e.pick, e.newId, x); }
    } else {
      OthersKeepCompletion(cfg, s, e, x);
    }
  }

  /** What completion means where no two jobs of the avatar were at work at once. */
  lemma CompletedFacts(cfg: Config, t: State, id: Id)
    requires Inv(cfg, t)
    requires id in t.rows && t.rows[id].status == Completed && Overlapped(id) !in t.incidents
    ensures t.rows[id].thumbs == Some(FullMap(cfg.catalog.sizes, id))
    ensures id !in t.announced ==> PlanKeys(ThePlan(cfg), id, |ThePlan(cfg)|) <= t.objects.Keys
  {
    hide Plan, FullMap, PlanKeys;
    assert Sat(RowsClause, cfg, t);
    assert Sat(RowsStoredClause, cfg, t);
  }

  // ---------- an avatar at rest ----------

  /** No handler is at work on an avatar, and no queue holds a message about it. */
  ghost predicate AtRest(s: State, id: Id) {
    && id !in s.uploaders
    && (forall h | h in s.deleters :: s.deleters[h].id != id)
    && (forall m | m in s.uploads :: s.uploads[m].id != id)
    && (forall m | m in s.deletes :: s.deletes[m].id != id)
  }

  /** The avatar a failure struck. */
  function Struck(i: Incident): Id {
    match i
    case RemoveFailed(Original(_, id, _)) => id
    case RemoveFailed(Thumbnail(id, _, _)) => id
    case RemoveFailed(_) => ""
    case UploadMessageLost(id, _) => id
    case DeleteMessageLost(id, _) => id
    case _ => i.id
  }

  ghost predicate Unscathed(incidents: set<Incident>, id: Id) {
    forall i | i in incidents :: Struck(i) != id
  }

  /**
   Once its handlers have finished and its queues are empty, an avatar that no failure struck is either completed or
   deleted, and the store holds exactly the objects its live row lists: nothing is missing and nothing is left over.
   */
  lemma RestingAvatarIsExact(cfg: Config, s: State, id: Id, k: ObjectKey)
    requires Reachable(cfg, s) && AtRest(s, id) && Unscathed(s.incidents, id)
    requires k.Avatar?() && k.id == id
    ensures id in s.rows && !s.rows[id].deleted ==> s.rows[id].status == Completed
    ensures k in s.objects <==> RowClaims(s.rows, k)
  {
    hide Reachable, RowClaims, AtRest, Unscathed;
    if id in s.rows && !s.rows[id].deleted { RestingRowCompleted(cfg, s, id); }
    if k in s.objects { NothingLeftOver(cfg, s, k); }
    if RowClaims(s.rows, k) { NothingMissing(cfg, s, k); }
  }

  lemma NoneOfThese(incidents: set<Incident>, id: Id)
    requires Unscathed(incidents, id)
    ensures !Abandoned(incidents, id) && Duplicated(id) !in incidents && Overlapped(id) !in incidents
    ensures forall k: ObjectKey | k.Avatar?() && k.id == id :: !Excused(incidents, k) && RemoveFailed(k) !in incidents
  {
    assert Struck(UploadCrashed(id)) == Struck(DeleteHardFailed(id)) == Struck(DroppedYetLive(id))
      == Struck(Duplicated(id)) == Struck(Overlapped(id)) == id;
    assert Struck(UploadMessageLost(id, PublishFailed)) == Struck(UploadMessageLost(id, QueueMissing)) == id;
    assert Struck(DeleteMessageLost(id, PublishFailed)) == Struck(DeleteMessageLost(id, QueueMissing)) == id;
    assert Struck(RestoreFailed(id)) == Struck(DeleteCrashed(id)) == Struck(StaleKeyList(id))
      == Struck(JobCrashed(id)) == id;
    forall k: ObjectKey | k.Avatar?() && k.id == id
      ensures RemoveFailed(k) !in incidents
    {
      assert Struck(RemoveFailed(k)) == id;
    }
  }

  lemma RestingRowCompleted(cfg: Config, s: State, id: Id)
    requires Reachable(cfg, s) && AtRest(s, id) && Unscathed(s.incidents, id)
    requires id in s.rows && !s.rows[id].deleted
    ensures s.rows[id].status == Completed
  {
    hide Reachable, Unscathed, Abandoned;
    NoneOfThese(s.incidents, id);
    if s.rows[id].status != Completed { NoLostProcessing(cfg, s, id); }
  }

  lemma NothingLeftOver(cfg: Config, s: State, k: ObjectKey)
    requires Reachable(cfg, s) && k in s.objects && k.Avatar?() && AtRest(s, k.id) && Unscathed(s.incidents, k.id)
    ensures RowClaims(s.rows, k)
  {
    hide Reachable, Inv, Genuine, RowClaims, DeleterClaims, MessageClaims, JobClaims, Unscathed, Excused;
    NoneOfThese(s.incidents, k.id);
    NoOrphans(cfg, s, k);
    ReachableInv(cfg, s);
    NothingAtWork(cfg, s, k);
    assert UploadCrashed(k.id) !in s.incidents by { NotCrashed(s.incidents, k.id); }
  }

  lemma NotCrashed(incidents: set<Incident>, id: Id)
    requires !Abandoned(incidents, id)
    ensures UploadCrashed(id) !in incidents
  {
  }

  /** Whoever answers for a key is at work on its avatar. */
  lemma NothingAtWork(cfg: Config, s: State, k: ObjectKey)
    requires Inv(cfg, s) && k.Avatar?() && AtRest(s, k.id)
    ensures !DeleterClaims(s.deleters, s.rows, k) && !MessageClaims(s.deletes, s.cleaners, k)
      && !JobClaims(cfg, s.uploads, s.jobs, k)
  {
    hide Inv, Plan, KeysOf, OriginalKeyFor, Holds;
    if h :| h in s.deleters && Holds(s.deleters[h], s.rows, k) {
      HolderNames(cfg, s, h, k);
    }
    if m :| m in s.deletes && Outstanding(s.deletes[m], CleanerOf(s.cleaners, m), k) {
      MessageNames(cfg, s, m, k);
    }
    if m :| m in s.jobs && m in s.uploads && k in UploadedKeys(cfg, s.uploads[m].id, s.jobs[m]) {
      JobFacts(cfg, s, m);
    }
  }

  lemma HolderNames(cfg: Config, s: State, h: nat, k: ObjectKey)
    requires Inv(cfg, s) && h in s.deleters && Holds(s.deleters[h], s.rows, k)
    ensures k.Avatar?() && k.id == s.deleters[h].id
  {
    hide BornOk, RowsOk, DeletersOk;
    assert Sat(BornClause, cfg, s) && Sat(RowsClause, cfg, s) && Sat(DeletersClause, cfg, s);
    HeldKeysNameTheirAvatar(cfg, s, h, k);
  }

  lemma MessageNames(cfg: Config, s: State, m: MsgId, k: ObjectKey)
    requires Inv(cfg, s) && m in s.deletes && k in s.deletes[m].keys
    ensures k.Avatar?() && k.id == s.deletes[m].id
  {
    hide KeysOf, OriginalKeyFor, Plan;
    assert Sat(DeletesClause, cfg, s);
    assert Sat(BornClause, cfg, s);
    KeysNameTheirAvatar(cfg, s.deletes[m].id, s.born[s.deletes[m].id], k);
  }

  lemma NothingMissing(cfg: Config, s: State, k: ObjectKey)
    requires Reachable(cfg, s) && k.Avatar?() && AtRest(s, k.id) && Unscathed(s.incidents, k.id)
    requires RowClaims(s.rows, k)
    ensures k in s.objects
  {
    hide Reachable, Inv, FullMap, ThumbKeys, PlanKeys, Plan, Unscathed, AtRest;
    NoneOfThese(s.incidents, k.id);
    LiveRowSafety(cfg, s, k.id);
    RestingRowCompleted(cfg, s, k.id);
    ReachableInv(cfg, s);
    CompletedFacts(cfg, s, k.id);
    FullMapKeys(cfg.catalog.sizes, k.id);
  }

  // ---------- undeclared retry queues ----------

  /** With every delay positive and in range, no message ever fails into a queue that was not declared. */
  lemma DeclaredDelaysMissNoQueue(cfg: Config, s: State, id: Id)
    requires AllDeclared(cfg.uploadDelays) && AllDeclared(cfg.deleteDelays) && Reachable(cfg, s)
    ensures UploadMessageLost(id, QueueMissing) !in s.incidents && DeleteMessageLost(id, QueueMissing) !in s.incidents
  {
    hide Reachable, AllDeclared;
    ReachableInv(cfg, s);
    assert Sat(QueuesClause, cfg, s);
    assert Missed(UploadMessageLost(id, QueueMissing)) && Missed(DeleteMessageLost(id, QueueMissing));
  }
}
