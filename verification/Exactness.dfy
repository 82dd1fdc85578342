/** The exceptions of the guarantees, turned round: exactly when a message, an object or a completion is lost. */
module Exactness {
  import opened Wrappers
  import opened Keys
  import opened Catalogs
  import opened Avatars
  import opened Lifecycle
  import opened Invariants
  import opened Preservation
  import opened Reachability
  import opened Guarantees
  import opened Completion
  import opened Isolation

  // ---------- processing ----------

  /**
   Something will still process the avatar: a message that has not been replaced by a copy, or a handler yet to
   send one.
   */
  ghost predicate InHand(s: State, id: Id) {
    || (exists m | m in s.uploads :: Carrier(s.uploads, s.jobs, m) && s.uploads[m].id == id)
    || (id in s.uploaders && s.uploaders[id] != Removing)
  }

  /**
   An unfinished live row whose upload message was never delivered twice is still going to be processed exactly when
   none of the failures in Abandoned struck it: each of them is recorded only when nothing is left to process the row.
   */
  lemma LostProcessingIff(cfg: Config, s: State, id: Id)
    requires Reachable(cfg, s)
    requires id in s.rows && !s.rows[id].deleted && s.rows[id].status != Completed
    requires Duplicated(id) !in s.incidents
    ensures InHand(s, id) <==> !Abandoned(s.incidents, id)
  {
    hide Reachable, Inv, Abandoned;
    ReachableInv(cfg, s);
    if Abandoned(s.incidents, id) {
      OverMeansOver(cfg, s, id);
    } else {
      NoLostProcessing(cfg, s, id);
      if id in s.uploaders && s.uploaders[id] == Removing { RemovalMeansAbandoned(cfg, s, id); }
      if m :| m in s.uploads && Waiting(s.uploads, s.jobs, m, id) { assert Carrier(s.uploads, s.jobs, m); }
    }
  }

  lemma OverMeansOver(cfg: Config, s: State, id: Id)
    requires Inv(cfg, s) && Abandoned(s.incidents, id) && Duplicated(id) !in s.incidents
    ensures !InHand(s, id)
  {
    hide Abandoned;
    assert Sat(OverClause, cfg, s);
    assert Sat(LateClause, cfg, s);
  }

  lemma RemovalMeansAbandoned(cfg: Config, s: State, id: Id)
    requires Inv(cfg, s) && id in s.uploaders && s.uploaders[id] == Removing && id in s.rows
    ensures Abandoned(s.incidents, id)
  {
    assert Sat(UploadersClause, cfg, s);
  }

  // ---------- stale key lists ----------

  /**
   After a delete event with a stale key list, and with no two jobs ever at work on the avatar at once, every
   thumbnail of the avatar is in the store, and nobody answers for it.
   */
  lemma StaleThumbnailsOrphaned(cfg: Config, s: State, k: ObjectKey)
    requires Reachable(cfg, s) && k.Thumbnail?
    requires StaleKeyList(k.id) in s.incidents && Overlapped(k.id) !in s.incidents
    ensures !Claimed(cfg, s, k)
    ensures k in PlanKeys(ThePlan(cfg), k.id, |ThePlan(cfg)|) ==> k in s.objects
  {
    hide Reachable, Inv, RowClaims, DeleterClaims, MessageClaims, JobClaims, PlanKeys;
    ReachableInv(cfg, s);
    StaleFacts(cfg, s, k.id);
    StaleRowClaimsNothing(s, k);
    NoDeleterHolds(cfg, s, k);
    NoMessageLists(cfg, s, k);
    NoJobWorks(cfg, s, k);
  }

  lemma StaleFacts(cfg: Config, s: State, id: Id)
    requires Inv(cfg, s) && StaleKeyList(id) in s.incidents && Overlapped(id) !in s.incidents
    ensures id in s.announced && id in s.rows && s.rows[id].deleted && s.rows[id].status == Completed
    ensures PlanKeys(ThePlan(cfg), id, |ThePlan(cfg)|) <= s.objects.Keys
  {
    hide Plan, PlanKeys;
    assert Sat(StaleClause, cfg, s);
    StaleRowFinished(cfg, s, id);
    assert Sat(StaleStoredClause, cfg, s);
  }

  lemma StaleRowFinished(cfg: Config, s: State, id: Id)
    requires Inv(cfg, s) && id in s.announced && id in s.rows && s.rows[id].thumbs.Some?
      && Overlapped(id) !in s.incidents
    ensures s.rows[id].deleted && s.rows[id].status == Completed
  {
    assert Sat(ThumbsClause, cfg, s);
    assert Sat(AnnouncedClause, cfg, s);
  }

  lemma StaleRowClaimsNothing(s: State, k: ObjectKey)
    requires k.Avatar?() && k.id in s.rows && s.rows[k.id].deleted
    ensures !RowClaims(s.rows, k)
  {
  }

  lemma NoDeleterHolds(cfg: Config, s: State, k: ObjectKey)
    requires Inv(cfg, s) && k.Avatar?() && k.id in s.announced
    ensures !DeleterClaims(s.deleters, s.rows, k)
  {
    if h :| h in s.deleters && Holds(s.deleters[h], s.rows, k) {
      HolderNames(cfg, s, h, k);
      AnnouncedByNone(cfg, s, h);
    }
  }

  lemma AnnouncedByNone(cfg: Config, s: State, h: nat)
    requires Inv(cfg, s) && h in s.deleters && s.deleters[h].pc != SoftDeleting
    ensures s.deleters[h].id !in s.announced
  {
    assert Sat(DeletersClause, cfg, s);
  }

  lemma NoMessageLists(cfg: Config, s: State, k: ObjectKey)
    requires Inv(cfg, s) && k.Thumbnail? && StaleKeyList(k.id) in s.incidents
    ensures !MessageClaims(s.deletes, s.cleaners, k)
  {
    hide Inv;
    if m :| m in s.deletes && Outstanding(s.deletes[m], CleanerOf(s.cleaners, m), k) {
      MessageNames(cfg, s, m, k);
      StaleListIsOriginal(cfg, s, m);
    }
  }

  lemma StaleListIsOriginal(cfg: Config, s: State, m: MsgId)
    requires Inv(cfg, s) && m in s.deletes && StaleKeyList(s.deletes[m].id) in s.incidents
    ensures forall k | k in s.deletes[m].keys :: k.Original?
  {
    hide SanitizePathSegment;
    assert Sat(StaleClause, cfg, s);
    assert Sat(RowsClause, cfg, s);
    assert Sat(BornClause, cfg, s);
  }

  lemma NoJobWorks(cfg: Config, s: State, k: ObjectKey)
    requires Inv(cfg, s) && k.Avatar?() && k.id in s.rows && s.rows[k.id].status == Completed
    requires Overlapped(k.id) !in s.incidents
    ensures !JobClaims(cfg, s.uploads, s.jobs, k)
  {
    hide Inv, Plan;
    if m :| m in s.jobs && m in s.uploads && k in UploadedKeys(cfg, s.uploads[m].id, s.jobs[m]) {
      JobFacts(cfg, s, m);
      NotWorking(cfg, s, m);
    }
  }

  lemma NotWorking(cfg: Config, s: State, m: MsgId)
    requires Inv(cfg, s) && m in s.jobs && m in s.uploads && s.uploads[m].id in s.rows
    requires s.rows[s.uploads[m].id].status == Completed && Overlapped(s.uploads[m].id) !in s.incidents
    ensures !Working(s.jobs[m])
  {
    assert Sat(WorkingClause, cfg, s);
  }

  /** The failures besides a stale key list that can leave a thumbnail unclaimed. */
  predicate OtherwiseExcused(incidents: set<Incident>, k: ObjectKey)
    requires k.Avatar?()
  {
    Excused(incidents - {StaleKeyList(k.id)}, k)
  }

  /**
   So a thumbnail of an avatar with a row, on which no two jobs were at work at once and which no other failure
   struck, has somebody to answer for it exactly when no delete event was sent with a stale key list.
   */
  lemma ThumbnailClaimedIff(cfg: Config, s: State, k: ObjectKey)
    requires Reachable(cfg, s) && k in s.objects && k.Thumbnail? && k.id in s.rows
    requires Overlapped(k.id) !in s.incidents && !OtherwiseExcused(s.incidents, k)
    ensures Claimed(cfg, s, k) <==> StaleKeyList(k.id) !in s.incidents
  {
    hide Reachable, Claimed, Plan, PlanKeys, Genuine;
    NoOrphans(cfg, s, k);
    if StaleKeyList(k.id) in s.incidents {
      StaleThumbnailsOrphaned(cfg, s, k);
    } else {
      assert s.incidents - {StaleKeyList(k.id)} == s.incidents;
    }
  }

  // ---------- completion ----------

  /**
   The one call that takes a completion back: SetProcessingStatus(failed) of a job that found the row unfinished
   before.
   */
  predicate MarksFailed(s: State, e: Event, id: Id) {
    && e.JobCall? && e.ok && e.m in s.jobs && e.m in s.uploads
    && s.jobs[e.m] == MarkingFailed && s.uploads[e.m].id == id
    && id in s.rows && !s.rows[id].deleted
  }

  /**
   An event takes a completion back exactly when it is that call; and that can happen only if, however this state came
   about, two jobs were at work on the avatar at once.
   */
  lemma CompletionLostIff(cfg: Config, s: State, e: Event, id: Id)
    requires Reachable(cfg, s) && id in s.rows && s.rows[id].status == Completed
    ensures var t := Apply(cfg, s, e);
      (id in t.rows && t.rows[id].status == Completed) <==> !MarksFailed(s, e, id)
    ensures MarksFailed(s, e, id) ==> OnceOverlapped(cfg, s, id)
  {
    hide Reachable, Inv, Apply, JobStep, OnceOverlapped;
    ReachableInv(cfg, s);
    if Overlapped(id) in s.incidents { RecordedMeansOnce(cfg, s, id); }
    if e.JobCall? {
      JobCallApplies(cfg, s, e.m, e.ok, e.pick, e.newId);
      if e.m in s.jobs && e.m in s.uploads { JobCompletion(cfg, s, e.m, e.ok, e.pick, e.newId, id); }
    } else {
      OthersKeepCompletion(cfg, s, e, id);
    }
  }

  lemma JobCompletion(cfg: Config, s: State, m: MsgId, ok: bool, pick: ObjectKey, newId: MsgId, id: Id)
    requires Inv(cfg, s)
    requires m in s.jobs && m in s.uploads && id in s.rows && s.rows[id].status == Completed
    ensures var t := JobStep(cfg, s, m, ok, pick, newId);
      (id in t.rows && t.rows[id].status == Completed) <==> !MarksFailed(s, JobCall(m, ok, pick, newId), id)
    ensures MarksFailed(s, JobCall(m, ok, pick, newId), id) ==> Overlapped(id) in s.incidents
  {
    hide Inv, JobStep, Working;
    if s.uploads[m].id != id {
      JobLeavesOtherRow(cfg, s, m, ok, pick, newId, id);
    } else if s.rows[id].deleted {
      JobLeavesDeletedRow(cfg, s, m, ok, pick, newId, id);
    } else if s.jobs[m].MarkingFailed? {
      MarkingMarks(cfg, s, m, ok, pick, newId);
      MarkingIsWork(s.jobs[m]);
      if Overlapped(id) !in s.incidents { NotWorking(cfg, s, m); }
    } else {
      CompletedKeyMap(cfg, s, id);
      CompletedAgain(cfg, s, m);
      JobOnCompletedRow(cfg, s, m, ok, pick, newId);
    }
  }

  lemma MarkingIsWork(pc: JobPc)
    requires pc.MarkingFailed?
    ensures Working(pc)
  {
  }

  lemma CompletedKeyMap(cfg: Config, s: State, id: Id)
    requires Inv(cfg, s) && id in s.rows && s.rows[id].status == Completed
    ensures s.rows[id].thumbs == Some(FullMap(cfg.catalog.sizes, id))
  {
    hide FullMap, Plan;
    assert Sat(RowsClause, cfg, s);
  }

  lemma MarkingMarks(cfg: Config, s: State, m: MsgId, ok: bool, pick: ObjectKey, newId: MsgId)
    requires m in s.jobs && m in s.uploads && s.jobs[m].MarkingFailed?
    requires s.uploads[m].id in s.rows && !s.rows[s.uploads[m].id].deleted
    ensures var t := JobStep(cfg, s, m, ok, pick, newId);
      s.uploads[m].id in t.rows
        && t.rows[s.uploads[m].id].status == (if ok then Failed else s.rows[s.uploads[m].id].status)
  {
    hide Plan, PlanKeys, UploadForward, JobRead, JobLoad, JobPut, ThePlan;
  }

  // ---------- listed thumbnails ----------

  /** A rollback takes this thumbnail away. */
  predicate RollsBack(s: State, e: Event, k: ObjectKey) {
    && e.JobCall? && e.ok && e.m in s.jobs && e.m in s.uploads
    && s.jobs[e.m].RollingBack? && k in s.jobs[e.m].todo && e.pick == k
  }

  /**
   A thumbnail of a completed row that no delete event was sent for leaves the store exactly when a job's rollback
   takes it away; and that too can happen only if two jobs were at work on the avatar at once.
   */
  lemma ListedThumbnailLostIff(cfg: Config, s: State, e: Event, k: ObjectKey)
    requires Reachable(cfg, s) && k.Thumbnail? && k in s.objects
    requires k.id in s.rows && s.rows[k.id].status == Completed && k.id !in s.announced
    ensures k !in Apply(cfg, s, e).objects <==> RollsBack(s, e, k)
    ensures RollsBack(s, e, k) ==> OnceOverlapped(cfg, s, k.id)
  {
    hide Reachable, Inv, Apply, OnceOverlapped;
    ReachableInv(cfg, s);
    if Overlapped(k.id) in s.incidents { RecordedMeansOnce(cfg, s, k.id); }
    match e
    case JobCall(m, ok, pick, newId) => JobCallTakes(cfg, s, m, ok, pick, newId, k);
    case CleanCall(m, ok, pick, newId) => CleanCallSpares(cfg, s, m, ok, pick, newId, k);
    case _ => OthersSpare(cfg, s, e, k);
  }

  lemma JobCallTakes(cfg: Config, s: State, m: MsgId, ok: bool, pick: ObjectKey, newId: MsgId, k: ObjectKey)
    requires Inv(cfg, s) && k.Avatar?() && k in s.objects
    requires k.id in s.rows && s.rows[k.id].status == Completed
    ensures var e := JobCall(m, ok, pick, newId);
      && (k !in Apply(cfg, s, e).objects <==> RollsBack(s, e, k))
      && (RollsBack(s, e, k) ==> Overlapped(k.id) in s.incidents)
  {
    hide Inv, Apply, JobStep, Working;
    JobCallApplies(cfg, s, m, ok, pick, newId);
    if m in s.jobs && m in s.uploads {
      JobTakes(cfg, s, m, ok, pick, newId, k);
      if s.jobs[m].RollingBack? && k in s.jobs[m].todo {
        RollbackIsItsOwn(cfg, s, m, k);
        RollbackIsWork(s.jobs[m]);
        if Overlapped(k.id) !in s.incidents { NotWorking(cfg, s, m); }
      }
    }
  }

  lemma CleanCallSpares(cfg: Config, s: State, m: MsgId, ok: bool, pick: ObjectKey, newId: MsgId, k: ObjectKey)
    requires Inv(cfg, s) && k.Avatar?() && k in s.objects && k.id !in s.announced
    ensures k in Apply(cfg, s, CleanCall(m, ok, pick, newId)).objects
  {
    hide Inv, CleanStep;
    if m in s.cleaners && m in s.deletes {
      if s.cleaners[m].Cleaning? && k in s.cleaners[m].todo {
        CleanupIsItsOwn(cfg, s, m, k);
        MessageIsAnnounced(cfg, s, m);
      }
      CleanupTouchesItsKeys(cfg, s, m, ok, pick, newId, k);
    }
  }

  lemma OthersSpare(cfg: Config, s: State, e: Event, k: ObjectKey)
    requires Inv(cfg, s) && k.Thumbnail? && k in s.objects && !e.JobCall? && !e.CleanCall?
    ensures k in Apply(cfg, s, e).objects
  {
    hide Inv, UploadStep, DeleteStep, JobStep, CleanStep, OriginalKeyFor, AllKeys, MayDelete, Conceived, DeleterAt,
      DeleterGone, UploaderGone, UploadDelivered, JobDied, JobCrashNotes, UploadRedelivered, UploadExpired,
      DeleteDelivered, CleanerDied, DeleteRedelivered, DeleteExpired;
    match e
    case UploadCall(id, ok, newId) =>
      if id in s.uploaders && id in s.born {
        OriginalIsItsOwn(cfg, s, id);
        UploadTouchesItsOriginal(s, id, ok, newId, k);
      }
    case _ => OthersTouchNothing(cfg, s, e);
  }

  lemma RollbackIsWork(pc: JobPc)
    requires pc.RollingBack?
    ensures Working(pc)
  {
  }

  lemma MessageIsAnnounced(cfg: Config, s: State, m: MsgId)
    requires Inv(cfg, s) && m in s.deletes
    ensures s.deletes[m].id in s.announced
  {
    assert Sat(DeletesClause, cfg, s);
  }

  /** A job never removes an object but by a rollback that works. */
  lemma JobTakes(cfg: Config, s: State, m: MsgId, ok: bool, pick: ObjectKey, newId: MsgId, k: ObjectKey)
    requires m in s.jobs && m in s.uploads && k in s.objects
    ensures k !in JobStep(cfg, s, m, ok, pick, newId).objects <==> RollsBack(s, JobCall(m, ok, pick, newId), k)
  {
    hide JobStep;
    match s.jobs[m]
    case Filling(_, _) => JobFills(cfg, s, m, ok, pick, newId, k);
    case RollingBack(_) => JobRollsBack(cfg, s, m, ok, pick, newId, k);
    case _ => JobOnlyReads(cfg, s, m, ok, pick, newId);
  }
}
