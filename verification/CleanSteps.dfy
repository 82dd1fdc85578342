/** Every effect of a cleanup job, and every move of a delete message, keeps the invariant. */
module CleanSteps {
  import opened Keys
  import opened Catalogs
  import opened Rendering
  import opened Avatars
  import opened Routing
  import opened Lifecycle
  import opened Invariants

  lemma CleanerAtFrame(cfg: Config, s: State, m: MsgId, pc: CleanPc)
    requires m in s.cleaners && m in s.deletes && CleanerMayMove(cfg, s.deletes[m], s.cleaners[m], pc)
    requires DeletesOk(cfg, s.deletes, s.cleaners, s.announced, s.born)
    requires QueuesOk(cfg, s.jobs, s.cleaners, s.incidents)
    ensures var t := CleanerAt(s, m, pc);
      && DeletesOk(cfg, t.deletes, t.cleaners, t.announced, t.born)
      && QueuesOk(cfg, t.jobs, t.cleaners, t.incidents)
  {
    hide AllDeclared, Plan, FullMap, OriginalKeyFor, AllKeys;
  }

  lemma CleanerAtCovered(cfg: Config, s: State, m: MsgId, pc: CleanPc)
    requires m in s.cleaners && m in s.deletes && CleanerMayMove(cfg, s.deletes[m], s.cleaners[m], pc)
    requires Covered(cfg, s)
    ensures Covered(cfg, CleanerAt(s, m, pc))
  {
    hide AllDeclared, Plan, FullMap, OriginalKeyFor, Genuine, RenderThumbnail, ThumbKeys, RowClaims, DeleterClaims,
      JobClaims, Excused, AllKeys, PlanKeys;
    var t := CleanerAt(s, m, pc);
    forall k | k in t.objects && k.Avatar?() && k.id in t.rows
      ensures Claimed(cfg, t, k) || Excused(t.incidents, k)
    {
      if MessageClaims(s.deletes, s.cleaners, k) {
        var x :| x in s.deletes && Outstanding(s.deletes[x], CleanerOf(s.cleaners, x), k);
        assert x in t.deletes && Outstanding(t.deletes[x], CleanerOf(t.cleaners, x), k);
      }
    }
  }

  lemma CleanerAtKeeps(cfg: Config, s: State, m: MsgId, pc: CleanPc)
    requires Inv(cfg, s)
    requires m in s.cleaners && m in s.deletes && CleanerMayMove(cfg, s.deletes[m], s.cleaners[m], pc)
    ensures Inv(cfg, CleanerAt(s, m, pc))
  {
    hide Inv, Sat, BornOk, RowsOk, UploadersOk, EarlyOk, DeletersOk, AnnouncedOk, UploadsOk, JobsOk, DeletesOk,
      ObjectsOk, NoEarlyThumbnails, OriginalsOk, Rowless, Covered, AllAttended, SingleCarrier, WorkingOk, RowsStored,
      JobsStored, OverOk, NoLateUploader, RecordsOk, ThumbsOk, StaleOk, StaleStored, QueuesOk, AloneOk, OverlapsOk;
    Clauses(cfg, s);
    CleanerAtFrame(cfg, s, m, pc);
    CleanerAtCovered(cfg, s, m, pc);
    FromClauses(cfg, CleanerAt(s, m, pc));
  }

  lemma KeyCleanedRecords(cfg: Config, s: State, m: MsgId, todo: set<ObjectKey>, failed: bool, gone: ObjectKey)
    requires m in s.cleaners && m in s.deletes && s.cleaners[m] == Cleaning(todo, failed) && gone in todo
    requires BornOk(s.born) && EarlyOk(s.uploaders, s.deleters, s.announced, s.objects, s.born)
    requires DeletesOk(cfg, s.deletes, s.cleaners, s.announced, s.born)
    ensures var t := KeyCleaned(s, m, todo, failed, gone);
      EarlyOk(t.uploaders, t.deleters, t.announced, t.objects, t.born)
  {
    hide AllDeclared, Plan, FullMap, OriginalKeyFor, Genuine, AllKeys;
  }

  lemma KeyCleanedMail(cfg: Config, s: State, m: MsgId, todo: set<ObjectKey>, failed: bool, gone: ObjectKey)
    requires m in s.cleaners && m in s.deletes && s.cleaners[m] == Cleaning(todo, failed) && gone in todo
    requires BornOk(s.born) && RowsOk(cfg, s.rows, s.born)
    requires DeletesOk(cfg, s.deletes, s.cleaners, s.announced, s.born)
    requires Rowless(s.objects, s.rows, s.uploaders, s.born, s.incidents)
    ensures var t := KeyCleaned(s, m, todo, failed, gone);
      && DeletesOk(cfg, t.deletes, t.cleaners, t.announced, t.born)
      && Rowless(t.objects, t.rows, t.uploaders, t.born, t.incidents)
  {
    hide AllDeclared, Plan, FullMap, OriginalKeyFor, Genuine, AllKeys;
  }

  lemma KeyCleanedStored(cfg: Config, s: State, m: MsgId, todo: set<ObjectKey>, failed: bool, gone: ObjectKey)
    requires m in s.cleaners && m in s.deletes && s.cleaners[m] == Cleaning(todo, failed) && gone in todo
    requires BornOk(s.born) && RowsOk(cfg, s.rows, s.born) && JobsOk(cfg, s.jobs, s.uploads, s.born)
    requires DeletesOk(cfg, s.deletes, s.cleaners, s.announced, s.born) && ObjectsOk(cfg, s.objects, s.born)
    requires NoEarlyThumbnails(s.objects, s.uploaders)
    requires JobsStored(cfg, s.jobs, s.uploads, s.objects, s.announced, s.incidents)
    ensures var t := KeyCleaned(s, m, todo, failed, gone);
      && ObjectsOk(cfg, t.objects, t.born) && NoEarlyThumbnails(t.objects, t.uploaders)
      && JobsStored(cfg, t.jobs, t.uploads, t.objects, t.announced, t.incidents)
  {
    hide AllDeclared, Plan, FullMap, OriginalKeyFor, AllKeys;
  }

  lemma KeyCleanedContents(cfg: Config, s: State, m: MsgId, todo: set<ObjectKey>, failed: bool, gone: ObjectKey)
    requires m in s.cleaners && m in s.deletes && s.cleaners[m] == Cleaning(todo, failed) && gone in todo
    requires BornOk(s.born) && RowsOk(cfg, s.rows, s.born)
    requires DeletesOk(cfg, s.deletes, s.cleaners, s.announced, s.born)
    requires OriginalsOk(s.objects, s.rows, s.announced, s.incidents)
    ensures var t := KeyCleaned(s, m, todo, failed, gone);
      OriginalsOk(t.objects, t.rows, t.announced, t.incidents)
  {
    hide AllDeclared, Plan, FullMap, OriginalKeyFor, Genuine, AllKeys;
  }

  lemma KeyCleanedStaleStored(cfg: Config, s: State, m: MsgId, todo: set<ObjectKey>, failed: bool, gone: ObjectKey)
    requires m in s.cleaners && m in s.deletes && s.cleaners[m] == Cleaning(todo, failed) && gone in todo
    requires BornOk(s.born) && RowsOk(cfg, s.rows, s.born)
    requires DeletesOk(cfg, s.deletes, s.cleaners, s.announced, s.born)
    requires StaleOk(s.rows, s.deletes, s.announced, s.incidents) && StaleStored(cfg, s.objects, s.incidents)
    ensures var t := KeyCleaned(s, m, todo, failed, gone);
      StaleStored(cfg, t.objects, t.incidents)
  {
    hide AllDeclared, Plan, FullMap, OriginalKeyFor, RenderThumbnail, AllKeys;
  }

  lemma KeyCleanedRowThumbnails(cfg: Config, s: State, m: MsgId, todo: set<ObjectKey>, failed: bool, gone: ObjectKey)
    requires m in s.cleaners && m in s.deletes && s.cleaners[m] == Cleaning(todo, failed) && gone in todo
    requires BornOk(s.born) && JobsOk(cfg, s.jobs, s.uploads, s.born)
    requires DeletesOk(cfg, s.deletes, s.cleaners, s.announced, s.born)
    requires RowsStored(cfg, s.rows, s.objects, s.announced, s.incidents)
    requires QueuesOk(cfg, s.jobs, s.cleaners, s.incidents)
    ensures var t := KeyCleaned(s, m, todo, failed, gone);
      && QueuesOk(cfg, t.jobs, t.cleaners, t.incidents)
      && RowsStored(cfg, t.rows, t.objects, t.announced, t.incidents)
  {
    hide AllDeclared, Plan, FullMap, OriginalKeyFor, AllKeys;
  }

  lemma KeyCleanedCovered(cfg: Config, s: State, m: MsgId, todo: set<ObjectKey>, failed: bool, gone: ObjectKey)
    requires m in s.cleaners && m in s.deletes && s.cleaners[m] == Cleaning(todo, failed) && gone in todo
    requires Covered(cfg, s)
    ensures Covered(cfg, KeyCleaned(s, m, todo, failed, gone))
  {
    hide AllDeclared, Plan, FullMap, OriginalKeyFor, Genuine, RenderThumbnail, ThumbKeys, RowClaims, DeleterClaims,
      JobClaims, Excused, AllKeys, PlanKeys;
    var t := KeyCleaned(s, m, todo, failed, gone);
    forall k | k in t.objects && k.Avatar?() && k.id in t.rows
      ensures Claimed(cfg, t, k) || Excused(t.incidents, k)
    {
      if MessageClaims(s.deletes, s.cleaners, k) {
        var x :| x in s.deletes && Outstanding(s.deletes[x], CleanerOf(s.cleaners, x), k);
        assert x in t.deletes && Outstanding(t.deletes[x], CleanerOf(t.cleaners, x), k);
      }
    }
  }

  lemma KeyCleanedKeeps(cfg: Config, s: State, m: MsgId, todo: set<ObjectKey>, failed: bool, gone: ObjectKey)
    requires Inv(cfg, s)
    requires m in s.cleaners && m in s.deletes && s.cleaners[m] == Cleaning(todo, failed) && gone in todo
    ensures Inv(cfg, KeyCleaned(s, m, todo, failed, gone))
  {
    hide Inv, Sat, BornOk, RowsOk, UploadersOk, EarlyOk, DeletersOk, AnnouncedOk, UploadsOk, JobsOk, DeletesOk,
      ObjectsOk, NoEarlyThumbnails, OriginalsOk, Rowless, Covered, AllAttended, SingleCarrier, WorkingOk, RowsStored,
      JobsStored, OverOk, NoLateUploader, RecordsOk, ThumbsOk, StaleOk, StaleStored, QueuesOk, AloneOk, OverlapsOk;
    Clauses(cfg, s);
    KeyCleanedRecords(cfg, s, m, todo, failed, gone);
    KeyCleanedMail(cfg, s, m, todo, failed, gone);
    KeyCleanedStored(cfg, s, m, todo, failed, gone);
    KeyCleanedContents(cfg, s, m, todo, failed, gone);
    KeyCleanedStaleStored(cfg, s, m, todo, failed, gone);
    KeyCleanedRowThumbnails(cfg, s, m, todo, failed, gone);
    KeyCleanedCovered(cfg, s, m, todo, failed, gone);
    FromClauses(cfg, KeyCleaned(s, m, todo, failed, gone));
  }

  lemma DeleteForwardedFrame(cfg: Config, s: State, m: MsgId, copy: DeleteMsg, newId: MsgId)
    requires m in s.cleaners && m in s.deletes && s.cleaners[m].Forwarding? && newId !in s.deletes
    requires copy.id == s.deletes[m].id && copy.keys == s.deletes[m].keys && copy.place != InFlight
    requires DeletesOk(cfg, s.deletes, s.cleaners, s.announced, s.born)
    requires StaleOk(s.rows, s.deletes, s.announced, s.incidents) && QueuesOk(cfg, s.jobs, s.cleaners, s.incidents)
    ensures var t := DeleteForwarded(s, m, copy, newId);
      && DeletesOk(cfg, t.deletes, t.cleaners, t.announced, t.born)
      && StaleOk(t.rows, t.deletes, t.announced, t.incidents) && QueuesOk(cfg, t.jobs, t.cleaners, t.incidents)
  {
    hide AllDeclared, Plan, FullMap, OriginalKeyFor;
  }

  lemma DeleteForwardedCovered(cfg: Config, s: State, m: MsgId, copy: DeleteMsg, newId: MsgId)
    requires m in s.cleaners && m in s.deletes && s.cleaners[m].Forwarding? && newId !in s.deletes
    requires copy.id == s.deletes[m].id && copy.keys == s.deletes[m].keys && copy.place != InFlight
    requires DeletesOk(cfg, s.deletes, s.cleaners, s.announced, s.born) && Covered(cfg, s)
    ensures Covered(cfg, DeleteForwarded(s, m, copy, newId))
  {
    hide AllDeclared, Plan, FullMap, OriginalKeyFor, Genuine, RenderThumbnail, ThumbKeys, RowClaims, DeleterClaims,
      JobClaims, Excused, AllKeys, PlanKeys;
    var t := DeleteForwarded(s, m, copy, newId);
    forall k | k in t.objects && k.Avatar?() && k.id in t.rows
      ensures Claimed(cfg, t, k) || Excused(t.incidents, k)
    {
      if MessageClaims(s.deletes, s.cleaners, k) {
        var x :| x in s.deletes && Outstanding(s.deletes[x], CleanerOf(s.cleaners, x), k);
        if x == m {
          assert newId in t.deletes && Outstanding(t.deletes[newId], CleanerOf(t.cleaners, newId), k);
        } else {
          assert x in t.deletes && Outstanding(t.deletes[x], CleanerOf(t.cleaners, x), k);
        }
      }
    }
  }

  lemma DeleteForwardedKeeps(cfg: Config, s: State, m: MsgId, copy: DeleteMsg, newId: MsgId)
    requires Inv(cfg, s)
    requires m in s.cleaners && m in s.deletes && s.cleaners[m].Forwarding? && newId !in s.deletes
    requires copy.id == s.deletes[m].id && copy.keys == s.deletes[m].keys && copy.place != InFlight
    ensures Inv(cfg, DeleteForwarded(s, m, copy, newId))
  {
    hide Inv, Sat, BornOk, RowsOk, UploadersOk, EarlyOk, DeletersOk, AnnouncedOk, UploadsOk, JobsOk, DeletesOk,
      ObjectsOk, NoEarlyThumbnails, OriginalsOk, Rowless, Covered, AllAttended, SingleCarrier, WorkingOk, RowsStored,
      JobsStored, OverOk, NoLateUploader, RecordsOk, ThumbsOk, StaleOk, StaleStored, QueuesOk, AloneOk, OverlapsOk;
    Clauses(cfg, s);
    DeleteForwardedFrame(cfg, s, m, copy, newId);
    DeleteForwardedCovered(cfg, s, m, copy, newId);
    FromClauses(cfg, DeleteForwarded(s, m, copy, newId));
  }

  lemma DeleteSettledProgress(cfg: Config, s: State, m: MsgId, how: Settlement)
    requires m in s.cleaners && m in s.deletes && s.cleaners[m] == Settling(how)
    requires UploadersOk(s.uploaders, s.rows, s.born, s.incidents)
    requires WorkingOk(s.jobs, s.uploads, s.rows, s.incidents)
    requires OverOk(s.uploads, s.jobs, s.ackedDeleted, s.incidents)
    requires NoLateUploader(s.uploaders, s.ackedDeleted, s.incidents) && StaleStored(cfg, s.objects, s.incidents)
    requires QueuesOk(cfg, s.jobs, s.cleaners, s.incidents)
    ensures var t := DeleteSettled(s, m, s.deletes[m].id, how);
      && UploadersOk(t.uploaders, t.rows, t.born, t.incidents) && StaleStored(cfg, t.objects, t.incidents)
      && WorkingOk(t.jobs, t.uploads, t.rows, t.incidents) && OverOk(t.uploads, t.jobs, t.ackedDeleted, t.incidents)
      && NoLateUploader(t.uploaders, t.ackedDeleted, t.incidents) && QueuesOk(cfg, t.jobs, t.cleaners, t.incidents)
  {
    hide AllDeclared, Plan, FullMap, OriginalKeyFor;
  }

  lemma DeleteSettledStored(cfg: Config, s: State, m: MsgId, how: Settlement)
    requires m in s.cleaners && m in s.deletes && s.cleaners[m] == Settling(how)
    requires OriginalsOk(s.objects, s.rows, s.announced, s.incidents)
    requires Rowless(s.objects, s.rows, s.uploaders, s.born, s.incidents)
    requires SingleCarrier(s.uploads, s.jobs, s.incidents)
    requires RowsStored(cfg, s.rows, s.objects, s.announced, s.incidents)
    requires JobsStored(cfg, s.jobs, s.uploads, s.objects, s.announced, s.incidents)
    requires RecordsOk(s.born, s.ackedDeleted, s.incidents) && ThumbsOk(s.rows, s.incidents)
    requires StaleOk(s.rows, s.deletes, s.announced, s.incidents) && AloneOk(s.uploads, s.jobs, s.incidents)
    requires OverlapsOk(s.incidents)
    ensures var t := DeleteSettled(s, m, s.deletes[m].id, how);
      && RecordsOk(t.born, t.ackedDeleted, t.incidents) && StaleOk(t.rows, t.deletes, t.announced, t.incidents)
      && OriginalsOk(t.objects, t.rows, t.announced, t.incidents)
      && Rowless(t.objects, t.rows, t.uploaders, t.born, t.incidents)
      && SingleCarrier(t.uploads, t.jobs, t.incidents) && AloneOk(t.uploads, t.jobs, t.incidents)
      && ThumbsOk(t.rows, t.incidents) && OverlapsOk(t.incidents)
      && RowsStored(cfg, t.rows, t.objects, t.announced, t.incidents)
      && JobsStored(cfg, t.jobs, t.uploads, t.objects, t.announced, t.incidents)
  {
    hide AllDeclared, Plan, FullMap, OriginalKeyFor;
  }

  lemma DeleteSettledMail(cfg: Config, s: State, m: MsgId, how: Settlement)
    requires m in s.cleaners && m in s.deletes && s.cleaners[m] == Settling(how)
    requires DeletesOk(cfg, s.deletes, s.cleaners, s.announced, s.born)
    requires AllAttended(s.rows, s.uploaders, s.uploads, s.jobs, s.ackedDeleted, s.incidents)
    ensures var t := DeleteSettled(s, m, s.deletes[m].id, how);
      && DeletesOk(cfg, t.deletes, t.cleaners, t.announced, t.born)
      && AllAttended(t.rows, t.uploaders, t.uploads, t.jobs, t.ackedDeleted, t.incidents)
  {
    hide AllDeclared, Plan, FullMap, OriginalKeyFor, AllKeys;
  }

  lemma DeleteSettledCovered(cfg: Config, s: State, m: MsgId, how: Settlement)
    requires m in s.cleaners && m in s.deletes && s.cleaners[m] == Settling(how)
    requires BornOk(s.born) && DeletesOk(cfg, s.deletes, s.cleaners, s.announced, s.born) && Covered(cfg, s)
    ensures Covered(cfg, DeleteSettled(s, m, s.deletes[m].id, how))
  {
    hide AllDeclared, Plan, FullMap, OriginalKeyFor, Genuine, RenderThumbnail, ThumbKeys, RowClaims, DeleterClaims,
      JobClaims, AllKeys, PlanKeys;
    var t := DeleteSettled(s, m, s.deletes[m].id, how);
    forall k | k in t.objects && k.Avatar?() && k.id in t.rows
      ensures Claimed(cfg, t, k) || Excused(t.incidents, k)
    {
      if MessageClaims(s.deletes, s.cleaners, k) {
        var x :| x in s.deletes && Outstanding(s.deletes[x], CleanerOf(s.cleaners, x), k);
        if x == m {
          assert how.Refused? ==> how.cause == PublishFailed || how.cause == QueueMissing;
          KeysNameTheirAvatar(cfg, s.deletes[m].id, s.born[s.deletes[m].id], k);
        } else {
          assert x in t.deletes && Outstanding(t.deletes[x], CleanerOf(t.cleaners, x), k);
        }
      }
    }
  }

  lemma DeleteSettledKeeps(cfg: Config, s: State, m: MsgId, how: Settlement)
    requires Inv(cfg, s)
    requires m in s.cleaners && m in s.deletes && s.cleaners[m] == Settling(how)
    ensures Inv(cfg, DeleteSettled(s, m, s.deletes[m].id, how))
  {
    hide Inv, Sat, BornOk, RowsOk, UploadersOk, EarlyOk, DeletersOk, AnnouncedOk, UploadsOk, JobsOk, DeletesOk,
      ObjectsOk, NoEarlyThumbnails, OriginalsOk, Rowless, Covered, AllAttended, SingleCarrier, WorkingOk, RowsStored,
      JobsStored, OverOk, NoLateUploader, RecordsOk, ThumbsOk, StaleOk, StaleStored, QueuesOk, AloneOk, OverlapsOk;
    Clauses(cfg, s);
    DeleteSettledProgress(cfg, s, m, how);
    DeleteSettledStored(cfg, s, m, how);
    DeleteSettledMail(cfg, s, m, how);
    DeleteSettledCovered(cfg, s, m, how);
    FromClauses(cfg, DeleteSettled(s, m, s.deletes[m].id, how));
  }

  lemma DeleteDeliveredMail(cfg: Config, s: State, m: MsgId)
    requires m in s.deletes && s.deletes[m].place == Main
    requires DeletesOk(cfg, s.deletes, s.cleaners, s.announced, s.born)
    ensures var t := DeleteDelivered(s, m);
      DeletesOk(cfg, t.deletes, t.cleaners, t.announced, t.born)
  {
    hide AllDeclared, Plan, FullMap, OriginalKeyFor, Genuine, AllKeys;
  }

  lemma DeleteDeliveredProgress(cfg: Config, s: State, m: MsgId)
    requires m in s.deletes && s.deletes[m].place == Main
    requires StaleOk(s.rows, s.deletes, s.announced, s.incidents) && QueuesOk(cfg, s.jobs, s.cleaners, s.incidents)
    ensures var t := DeleteDelivered(s, m);
      && StaleOk(t.rows, t.deletes, t.announced, t.incidents) && QueuesOk(cfg, t.jobs, t.cleaners, t.incidents)
  {
    hide AllDeclared, Plan, FullMap, OriginalKeyFor, PlanKeys;
  }

  lemma DeleteDeliveredCovered(cfg: Config, s: State, m: MsgId)
    requires m in s.deletes && s.deletes[m].place == Main
    requires DeletesOk(cfg, s.deletes, s.cleaners, s.announced, s.born) && Covered(cfg, s)
    ensures Covered(cfg, DeleteDelivered(s, m))
  {
    hide AllDeclared, Plan, FullMap, OriginalKeyFor, Genuine, RenderThumbnail, ThumbKeys, RowClaims, DeleterClaims,
      JobClaims, Excused, AllKeys, PlanKeys;
    var t := DeleteDelivered(s, m);
    forall k | k in t.objects && k.Avatar?() && k.id in t.rows
      ensures Claimed(cfg, t, k) || Excused(t.incidents, k)
    {
      if MessageClaims(s.deletes, s.cleaners, k) {
        var x :| x in s.deletes && Outstanding(s.deletes[x], CleanerOf(s.cleaners, x), k);
        assert x in t.deletes && Outstanding(t.deletes[x], CleanerOf(t.cleaners, x), k);
      }
    }
  }

  lemma DeleteDeliveredKeeps(cfg: Config, s: State, m: MsgId)
    requires Inv(cfg, s)
    requires m in s.deletes && s.deletes[m].place == Main
    ensures Inv(cfg, DeleteDelivered(s, m))
  {
    hide Inv, Sat, BornOk, RowsOk, UploadersOk, EarlyOk, DeletersOk, AnnouncedOk, UploadsOk, JobsOk, DeletesOk,
      ObjectsOk, NoEarlyThumbnails, OriginalsOk, Rowless, Covered, AllAttended, SingleCarrier, WorkingOk, RowsStored,
      JobsStored, OverOk, NoLateUploader, RecordsOk, ThumbsOk, StaleOk, StaleStored, QueuesOk, AloneOk, OverlapsOk;
    Clauses(cfg, s);
    DeleteDeliveredMail(cfg, s, m);
    DeleteDeliveredProgress(cfg, s, m);
    DeleteDeliveredCovered(cfg, s, m);
    FromClauses(cfg, DeleteDelivered(s, m));
  }

  lemma CleanerDiedFrame(cfg: Config, s: State, m: MsgId)
    requires m in s.cleaners && m in s.deletes
    requires DeletesOk(cfg, s.deletes, s.cleaners, s.announced, s.born)
    requires StaleOk(s.rows, s.deletes, s.announced, s.incidents) && QueuesOk(cfg, s.jobs, s.cleaners, s.incidents)
    ensures var t := CleanerDied(s, m);
      && DeletesOk(cfg, t.deletes, t.cleaners, t.announced, t.born)
      && StaleOk(t.rows, t.deletes, t.announced, t.incidents) && QueuesOk(cfg, t.jobs, t.cleaners, t.incidents)
  {
    hide AllDeclared, Plan, FullMap, OriginalKeyFor;
  }

  lemma CleanerDiedCovered(cfg: Config, s: State, m: MsgId)
    requires m in s.cleaners && m in s.deletes
    requires Covered(cfg, s)
    ensures Covered(cfg, CleanerDied(s, m))
  {
    hide AllDeclared, Plan, FullMap, OriginalKeyFor, Genuine, RenderThumbnail, ThumbKeys, RowClaims, DeleterClaims,
      JobClaims, Excused, AllKeys, PlanKeys;
    var t := CleanerDied(s, m);
    forall k | k in t.objects && k.Avatar?() && k.id in t.rows
      ensures Claimed(cfg, t, k) || Excused(t.incidents, k)
    {
      if MessageClaims(s.deletes, s.cleaners, k) {
        var x :| x in s.deletes && Outstanding(s.deletes[x], CleanerOf(s.cleaners, x), k);
        assert x in t.deletes && Outstanding(t.deletes[x], CleanerOf(t.cleaners, x), k);
      }
    }
  }

  lemma CleanerDiedKeeps(cfg: Config, s: State, m: MsgId)
    requires Inv(cfg, s)
    requires m in s.cleaners && m in s.deletes
    ensures Inv(cfg, CleanerDied(s, m))
  {
    hide Inv, Sat, BornOk, RowsOk, UploadersOk, EarlyOk, DeletersOk, AnnouncedOk, UploadsOk, JobsOk, DeletesOk,
      ObjectsOk, NoEarlyThumbnails, OriginalsOk, Rowless, Covered, AllAttended, SingleCarrier, WorkingOk, RowsStored,
      JobsStored, OverOk, NoLateUploader, RecordsOk, ThumbsOk, StaleOk, StaleStored, QueuesOk, AloneOk, OverlapsOk;
    Clauses(cfg, s);
    CleanerDiedFrame(cfg, s, m);
    CleanerDiedCovered(cfg, s, m);
    FromClauses(cfg, CleanerDied(s, m));
  }

  lemma DeleteRedeliveredMail(cfg: Config, s: State, m: MsgId, newId: MsgId)
    requires m in s.cleaners && m in s.deletes && newId !in s.deletes
    requires DeletesOk(cfg, s.deletes, s.cleaners, s.announced, s.born)
    ensures var t := DeleteRedelivered(s, m, newId);
      DeletesOk(cfg, t.deletes, t.cleaners, t.announced, t.born)
  {
    hide AllDeclared, Plan, FullMap, OriginalKeyFor, Genuine, AllKeys;
  }

  lemma DeleteRedeliveredStale(cfg: Config, s: State, m: MsgId, newId: MsgId)
    requires m in s.cleaners && m in s.deletes && newId !in s.deletes
    requires StaleOk(s.rows, s.deletes, s.announced, s.incidents)
    ensures var t := DeleteRedelivered(s, m, newId);
      StaleOk(t.rows, t.deletes, t.announced, t.incidents)
  {
    hide AllDeclared, Plan, FullMap, OriginalKeyFor, PlanKeys;
  }

  lemma DeleteRedeliveredCovered(cfg: Config, s: State, m: MsgId, newId: MsgId)
    requires m in s.cleaners && m in s.deletes && newId !in s.deletes
    requires DeletesOk(cfg, s.deletes, s.cleaners, s.announced, s.born) && Covered(cfg, s)
    ensures Covered(cfg, DeleteRedelivered(s, m, newId))
  {
    hide AllDeclared, Plan, FullMap, OriginalKeyFor, Genuine, RenderThumbnail, ThumbKeys, RowClaims, DeleterClaims,
      JobClaims, Excused, AllKeys, PlanKeys;
    var t := DeleteRedelivered(s, m, newId);
    forall k | k in t.objects && k.Avatar?() && k.id in t.rows
      ensures Claimed(cfg, t, k) || Excused(t.incidents, k)
    {
      if MessageClaims(s.deletes, s.cleaners, k) {
        var x :| x in s.deletes && Outstanding(s.deletes[x], CleanerOf(s.cleaners, x), k);
        assert x in t.deletes && Outstanding(t.deletes[x], CleanerOf(t.cleaners, x), k);
      }
    }
  }

  lemma DeleteRedeliveredKeeps(cfg: Config, s: State, m: MsgId, newId: MsgId)
    requires Inv(cfg, s)
    requires m in s.cleaners && m in s.deletes && newId !in s.deletes
    ensures Inv(cfg, DeleteRedelivered(s, m, newId))
  {
    hide Inv, Sat, BornOk, RowsOk, UploadersOk, EarlyOk, DeletersOk, AnnouncedOk, UploadsOk, JobsOk, DeletesOk,
      ObjectsOk, NoEarlyThumbnails, OriginalsOk, Rowless, Covered, AllAttended, SingleCarrier, WorkingOk, RowsStored,
      JobsStored, OverOk, NoLateUploader, RecordsOk, ThumbsOk, StaleOk, StaleStored, QueuesOk, AloneOk, OverlapsOk;
    Clauses(cfg, s);
    DeleteRedeliveredMail(cfg, s, m, newId);
    DeleteRedeliveredStale(cfg, s, m, newId);
    DeleteRedeliveredCovered(cfg, s, m, newId);
    FromClauses(cfg, DeleteRedelivered(s, m, newId));
  }

  lemma DeleteExpiredFrame(cfg: Config, s: State, m: MsgId)
    requires m in s.deletes && s.deletes[m].place.Retry?
    requires DeletesOk(cfg, s.deletes, s.cleaners, s.announced, s.born)
    requires StaleOk(s.rows, s.deletes, s.announced, s.incidents)
    ensures var t := DeleteExpired(s, m);
      && DeletesOk(cfg, t.deletes, t.cleaners, t.announced, t.born)
      && StaleOk(t.rows, t.deletes, t.announced, t.incidents)
  {
    hide AllDeclared, Plan, FullMap, OriginalKeyFor;
  }

  lemma DeleteExpiredCovered(cfg: Config, s: State, m: MsgId)
    requires m in s.deletes && s.deletes[m].place.Retry?
    requires Covered(cfg, s)
    ensures Covered(cfg, DeleteExpired(s, m))
  {
    hide AllDeclared, Plan, FullMap, OriginalKeyFor, Genuine, RenderThumbnail, ThumbKeys, RowClaims, DeleterClaims,
      JobClaims, Excused, AllKeys, PlanKeys;
    var t := DeleteExpired(s, m);
    forall k | k in t.objects && k.Avatar?() && k.id in t.rows
      ensures Claimed(cfg, t, k) || Excused(t.incidents, k)
    {
      if MessageClaims(s.deletes, s.cleaners, k) {
        var x :| x in s.deletes && Outstanding(s.deletes[x], CleanerOf(s.cleaners, x), k);
        assert x in t.deletes && Outstanding(t.deletes[x], CleanerOf(t.cleaners, x), k);
      }
    }
  }

  lemma DeleteExpiredKeeps(cfg: Config, s: State, m: MsgId)
    requires Inv(cfg, s)
    requires m in s.deletes && s.deletes[m].place.Retry?
    ensures Inv(cfg, DeleteExpired(s, m))
  {
    hide Inv, Sat, BornOk, RowsOk, UploadersOk, EarlyOk, DeletersOk, AnnouncedOk, UploadsOk, JobsOk, DeletesOk,
      ObjectsOk, NoEarlyThumbnails, OriginalsOk, Rowless, Covered, AllAttended, SingleCarrier, WorkingOk, RowsStored,
      JobsStored, OverOk, NoLateUploader, RecordsOk, ThumbsOk, StaleOk, StaleStored, QueuesOk, AloneOk, OverlapsOk;
    Clauses(cfg, s);
    DeleteExpiredFrame(cfg, s, m);
    DeleteExpiredCovered(cfg, s, m);
    FromClauses(cfg, DeleteExpired(s, m));
  }
}
