/** Every effect of a delete handler keeps the invariant. */
module DeleteSteps {
  import opened Keys
  import opened Catalogs
  import opened Rendering
  import opened Avatars
  import opened Routing
  import opened Lifecycle
  import opened Invariants

  lemma DeleteStartedRecords(cfg: Config, s: State, h: nat, id: Id)
    requires h !in s.deleters && id in s.rows && !s.rows[id].deleted
    requires RowsOk(cfg, s.rows, s.born) && UploadersOk(s.uploaders, s.rows, s.born, s.incidents)
    requires EarlyOk(s.uploaders, s.deleters, s.announced, s.objects, s.born)
    requires AnnouncedOk(s.announced, s.rows, s.born)
    ensures var t := DeleterAt(s, h, Deleter(id, AllKeys(s.rows[id]), SoftDeleting));
      EarlyOk(t.uploaders, t.deleters, t.announced, t.objects, t.born)
  {
    hide AllDeclared, Plan, FullMap, OriginalKeyFor, Genuine, AllKeys;
  }

  lemma DeleteStartedDeleters(cfg: Config, s: State, h: nat, id: Id)
    requires h !in s.deleters && id in s.rows && !s.rows[id].deleted
    requires BornOk(s.born) && RowsOk(cfg, s.rows, s.born)
    requires DeletersOk(cfg, s.deleters, s.rows, s.born, s.announced) && AnnouncedOk(s.announced, s.rows, s.born)
    ensures var t := DeleterAt(s, h, Deleter(id, AllKeys(s.rows[id]), SoftDeleting));
      DeletersOk(cfg, t.deleters, t.rows, t.born, t.announced)
  {
    hide AllDeclared, Plan, FullMap, OriginalKeyFor, Genuine;
    FullMapKeys(cfg.catalog.sizes, id);
  }

  lemma DeleteStartedCovered(cfg: Config, s: State, h: nat, id: Id)
    requires h !in s.deleters && id in s.rows && !s.rows[id].deleted
    requires Covered(cfg, s)
    ensures Covered(cfg, DeleterAt(s, h, Deleter(id, AllKeys(s.rows[id]), SoftDeleting)))
  {
    hide AllDeclared, Plan, FullMap, OriginalKeyFor, Genuine, RenderThumbnail, ThumbKeys, RowClaims, MessageClaims,
      JobClaims, Excused, AllKeys, PlanKeys;
    var t := DeleterAt(s, h, Deleter(id, AllKeys(s.rows[id]), SoftDeleting));
    forall k | k in t.objects && k.Avatar?() && k.id in t.rows
      ensures Claimed(cfg, t, k) || Excused(t.incidents, k)
    {
      if DeleterClaims(s.deleters, s.rows, k) {
        var x :| x in s.deleters && Holds(s.deleters[x], s.rows, k);
        assert x in t.deleters && Holds(t.deleters[x], t.rows, k);
      }
    }
  }

  lemma DeleteStartedKeeps(cfg: Config, s: State, h: nat, id: Id)
    requires Inv(cfg, s)
    requires h !in s.deleters && id in s.rows && !s.rows[id].deleted
    ensures Inv(cfg, DeleterAt(s, h, Deleter(id, AllKeys(s.rows[id]), SoftDeleting)))
  {
    hide Inv, Sat, BornOk, RowsOk, UploadersOk, EarlyOk, DeletersOk, AnnouncedOk, UploadsOk, JobsOk, DeletesOk,
      ObjectsOk, NoEarlyThumbnails, OriginalsOk, Rowless, Covered, AllAttended, SingleCarrier, WorkingOk, RowsStored,
      JobsStored, OverOk, NoLateUploader, RecordsOk, ThumbsOk, StaleOk, StaleStored, QueuesOk, AloneOk, OverlapsOk;
    Clauses(cfg, s);
    DeleteStartedRecords(cfg, s, h, id);
    DeleteStartedDeleters(cfg, s, h, id);
    DeleteStartedCovered(cfg, s, h, id);
    FromClauses(cfg, DeleterAt(s, h, Deleter(id, AllKeys(s.rows[id]), SoftDeleting)));
  }

  lemma PublishRefusedFrame(cfg: Config, s: State, h: nat)
    requires h in s.deleters && s.deleters[h].pc == Announcing
    requires EarlyOk(s.uploaders, s.deleters, s.announced, s.objects, s.born)
    requires DeletersOk(cfg, s.deleters, s.rows, s.born, s.announced)
    ensures var t := DeleterAt(s, h, s.deleters[h].(pc := Restoring));
      && EarlyOk(t.uploaders, t.deleters, t.announced, t.objects, t.born)
      && DeletersOk(cfg, t.deleters, t.rows, t.born, t.announced)
  {
    hide AllDeclared, Plan, FullMap, OriginalKeyFor, Genuine;
  }

  lemma PublishRefusedCovered(cfg: Config, s: State, h: nat)
    requires h in s.deleters && s.deleters[h].pc == Announcing
    requires Covered(cfg, s)
    ensures Covered(cfg, DeleterAt(s, h, s.deleters[h].(pc := Restoring)))
  {
    hide AllDeclared, Plan, FullMap, OriginalKeyFor, Genuine, RenderThumbnail, ThumbKeys, RowClaims, MessageClaims,
      JobClaims, Excused, AllKeys, PlanKeys;
    var t := DeleterAt(s, h, s.deleters[h].(pc := Restoring));
    forall k | k in t.objects && k.Avatar?() && k.id in t.rows
      ensures Claimed(cfg, t, k) || Excused(t.incidents, k)
    {
      if DeleterClaims(s.deleters, s.rows, k) {
        var x :| x in s.deleters && Holds(s.deleters[x], s.rows, k);
        assert x in t.deleters && Holds(t.deleters[x], t.rows, k);
      }
    }
  }

  lemma PublishRefusedKeeps(cfg: Config, s: State, h: nat)
    requires Inv(cfg, s)
    requires h in s.deleters && s.deleters[h].pc == Announcing
    ensures Inv(cfg, DeleterAt(s, h, s.deleters[h].(pc := Restoring)))
  {
    hide Inv, Sat, BornOk, RowsOk, UploadersOk, EarlyOk, DeletersOk, AnnouncedOk, UploadsOk, JobsOk, DeletesOk,
      ObjectsOk, NoEarlyThumbnails, OriginalsOk, Rowless, Covered, AllAttended, SingleCarrier, WorkingOk, RowsStored,
      JobsStored, OverOk, NoLateUploader, RecordsOk, ThumbsOk, StaleOk, StaleStored, QueuesOk, AloneOk, OverlapsOk;
    Clauses(cfg, s);
    PublishRefusedFrame(cfg, s, h);
    PublishRefusedCovered(cfg, s, h);
    FromClauses(cfg, DeleterAt(s, h, s.deleters[h].(pc := Restoring)));
  }

  lemma SoftDeletedRecords(cfg: Config, s: State, h: nat)
    requires h in s.deleters && s.deleters[h].pc == SoftDeleting && s.deleters[h].id in s.rows
    requires !s.rows[s.deleters[h].id].deleted
    requires RowsOk(cfg, s.rows, s.born) && UploadersOk(s.uploaders, s.rows, s.born, s.incidents)
    requires DeletersOk(cfg, s.deleters, s.rows, s.born, s.announced) && AnnouncedOk(s.announced, s.rows, s.born)
    requires RowsStored(cfg, s.rows, s.objects, s.announced, s.incidents)
    ensures var t := SoftDeleted(s, h, s.deleters[h]);
      && RowsOk(cfg, t.rows, t.born) && UploadersOk(t.uploaders, t.rows, t.born, t.incidents)
      && AnnouncedOk(t.announced, t.rows, t.born) && RowsStored(cfg, t.rows, t.objects, t.announced, t.incidents)
  {
    hide AllDeclared, Plan, FullMap, OriginalKeyFor;
  }

  lemma SoftDeletedEarly(cfg: Config, s: State, h: nat)
    requires h in s.deleters && s.deleters[h].pc == SoftDeleting && s.deleters[h].id in s.rows
    requires !s.rows[s.deleters[h].id].deleted
    requires EarlyOk(s.uploaders, s.deleters, s.announced, s.objects, s.born)
    requires DeletersOk(cfg, s.deleters, s.rows, s.born, s.announced)
    requires UploadsOk(s.uploads, s.rows, s.born, s.uploaders)
    requires OriginalsOk(s.objects, s.rows, s.announced, s.incidents)
    requires Rowless(s.objects, s.rows, s.uploaders, s.born, s.incidents)
    requires WorkingOk(s.jobs, s.uploads, s.rows, s.incidents) && ThumbsOk(s.rows, s.incidents)
    requires StaleOk(s.rows, s.deletes, s.announced, s.incidents)
    ensures var t := SoftDeleted(s, h, s.deleters[h]);
      && EarlyOk(t.uploaders, t.deleters, t.announced, t.objects, t.born)
      && UploadsOk(t.uploads, t.rows, t.born, t.uploaders) && StaleOk(t.rows, t.deletes, t.announced, t.incidents)
      && OriginalsOk(t.objects, t.rows, t.announced, t.incidents)
      && Rowless(t.objects, t.rows, t.uploaders, t.born, t.incidents)
      && WorkingOk(t.jobs, t.uploads, t.rows, t.incidents) && ThumbsOk(t.rows, t.incidents)
  {
    hide AllDeclared, Plan, FullMap, OriginalKeyFor;
  }

  lemma SoftDeletedDeleters(cfg: Config, s: State, h: nat)
    requires h in s.deleters && s.deleters[h].pc == SoftDeleting && s.deleters[h].id in s.rows
    requires !s.rows[s.deleters[h].id].deleted
    requires DeletersOk(cfg, s.deleters, s.rows, s.born, s.announced) && AnnouncedOk(s.announced, s.rows, s.born)
    requires AllAttended(s.rows, s.uploaders, s.uploads, s.jobs, s.ackedDeleted, s.incidents)
    ensures var t := SoftDeleted(s, h, s.deleters[h]);
      && DeletersOk(cfg, t.deleters, t.rows, t.born, t.announced)
      && AllAttended(t.rows, t.uploaders, t.uploads, t.jobs, t.ackedDeleted, t.incidents)
  {
    hide AllDeclared, Plan, FullMap, OriginalKeyFor;
  }

  lemma SoftDeletedCovered(cfg: Config, s: State, h: nat)
    requires h in s.deleters && s.deleters[h].pc == SoftDeleting && s.deleters[h].id in s.rows
    requires !s.rows[s.deleters[h].id].deleted
    requires Covered(cfg, s)
    ensures Covered(cfg, SoftDeleted(s, h, s.deleters[h]))
  {
    hide AllDeclared, Plan, FullMap, OriginalKeyFor, Genuine, RenderThumbnail, ThumbKeys, MessageClaims, JobClaims,
      PlanKeys;
    var t := SoftDeleted(s, h, s.deleters[h]);
    forall k | k in t.objects && k.Avatar?() && k.id in t.rows
      ensures Claimed(cfg, t, k) || Excused(t.incidents, k)
    {
      if RowClaims(s.rows, k) && k.id == s.deleters[h].id {
        assert h in t.deleters && Holds(t.deleters[h], t.rows, k);
      } else if DeleterClaims(s.deleters, s.rows, k) {
        var x :| x in s.deleters && Holds(s.deleters[x], s.rows, k);
        assert x in t.deleters && Holds(t.deleters[x], t.rows, k);
      }
    }
  }

  lemma SoftDeletedKeeps(cfg: Config, s: State, h: nat)
    requires Inv(cfg, s)
    requires h in s.deleters && s.deleters[h].pc == SoftDeleting && s.deleters[h].id in s.rows
    requires !s.rows[s.deleters[h].id].deleted
    ensures Inv(cfg, SoftDeleted(s, h, s.deleters[h]))
  {
    hide Inv, Sat, BornOk, RowsOk, UploadersOk, EarlyOk, DeletersOk, AnnouncedOk, UploadsOk, JobsOk, DeletesOk,
      ObjectsOk, NoEarlyThumbnails, OriginalsOk, Rowless, Covered, AllAttended, SingleCarrier, WorkingOk, RowsStored,
      JobsStored, OverOk, NoLateUploader, RecordsOk, ThumbsOk, StaleOk, StaleStored, QueuesOk, AloneOk, OverlapsOk;
    Clauses(cfg, s);
    SoftDeletedRecords(cfg, s, h);
    SoftDeletedEarly(cfg, s, h);
    SoftDeletedDeleters(cfg, s, h);
    SoftDeletedCovered(cfg, s, h);
    FromClauses(cfg, SoftDeleted(s, h, s.deleters[h]));
  }

  lemma DeleteAnnouncedRecords(cfg: Config, s: State, h: nat, newId: MsgId)
    requires h in s.deleters && s.deleters[h].pc == Announcing && newId !in s.deletes
    requires BornOk(s.born) && UploadersOk(s.uploaders, s.rows, s.born, s.incidents)
    requires DeletersOk(cfg, s.deleters, s.rows, s.born, s.announced) && AnnouncedOk(s.announced, s.rows, s.born)
    ensures var t := DeleteAnnounced(s, h, s.deleters[h], newId);
      && UploadersOk(t.uploaders, t.rows, t.born, t.incidents) && AnnouncedOk(t.announced, t.rows, t.born)
  {
    hide AllDeclared, Plan, FullMap, OriginalKeyFor, Genuine, ThumbKeys;
  }

  lemma DeleteAnnouncedStored(cfg: Config, s: State, h: nat, newId: MsgId)
    requires h in s.deleters && s.deleters[h].pc == Announcing && newId !in s.deletes
    requires OriginalsOk(s.objects, s.rows, s.announced, s.incidents)
    requires Rowless(s.objects, s.rows, s.uploaders, s.born, s.incidents)
    requires SingleCarrier(s.uploads, s.jobs, s.incidents) && WorkingOk(s.jobs, s.uploads, s.rows, s.incidents)
    requires RowsStored(cfg, s.rows, s.objects, s.announced, s.incidents)
    requires RecordsOk(s.born, s.ackedDeleted, s.incidents) && AloneOk(s.uploads, s.jobs, s.incidents)
    ensures var t := DeleteAnnounced(s, h, s.deleters[h], newId);
      && RecordsOk(t.born, t.ackedDeleted, t.incidents) && OriginalsOk(t.objects, t.rows, t.announced, t.incidents)
      && Rowless(t.objects, t.rows, t.uploaders, t.born, t.incidents)
      && SingleCarrier(t.uploads, t.jobs, t.incidents) && WorkingOk(t.jobs, t.uploads, t.rows, t.incidents)
      && AloneOk(t.uploads, t.jobs, t.incidents) && RowsStored(cfg, t.rows, t.objects, t.announced, t.incidents)
  {
    hide AllDeclared, Plan, FullMap, OriginalKeyFor, AllKeys;
  }

  lemma DeleteAnnouncedEarly(cfg: Config, s: State, h: nat, newId: MsgId)
    requires h in s.deleters && s.deleters[h].pc == Announcing && newId !in s.deletes
    requires BornOk(s.born) && EarlyOk(s.uploaders, s.deleters, s.announced, s.objects, s.born)
    requires DeletersOk(cfg, s.deleters, s.rows, s.born, s.announced)
    requires NoLateUploader(s.uploaders, s.ackedDeleted, s.incidents)
    ensures var t := DeleteAnnounced(s, h, s.deleters[h], newId);
      && EarlyOk(t.uploaders, t.deleters, t.announced, t.objects, t.born)
      && NoLateUploader(t.uploaders, t.ackedDeleted, t.incidents)
  {
    hide AllDeclared, Plan, FullMap, OriginalKeyFor, AllKeys;
  }

  lemma DeleteAnnouncedDeleters(cfg: Config, s: State, h: nat, newId: MsgId)
    requires h in s.deleters && s.deleters[h].pc == Announcing && newId !in s.deletes
    requires DeletersOk(cfg, s.deleters, s.rows, s.born, s.announced)
    ensures var t := DeleteAnnounced(s, h, s.deleters[h], newId);
      DeletersOk(cfg, t.deleters, t.rows, t.born, t.announced)
  {
    hide AllDeclared, Plan, FullMap, OriginalKeyFor, Genuine;
  }

  lemma DeleteAnnouncedMail(cfg: Config, s: State, h: nat, newId: MsgId)
    requires h in s.deleters && s.deleters[h].pc == Announcing && newId !in s.deletes
    requires DeletersOk(cfg, s.deleters, s.rows, s.born, s.announced)
    requires DeletesOk(cfg, s.deletes, s.cleaners, s.announced, s.born)
    ensures var t := DeleteAnnounced(s, h, s.deleters[h], newId);
      DeletesOk(cfg, t.deletes, t.cleaners, t.announced, t.born)
  {
    hide AllDeclared, Plan, FullMap, OriginalKeyFor, Genuine, AllKeys, DeletersOk;
    ListedKeys(cfg, s, h);
    NoCleanerYet(cfg, s, newId);
  }

  lemma DeleteAnnouncedStale(cfg: Config, s: State, h: nat, newId: MsgId)
    requires h in s.deleters && s.deleters[h].pc == Announcing && newId !in s.deletes
    requires BornOk(s.born) && RowsOk(cfg, s.rows, s.born)
    requires DeletersOk(cfg, s.deleters, s.rows, s.born, s.announced)
    requires DeletesOk(cfg, s.deletes, s.cleaners, s.announced, s.born)
    requires StaleOk(s.rows, s.deletes, s.announced, s.incidents)
    ensures var t := DeleteAnnounced(s, h, s.deleters[h], newId);
      StaleOk(t.rows, t.deletes, t.announced, t.incidents)
  {
    hide AllDeclared, Plan, FullMap, OriginalKeyFor, AllKeys, PlanKeys, DeletersOk, DeletesOk, RowsOk, BornOk,
      StaleOk;
    var d := s.deleters[h];
    NoEarlierEvent(cfg, s, h);
    if s.deleters[h].id in s.rows && AllKeys(s.rows[s.deleters[h].id]) != s.deleters[h].keys {
      StaleMeansOriginalOnly(cfg, s, h);
    }
    StaleGrows(s.rows, s.deletes, s.announced, s.incidents, if d.id in s.rows
      && AllKeys(s.rows[d.id]) != d.keys then {StaleKeyList(d.id)} else {}, newId, DeleteMsg(d.id, d.keys, 0, Main));
  }

  lemma DeleteAnnouncedContents(cfg: Config, s: State, h: nat, newId: MsgId)
    requires h in s.deleters && s.deleters[h].pc == Announcing && newId !in s.deletes
    requires BornOk(s.born) && RowsOk(cfg, s.rows, s.born)
    requires DeletersOk(cfg, s.deleters, s.rows, s.born, s.announced)
    requires DeletesOk(cfg, s.deletes, s.cleaners, s.announced, s.born)
    requires RowsStored(cfg, s.rows, s.objects, s.announced, s.incidents) && ThumbsOk(s.rows, s.incidents)
    requires StaleStored(cfg, s.objects, s.incidents)
    ensures var t := DeleteAnnounced(s, h, s.deleters[h], newId);
      StaleStored(cfg, t.objects, t.incidents)
  {
    hide AllDeclared, Plan, FullMap, OriginalKeyFor, RenderThumbnail, AllKeys, DeletersOk, DeletesOk, RowsOk, BornOk;
    NoEarlierEvent(cfg, s, h);
    if s.deleters[h].id in s.rows && AllKeys(s.rows[s.deleters[h].id]) != s.deleters[h].keys {
      StaleMeansOriginalOnly(cfg, s, h);
    }
  }

  lemma DeleteAnnouncedProgress(cfg: Config, s: State, h: nat, newId: MsgId)
    requires h in s.deleters && s.deleters[h].pc == Announcing && newId !in s.deletes
    requires AllAttended(s.rows, s.uploaders, s.uploads, s.jobs, s.ackedDeleted, s.incidents)
    requires OverOk(s.uploads, s.jobs, s.ackedDeleted, s.incidents)
    requires QueuesOk(cfg, s.jobs, s.cleaners, s.incidents)
    ensures var t := DeleteAnnounced(s, h, s.deleters[h], newId);
      && AllAttended(t.rows, t.uploaders, t.uploads, t.jobs, t.ackedDeleted, t.incidents)
      && OverOk(t.uploads, t.jobs, t.ackedDeleted, t.incidents) && QueuesOk(cfg, t.jobs, t.cleaners, t.incidents)
  {
    hide AllDeclared, Plan, FullMap, OriginalKeyFor, AllKeys, PlanKeys;
  }

  lemma DeleteAnnouncedOverlaps(cfg: Config, s: State, h: nat, newId: MsgId)
    requires h in s.deleters && s.deleters[h].pc == Announcing && newId !in s.deletes
    requires JobsStored(cfg, s.jobs, s.uploads, s.objects, s.announced, s.incidents)
    requires ThumbsOk(s.rows, s.incidents) && OverlapsOk(s.incidents)
    ensures var t := DeleteAnnounced(s, h, s.deleters[h], newId);
      && ThumbsOk(t.rows, t.incidents) && OverlapsOk(t.incidents)
      && JobsStored(cfg, t.jobs, t.uploads, t.objects, t.announced, t.incidents)
  {
    hide AllDeclared, Plan, FullMap, OriginalKeyFor, AllKeys;
  }

  lemma DeleteAnnouncedCovered(cfg: Config, s: State, h: nat, newId: MsgId)
    requires h in s.deleters && s.deleters[h].pc == Announcing && newId !in s.deletes
    requires BornOk(s.born) && RowsOk(cfg, s.rows, s.born)
    requires DeletersOk(cfg, s.deleters, s.rows, s.born, s.announced)
    requires DeletesOk(cfg, s.deletes, s.cleaners, s.announced, s.born) && Covered(cfg, s)
    ensures Covered(cfg, DeleteAnnounced(s, h, s.deleters[h], newId))
  {
    hide AllDeclared, Plan, FullMap, OriginalKeyFor, Genuine, RenderThumbnail, ThumbKeys, RowClaims, JobClaims,
      PlanKeys, KeysOf, BornOk, RowsOk, DeletersOk, DeletesOk;
    var t := DeleteAnnounced(s, h, s.deleters[h], newId);
    forall k | k in t.objects && k.Avatar?() && k.id in t.rows
      ensures Claimed(cfg, t, k) || Excused(t.incidents, k)
    {
      if MessageClaims(s.deletes, s.cleaners, k) {
        var x :| x in s.deletes && Outstanding(s.deletes[x], CleanerOf(s.cleaners, x), k);
        assert x in t.deletes && Outstanding(t.deletes[x], CleanerOf(t.cleaners, x), k);
      } else if DeleterClaims(s.deleters, s.rows, k) {
        var x :| x in s.deleters && Holds(s.deleters[x], s.rows, k);
        if x == h {
          NoCleanerYet(cfg, s, newId);
          if k !in s.deleters[h].keys { AnnouncedOrStale(cfg, s, h, k); }
          assert k in s.deleters[h].keys
            ==> newId in t.deletes && Outstanding(t.deletes[newId], CleanerOf(t.cleaners, newId), k);
        } else {
          assert x in t.deleters && Holds(t.deleters[x], t.rows, k);
        }
      }
    }
  }

  lemma DeleteAnnouncedKeeps(cfg: Config, s: State, h: nat, newId: MsgId)
    requires Inv(cfg, s)
    requires h in s.deleters && s.deleters[h].pc == Announcing && newId !in s.deletes
    ensures Inv(cfg, DeleteAnnounced(s, h, s.deleters[h], newId))
  {
    hide Inv, Sat, BornOk, RowsOk, UploadersOk, EarlyOk, DeletersOk, AnnouncedOk, UploadsOk, JobsOk, DeletesOk,
      ObjectsOk, NoEarlyThumbnails, OriginalsOk, Rowless, Covered, AllAttended, SingleCarrier, WorkingOk, RowsStored,
      JobsStored, OverOk, NoLateUploader, RecordsOk, ThumbsOk, StaleOk, StaleStored, QueuesOk, AloneOk, OverlapsOk;
    Clauses(cfg, s);
    DeleteAnnouncedRecords(cfg, s, h, newId);
    DeleteAnnouncedStored(cfg, s, h, newId);
    DeleteAnnouncedEarly(cfg, s, h, newId);
    DeleteAnnouncedDeleters(cfg, s, h, newId);
    DeleteAnnouncedMail(cfg, s, h, newId);
    DeleteAnnouncedStale(cfg, s, h, newId);
    DeleteAnnouncedContents(cfg, s, h, newId);
    DeleteAnnouncedProgress(cfg, s, h, newId);
    DeleteAnnouncedOverlaps(cfg, s, h, newId);
    DeleteAnnouncedCovered(cfg, s, h, newId);
    FromClauses(cfg, DeleteAnnounced(s, h, s.deleters[h], newId));
  }

  lemma RowRestoredRecords(cfg: Config, s: State, h: nat)
    requires h in s.deleters && s.deleters[h].pc == Restoring && s.deleters[h].id in s.rows
    requires s.rows[s.deleters[h].id].deleted
    requires RowsOk(cfg, s.rows, s.born) && UploadersOk(s.uploaders, s.rows, s.born, s.incidents)
    requires DeletersOk(cfg, s.deleters, s.rows, s.born, s.announced) && AnnouncedOk(s.announced, s.rows, s.born)
    ensures var t := RowRestored(s, h, s.deleters[h]);
      && RowsOk(cfg, t.rows, t.born) && UploadersOk(t.uploaders, t.rows, t.born, t.incidents)
      && AnnouncedOk(t.announced, t.rows, t.born)
  {
    hide AllDeclared, Plan, FullMap, OriginalKeyFor, Genuine, ThumbKeys;
  }

  lemma RowRestoredMail(cfg: Config, s: State, h: nat)
    requires h in s.deleters && s.deleters[h].pc == Restoring && s.deleters[h].id in s.rows
    requires s.rows[s.deleters[h].id].deleted
    requires EarlyOk(s.uploaders, s.deleters, s.announced, s.objects, s.born)
    requires DeletersOk(cfg, s.deleters, s.rows, s.born, s.announced)
    requires RecordsOk(s.born, s.ackedDeleted, s.incidents) && StaleOk(s.rows, s.deletes, s.announced, s.incidents)
    ensures var t := RowRestored(s, h, s.deleters[h]);
      && RecordsOk(t.born, t.ackedDeleted, t.incidents)
      && EarlyOk(t.uploaders, t.deleters, t.announced, t.objects, t.born)
      && StaleOk(t.rows, t.deletes, t.announced, t.incidents)
  {
    hide AllDeclared, Plan, FullMap, OriginalKeyFor;
  }

  lemma RowRestoredDeleters(cfg: Config, s: State, h: nat)
    requires h in s.deleters && s.deleters[h].pc == Restoring && s.deleters[h].id in s.rows
    requires s.rows[s.deleters[h].id].deleted
    requires DeletersOk(cfg, s.deleters, s.rows, s.born, s.announced) && AnnouncedOk(s.announced, s.rows, s.born)
    requires OverOk(s.uploads, s.jobs, s.ackedDeleted, s.incidents)
    ensures var t := RowRestored(s, h, s.deleters[h]);
      && DeletersOk(cfg, t.deleters, t.rows, t.born, t.announced)
      && OverOk(t.uploads, t.jobs, t.ackedDeleted, t.incidents)
  {
    hide AllDeclared, Plan, FullMap, OriginalKeyFor;
  }

  lemma RowRestoredContents(cfg: Config, s: State, h: nat)
    requires h in s.deleters && s.deleters[h].pc == Restoring && s.deleters[h].id in s.rows
    requires s.rows[s.deleters[h].id].deleted
    requires UploadsOk(s.uploads, s.rows, s.born, s.uploaders)
    requires OriginalsOk(s.objects, s.rows, s.announced, s.incidents)
    requires Rowless(s.objects, s.rows, s.uploaders, s.born, s.incidents)
    requires SingleCarrier(s.uploads, s.jobs, s.incidents) && WorkingOk(s.jobs, s.uploads, s.rows, s.incidents)
    requires JobsStored(cfg, s.jobs, s.uploads, s.objects, s.announced, s.incidents)
    requires StaleStored(cfg, s.objects, s.incidents) && AloneOk(s.uploads, s.jobs, s.incidents)
    requires OverlapsOk(s.incidents)
    ensures var t := RowRestored(s, h, s.deleters[h]);
      && UploadsOk(t.uploads, t.rows, t.born, t.uploaders)
      && OriginalsOk(t.objects, t.rows, t.announced, t.incidents)
      && Rowless(t.objects, t.rows, t.uploaders, t.born, t.incidents) && StaleStored(cfg, t.objects, t.incidents)
      && SingleCarrier(t.uploads, t.jobs, t.incidents) && WorkingOk(t.jobs, t.uploads, t.rows, t.incidents)
      && AloneOk(t.uploads, t.jobs, t.incidents) && OverlapsOk(t.incidents)
      && JobsStored(cfg, t.jobs, t.uploads, t.objects, t.announced, t.incidents)
  {
    hide AllDeclared, Plan, FullMap, OriginalKeyFor, AllKeys;
  }

  lemma RowRestoredProgress(cfg: Config, s: State, h: nat)
    requires h in s.deleters && s.deleters[h].pc == Restoring && s.deleters[h].id in s.rows
    requires s.rows[s.deleters[h].id].deleted
    requires AllAttended(s.rows, s.uploaders, s.uploads, s.jobs, s.ackedDeleted, s.incidents)
    requires RowsStored(cfg, s.rows, s.objects, s.announced, s.incidents)
    requires NoLateUploader(s.uploaders, s.ackedDeleted, s.incidents) && ThumbsOk(s.rows, s.incidents)
    requires QueuesOk(cfg, s.jobs, s.cleaners, s.incidents)
    ensures var t := RowRestored(s, h, s.deleters[h]);
      && AllAttended(t.rows, t.uploaders, t.uploads, t.jobs, t.ackedDeleted, t.incidents)
      && NoLateUploader(t.uploaders, t.ackedDeleted, t.incidents) && ThumbsOk(t.rows, t.incidents)
      && QueuesOk(cfg, t.jobs, t.cleaners, t.incidents)
      && RowsStored(cfg, t.rows, t.objects, t.announced, t.incidents)
  {
    hide AllDeclared, Plan, FullMap, OriginalKeyFor, AllKeys;
  }

  lemma RowRestoredCovered(cfg: Config, s: State, h: nat)
    requires h in s.deleters && s.deleters[h].pc == Restoring && s.deleters[h].id in s.rows
    requires s.rows[s.deleters[h].id].deleted
    requires BornOk(s.born) && RowsOk(cfg, s.rows, s.born)
    requires DeletersOk(cfg, s.deleters, s.rows, s.born, s.announced) && Covered(cfg, s)
    ensures Covered(cfg, RowRestored(s, h, s.deleters[h]))
  {
    hide AllDeclared, Plan, FullMap, OriginalKeyFor, Genuine, RenderThumbnail, ThumbKeys, MessageClaims, JobClaims,
      PlanKeys;
    var t := RowRestored(s, h, s.deleters[h]);
    forall k | k in t.objects && k.Avatar?() && k.id in t.rows
      ensures Claimed(cfg, t, k) || Excused(t.incidents, k)
    {
      if DeleterClaims(s.deleters, s.rows, k) {
        var x :| x in s.deleters && Holds(s.deleters[x], s.rows, k);
        if x == h {
          HeldKeysNameTheirAvatar(cfg, s, h, k);
        } else {
          assert x in t.deleters && Holds(t.deleters[x], t.rows, k);
        }
      }
    }
  }

  lemma RowRestoredKeeps(cfg: Config, s: State, h: nat)
    requires Inv(cfg, s)
    requires h in s.deleters && s.deleters[h].pc == Restoring && s.deleters[h].id in s.rows
    requires s.rows[s.deleters[h].id].deleted
    ensures Inv(cfg, RowRestored(s, h, s.deleters[h]))
  {
    hide Inv, Sat, BornOk, RowsOk, UploadersOk, EarlyOk, DeletersOk, AnnouncedOk, UploadsOk, JobsOk, DeletesOk,
      ObjectsOk, NoEarlyThumbnails, OriginalsOk, Rowless, Covered, AllAttended, SingleCarrier, WorkingOk, RowsStored,
      JobsStored, OverOk, NoLateUploader, RecordsOk, ThumbsOk, StaleOk, StaleStored, QueuesOk, AloneOk, OverlapsOk;
    Clauses(cfg, s);
    RowRestoredRecords(cfg, s, h);
    RowRestoredMail(cfg, s, h);
    RowRestoredDeleters(cfg, s, h);
    RowRestoredContents(cfg, s, h);
    RowRestoredProgress(cfg, s, h);
    RowRestoredCovered(cfg, s, h);
    FromClauses(cfg, RowRestored(s, h, s.deleters[h]));
  }

  lemma DeleterGoneProgress(cfg: Config, s: State, h: nat, noted: set<Incident>)
    requires h in s.deleters && DeleterMayGo(s, s.deleters[h], noted)
    requires UploadersOk(s.uploaders, s.rows, s.born, s.incidents)
    requires AllAttended(s.rows, s.uploaders, s.uploads, s.jobs, s.ackedDeleted, s.incidents)
    requires WorkingOk(s.jobs, s.uploads, s.rows, s.incidents)
    requires NoLateUploader(s.uploaders, s.ackedDeleted, s.incidents)
    requires QueuesOk(cfg, s.jobs, s.cleaners, s.incidents)
    ensures var t := DeleterGone(s, h, noted);
      && UploadersOk(t.uploaders, t.rows, t.born, t.incidents)
      && AllAttended(t.rows, t.uploaders, t.uploads, t.jobs, t.ackedDeleted, t.incidents)
      && WorkingOk(t.jobs, t.uploads, t.rows, t.incidents)
      && NoLateUploader(t.uploaders, t.ackedDeleted, t.incidents) && QueuesOk(cfg, t.jobs, t.cleaners, t.incidents)
  {
    hide AllDeclared, Plan, FullMap, OriginalKeyFor;
  }

  lemma DeleterGoneRecords(cfg: Config, s: State, h: nat, noted: set<Incident>)
    requires h in s.deleters && DeleterMayGo(s, s.deleters[h], noted)
    requires EarlyOk(s.uploaders, s.deleters, s.announced, s.objects, s.born)
    requires Rowless(s.objects, s.rows, s.uploaders, s.born, s.incidents)
    requires SingleCarrier(s.uploads, s.jobs, s.incidents)
    requires RowsStored(cfg, s.rows, s.objects, s.announced, s.incidents)
    requires JobsStored(cfg, s.jobs, s.uploads, s.objects, s.announced, s.incidents)
    requires RecordsOk(s.born, s.ackedDeleted, s.incidents) && ThumbsOk(s.rows, s.incidents)
    requires StaleOk(s.rows, s.deletes, s.announced, s.incidents) && AloneOk(s.uploads, s.jobs, s.incidents)
    ensures var t := DeleterGone(s, h, noted);
      && RecordsOk(t.born, t.ackedDeleted, t.incidents)
      && EarlyOk(t.uploaders, t.deleters, t.announced, t.objects, t.born)
      && StaleOk(t.rows, t.deletes, t.announced, t.incidents)
      && Rowless(t.objects, t.rows, t.uploaders, t.born, t.incidents)
      && SingleCarrier(t.uploads, t.jobs, t.incidents) && AloneOk(t.uploads, t.jobs, t.incidents)
      && ThumbsOk(t.rows, t.incidents) && RowsStored(cfg, t.rows, t.objects, t.announced, t.incidents)
      && JobsStored(cfg, t.jobs, t.uploads, t.objects, t.announced, t.incidents)
  {
    hide AllDeclared, Plan, FullMap, OriginalKeyFor;
  }

  lemma DeleterGoneDeleters(cfg: Config, s: State, h: nat, noted: set<Incident>)
    requires h in s.deleters && DeleterMayGo(s, s.deleters[h], noted)
    requires DeletersOk(cfg, s.deleters, s.rows, s.born, s.announced)
    requires OverOk(s.uploads, s.jobs, s.ackedDeleted, s.incidents) && StaleStored(cfg, s.objects, s.incidents)
    ensures var t := DeleterGone(s, h, noted);
      && DeletersOk(cfg, t.deleters, t.rows, t.born, t.announced) && StaleStored(cfg, t.objects, t.incidents)
      && OverOk(t.uploads, t.jobs, t.ackedDeleted, t.incidents)
  {
    hide AllDeclared, Plan, FullMap, OriginalKeyFor;
  }

  lemma DeleterGoneOverlaps(cfg: Config, s: State, h: nat, noted: set<Incident>)
    requires h in s.deleters && DeleterMayGo(s, s.deleters[h], noted)
    requires OriginalsOk(s.objects, s.rows, s.announced, s.incidents) && OverlapsOk(s.incidents)
    ensures var t := DeleterGone(s, h, noted);
      && OriginalsOk(t.objects, t.rows, t.announced, t.incidents) && OverlapsOk(t.incidents)
  {
    hide AllDeclared, Plan, FullMap, OriginalKeyFor, AllKeys;
  }

  lemma DeleterGoneCovered(cfg: Config, s: State, h: nat, noted: set<Incident>)
    requires h in s.deleters && DeleterMayGo(s, s.deleters[h], noted)
    requires BornOk(s.born) && RowsOk(cfg, s.rows, s.born)
    requires DeletersOk(cfg, s.deleters, s.rows, s.born, s.announced) && Covered(cfg, s)
    ensures Covered(cfg, DeleterGone(s, h, noted))
  {
    hide AllDeclared, Plan, FullMap, OriginalKeyFor, Genuine, RenderThumbnail, ThumbKeys, RowClaims, MessageClaims,
      JobClaims, AllKeys, PlanKeys;
    var t := DeleterGone(s, h, noted);
    forall k | k in t.objects && k.Avatar?() && k.id in t.rows
      ensures Claimed(cfg, t, k) || Excused(t.incidents, k)
    {
      if DeleterClaims(s.deleters, s.rows, k) {
        var x :| x in s.deleters && Holds(s.deleters[x], s.rows, k);
        if x == h {
          HeldKeysNameTheirAvatar(cfg, s, h, k);
        } else {
          assert x in t.deleters && Holds(t.deleters[x], t.rows, k);
        }
      }
    }
  }

  lemma DeleterGoneKeeps(cfg: Config, s: State, h: nat, noted: set<Incident>)
    requires Inv(cfg, s)
    requires h in s.deleters && DeleterMayGo(s, s.deleters[h], noted)
    ensures Inv(cfg, DeleterGone(s, h, noted))
  {
    hide Inv, Sat, BornOk, RowsOk, UploadersOk, EarlyOk, DeletersOk, AnnouncedOk, UploadsOk, JobsOk, DeletesOk,
      ObjectsOk, NoEarlyThumbnails, OriginalsOk, Rowless, Covered, AllAttended, SingleCarrier, WorkingOk, RowsStored,
      JobsStored, OverOk, NoLateUploader, RecordsOk, ThumbsOk, StaleOk, StaleStored, QueuesOk, AloneOk, OverlapsOk;
    Clauses(cfg, s);
    DeleterGoneProgress(cfg, s, h, noted);
    DeleterGoneRecords(cfg, s, h, noted);
    DeleterGoneDeleters(cfg, s, h, noted);
    DeleterGoneOverlaps(cfg, s, h, noted);
    DeleterGoneCovered(cfg, s, h, noted);
    FromClauses(cfg, DeleterGone(s, h, noted));
  }
}
