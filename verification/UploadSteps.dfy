/** Every effect of an upload handler keeps the invariant. */
module UploadSteps {
  import opened Keys
  import opened Catalogs
  import opened Rendering
  import opened Avatars
  import opened Routing
  import opened Lifecycle
  import opened Invariants

  lemma ConceivedRecords(cfg: Config, s: State, id: Id, b: Birth)
    requires id !in s.born && b.key == OriginalKeyFor(b.user, id, b.mime)
    requires BornOk(s.born) && RowsOk(cfg, s.rows, s.born) && UploadersOk(s.uploaders, s.rows, s.born, s.incidents)
    requires DeletersOk(cfg, s.deleters, s.rows, s.born, s.announced) && AnnouncedOk(s.announced, s.rows, s.born)
    ensures var t := Conceived(s, id, b);
      && BornOk(t.born) && RowsOk(cfg, t.rows, t.born) && UploadersOk(t.uploaders, t.rows, t.born, t.incidents)
      && AnnouncedOk(t.announced, t.rows, t.born)
  {
    hide AllDeclared, Plan, FullMap, OriginalKeyFor, Genuine, ThumbKeys;
  }

  lemma ConceivedMail(cfg: Config, s: State, id: Id, b: Birth)
    requires id !in s.born && b.key == OriginalKeyFor(b.user, id, b.mime)
    requires RowsOk(cfg, s.rows, s.born) && UploadsOk(s.uploads, s.rows, s.born, s.uploaders)
    requires JobsOk(cfg, s.jobs, s.uploads, s.born) && DeletesOk(cfg, s.deletes, s.cleaners, s.announced, s.born)
    requires RecordsOk(s.born, s.ackedDeleted, s.incidents)
    ensures var t := Conceived(s, id, b);
      && RecordsOk(t.born, t.ackedDeleted, t.incidents) && UploadsOk(t.uploads, t.rows, t.born, t.uploaders)
      && DeletesOk(cfg, t.deletes, t.cleaners, t.announced, t.born)
  {
    hide AllDeclared, Plan, FullMap, OriginalKeyFor, AllKeys;
  }

  lemma ConceivedEarly(cfg: Config, s: State, id: Id, b: Birth)
    requires id !in s.born && b.key == OriginalKeyFor(b.user, id, b.mime)
    requires RowsOk(cfg, s.rows, s.born) && EarlyOk(s.uploaders, s.deleters, s.announced, s.objects, s.born)
    requires DeletersOk(cfg, s.deleters, s.rows, s.born, s.announced) && AnnouncedOk(s.announced, s.rows, s.born)
    ensures var t := Conceived(s, id, b);
      && EarlyOk(t.uploaders, t.deleters, t.announced, t.objects, t.born)
      && DeletersOk(cfg, t.deleters, t.rows, t.born, t.announced)
  {
    hide AllDeclared, Plan, FullMap, OriginalKeyFor, Genuine;
  }

  lemma ConceivedJobs(cfg: Config, s: State, id: Id, b: Birth)
    requires id !in s.born && b.key == OriginalKeyFor(b.user, id, b.mime)
    requires RowsOk(cfg, s.rows, s.born) && UploadsOk(s.uploads, s.rows, s.born, s.uploaders)
    requires JobsOk(cfg, s.jobs, s.uploads, s.born) && DeletesOk(cfg, s.deletes, s.cleaners, s.announced, s.born)
    requires Rowless(s.objects, s.rows, s.uploaders, s.born, s.incidents)
    ensures var t := Conceived(s, id, b);
      && JobsOk(cfg, t.jobs, t.uploads, t.born) && Rowless(t.objects, t.rows, t.uploaders, t.born, t.incidents)
  {
    hide AllDeclared, Plan, FullMap, OriginalKeyFor, Genuine, AllKeys;
  }

  lemma ConceivedProgress(cfg: Config, s: State, id: Id, b: Birth)
    requires id !in s.born && b.key == OriginalKeyFor(b.user, id, b.mime)
    requires RowsOk(cfg, s.rows, s.born) && ObjectsOk(cfg, s.objects, s.born)
    requires NoEarlyThumbnails(s.objects, s.uploaders)
    requires AllAttended(s.rows, s.uploaders, s.uploads, s.jobs, s.ackedDeleted, s.incidents)
    requires NoLateUploader(s.uploaders, s.ackedDeleted, s.incidents)
    requires RecordsOk(s.born, s.ackedDeleted, s.incidents)
    ensures var t := Conceived(s, id, b);
      && ObjectsOk(cfg, t.objects, t.born) && NoEarlyThumbnails(t.objects, t.uploaders)
      && AllAttended(t.rows, t.uploaders, t.uploads, t.jobs, t.ackedDeleted, t.incidents)
      && NoLateUploader(t.uploaders, t.ackedDeleted, t.incidents)
  {
    hide AllDeclared, Plan, FullMap, OriginalKeyFor, AllKeys;
  }

  lemma ConceivedCovered(cfg: Config, s: State, id: Id, b: Birth)
    requires id !in s.born && b.key == OriginalKeyFor(b.user, id, b.mime)
    requires Covered(cfg, s)
    ensures Covered(cfg, Conceived(s, id, b))
  {
    hide AllDeclared, Plan, FullMap, OriginalKeyFor, Genuine, RenderThumbnail, ThumbKeys, RowClaims, DeleterClaims,
      MessageClaims, JobClaims, Excused, AllKeys, PlanKeys;
  }

  lemma ConceivedKeeps(cfg: Config, s: State, id: Id, b: Birth)
    requires Inv(cfg, s)
    requires id !in s.born && b.key == OriginalKeyFor(b.user, id, b.mime)
    ensures Inv(cfg, Conceived(s, id, b))
  {
    hide Inv, Sat, BornOk, RowsOk, UploadersOk, EarlyOk, DeletersOk, AnnouncedOk, UploadsOk, JobsOk, DeletesOk,
      ObjectsOk, NoEarlyThumbnails, OriginalsOk, Rowless, Covered, AllAttended, SingleCarrier, WorkingOk, RowsStored,
      JobsStored, OverOk, NoLateUploader, RecordsOk, ThumbsOk, StaleOk, StaleStored, QueuesOk, AloneOk, OverlapsOk;
    Clauses(cfg, s);
    ConceivedRecords(cfg, s, id, b);
    ConceivedMail(cfg, s, id, b);
    ConceivedEarly(cfg, s, id, b);
    ConceivedJobs(cfg, s, id, b);
    ConceivedProgress(cfg, s, id, b);
    ConceivedCovered(cfg, s, id, b);
    FromClauses(cfg, Conceived(s, id, b));
  }

  lemma OriginalPutContents(cfg: Config, s: State, id: Id)
    requires id in s.uploaders && s.uploaders[id] == Putting && id in s.born
    requires BornOk(s.born) && UploadersOk(s.uploaders, s.rows, s.born, s.incidents)
    requires EarlyOk(s.uploaders, s.deleters, s.announced, s.objects, s.born) && ObjectsOk(cfg, s.objects, s.born)
    requires NoEarlyThumbnails(s.objects, s.uploaders) && OriginalsOk(s.objects, s.rows, s.announced, s.incidents)
    ensures var t := OriginalPut(s, id, s.born[id]);
      && UploadersOk(t.uploaders, t.rows, t.born, t.incidents) && ObjectsOk(cfg, t.objects, t.born)
      && NoEarlyThumbnails(t.objects, t.uploaders) && OriginalsOk(t.objects, t.rows, t.announced, t.incidents)
  {
    hide AllDeclared, Plan, FullMap, OriginalKeyFor;
  }

  lemma OriginalPutStaleStored(cfg: Config, s: State, id: Id)
    requires id in s.uploaders && s.uploaders[id] == Putting && id in s.born
    requires EarlyOk(s.uploaders, s.deleters, s.announced, s.objects, s.born)
    requires UploadsOk(s.uploads, s.rows, s.born, s.uploaders)
    requires NoLateUploader(s.uploaders, s.ackedDeleted, s.incidents) && StaleStored(cfg, s.objects, s.incidents)
    ensures var t := OriginalPut(s, id, s.born[id]);
      && EarlyOk(t.uploaders, t.deleters, t.announced, t.objects, t.born)
      && UploadsOk(t.uploads, t.rows, t.born, t.uploaders) && StaleStored(cfg, t.objects, t.incidents)
      && NoLateUploader(t.uploaders, t.ackedDeleted, t.incidents)
  {
    hide AllDeclared, Plan, FullMap, OriginalKeyFor, AllKeys;
  }

  lemma OriginalPutRowless(cfg: Config, s: State, id: Id)
    requires id in s.uploaders && s.uploaders[id] == Putting && id in s.born
    requires BornOk(s.born) && UploadersOk(s.uploaders, s.rows, s.born, s.incidents)
    requires EarlyOk(s.uploaders, s.deleters, s.announced, s.objects, s.born)
    requires Rowless(s.objects, s.rows, s.uploaders, s.born, s.incidents)
    requires AllAttended(s.rows, s.uploaders, s.uploads, s.jobs, s.ackedDeleted, s.incidents)
    requires RowsStored(cfg, s.rows, s.objects, s.announced, s.incidents)
    requires JobsStored(cfg, s.jobs, s.uploads, s.objects, s.announced, s.incidents)
    ensures var t := OriginalPut(s, id, s.born[id]);
      && Rowless(t.objects, t.rows, t.uploaders, t.born, t.incidents)
      && AllAttended(t.rows, t.uploaders, t.uploads, t.jobs, t.ackedDeleted, t.incidents)
      && RowsStored(cfg, t.rows, t.objects, t.announced, t.incidents)
      && JobsStored(cfg, t.jobs, t.uploads, t.objects, t.announced, t.incidents)
  {
    hide AllDeclared, Plan, FullMap, OriginalKeyFor, AllKeys;
  }

  lemma OriginalPutCovered(cfg: Config, s: State, id: Id)
    requires id in s.uploaders && s.uploaders[id] == Putting && id in s.born
    requires BornOk(s.born) && UploadersOk(s.uploaders, s.rows, s.born, s.incidents) && Covered(cfg, s)
    ensures Covered(cfg, OriginalPut(s, id, s.born[id]))
  {
    hide AllDeclared, Plan, FullMap, OriginalKeyFor, Genuine, RenderThumbnail, ThumbKeys, RowClaims, DeleterClaims,
      MessageClaims, JobClaims, Excused, AllKeys, PlanKeys;
  }

  lemma OriginalPutKeeps(cfg: Config, s: State, id: Id)
    requires Inv(cfg, s)
    requires id in s.uploaders && s.uploaders[id] == Putting && id in s.born
    ensures Inv(cfg, OriginalPut(s, id, s.born[id]))
  {
    hide Inv, Sat, BornOk, RowsOk, UploadersOk, EarlyOk, DeletersOk, AnnouncedOk, UploadsOk, JobsOk, DeletesOk,
      ObjectsOk, NoEarlyThumbnails, OriginalsOk, Rowless, Covered, AllAttended, SingleCarrier, WorkingOk, RowsStored,
      JobsStored, OverOk, NoLateUploader, RecordsOk, ThumbsOk, StaleOk, StaleStored, QueuesOk, AloneOk, OverlapsOk;
    Clauses(cfg, s);
    OriginalPutContents(cfg, s, id);
    OriginalPutStaleStored(cfg, s, id);
    OriginalPutRowless(cfg, s, id);
    OriginalPutCovered(cfg, s, id);
    FromClauses(cfg, OriginalPut(s, id, s.born[id]));
  }

  lemma RowInsertedRecords(cfg: Config, s: State, id: Id)
    requires id in s.uploaders && s.uploaders[id] == Inserting && id in s.born && id !in s.rows
    requires RowsOk(cfg, s.rows, s.born) && UploadersOk(s.uploaders, s.rows, s.born, s.incidents)
    requires EarlyOk(s.uploaders, s.deleters, s.announced, s.objects, s.born)
    requires AnnouncedOk(s.announced, s.rows, s.born)
    ensures var t := RowInserted(s, id, s.born[id]);
      && RowsOk(cfg, t.rows, t.born) && UploadersOk(t.uploaders, t.rows, t.born, t.incidents)
      && AnnouncedOk(t.announced, t.rows, t.born)
  {
    hide AllDeclared, Plan, FullMap, OriginalKeyFor, Genuine, ThumbKeys;
  }

  lemma RowInsertedContents(cfg: Config, s: State, id: Id)
    requires id in s.uploaders && s.uploaders[id] == Inserting && id in s.born && id !in s.rows
    requires RowsOk(cfg, s.rows, s.born) && UploadersOk(s.uploaders, s.rows, s.born, s.incidents)
    requires EarlyOk(s.uploaders, s.deleters, s.announced, s.objects, s.born)
    requires Rowless(s.objects, s.rows, s.uploaders, s.born, s.incidents)
    requires WorkingOk(s.jobs, s.uploads, s.rows, s.incidents)
    ensures var t := RowInserted(s, id, s.born[id]);
      && EarlyOk(t.uploaders, t.deleters, t.announced, t.objects, t.born)
      && Rowless(t.objects, t.rows, t.uploaders, t.born, t.incidents)
      && WorkingOk(t.jobs, t.uploads, t.rows, t.incidents)
  {
    hide AllDeclared, Plan, FullMap, OriginalKeyFor, AllKeys;
  }

  lemma RowInsertedDeleters(cfg: Config, s: State, id: Id)
    requires id in s.uploaders && s.uploaders[id] == Inserting && id in s.born && id !in s.rows
    requires EarlyOk(s.uploaders, s.deleters, s.announced, s.objects, s.born)
    requires DeletersOk(cfg, s.deleters, s.rows, s.born, s.announced)
    requires RowsStored(cfg, s.rows, s.objects, s.announced, s.incidents)
    ensures var t := RowInserted(s, id, s.born[id]);
      && DeletersOk(cfg, t.deleters, t.rows, t.born, t.announced)
      && RowsStored(cfg, t.rows, t.objects, t.announced, t.incidents)
  {
    hide AllDeclared, Plan, FullMap, OriginalKeyFor;
  }

  lemma RowInsertedMail(cfg: Config, s: State, id: Id)
    requires id in s.uploaders && s.uploaders[id] == Inserting && id in s.born && id !in s.rows
    requires UploadsOk(s.uploads, s.rows, s.born, s.uploaders)
    requires AllAttended(s.rows, s.uploaders, s.uploads, s.jobs, s.ackedDeleted, s.incidents)
    requires ThumbsOk(s.rows, s.incidents) && StaleOk(s.rows, s.deletes, s.announced, s.incidents)
    ensures var t := RowInserted(s, id, s.born[id]);
      && UploadsOk(t.uploads, t.rows, t.born, t.uploaders) && StaleOk(t.rows, t.deletes, t.announced, t.incidents)
      && AllAttended(t.rows, t.uploaders, t.uploads, t.jobs, t.ackedDeleted, t.incidents)
      && ThumbsOk(t.rows, t.incidents)
  {
    hide AllDeclared, Plan, FullMap, OriginalKeyFor;
  }

  lemma RowInsertedOriginals(cfg: Config, s: State, id: Id)
    requires id in s.uploaders && s.uploaders[id] == Inserting && id in s.born && id !in s.rows
    requires RowsOk(cfg, s.rows, s.born) && UploadersOk(s.uploaders, s.rows, s.born, s.incidents)
    requires EarlyOk(s.uploaders, s.deleters, s.announced, s.objects, s.born)
    requires NoEarlyThumbnails(s.objects, s.uploaders) && OriginalsOk(s.objects, s.rows, s.announced, s.incidents)
    ensures var t := RowInserted(s, id, s.born[id]);
      && NoEarlyThumbnails(t.objects, t.uploaders) && OriginalsOk(t.objects, t.rows, t.announced, t.incidents)
  {
    hide AllDeclared, Plan, FullMap, OriginalKeyFor, AllKeys;
  }

  lemma RowInsertedProgress(cfg: Config, s: State, id: Id)
    requires id in s.uploaders && s.uploaders[id] == Inserting && id in s.born && id !in s.rows
    requires NoLateUploader(s.uploaders, s.ackedDeleted, s.incidents)
    ensures var t := RowInserted(s, id, s.born[id]);
      NoLateUploader(t.uploaders, t.ackedDeleted, t.incidents)
  {
    hide AllDeclared, Plan, FullMap, OriginalKeyFor, AllKeys, PlanKeys;
  }

  lemma RowInsertedCovered(cfg: Config, s: State, id: Id)
    requires id in s.uploaders && s.uploaders[id] == Inserting && id in s.born && id !in s.rows
    requires BornOk(s.born) && ObjectsOk(cfg, s.objects, s.born) && NoEarlyThumbnails(s.objects, s.uploaders)
    requires Covered(cfg, s)
    ensures Covered(cfg, RowInserted(s, id, s.born[id]))
  {
    hide AllDeclared, Plan, FullMap, OriginalKeyFor, RenderThumbnail, ThumbKeys, MessageClaims, JobClaims, Excused,
      PlanKeys;
    var t := RowInserted(s, id, s.born[id]);
    forall k | k in t.objects && k.Avatar?() && k.id in t.rows
      ensures Claimed(cfg, t, k) || Excused(t.incidents, k)
    {
      if DeleterClaims(s.deleters, s.rows, k) {
        var x :| x in s.deleters && Holds(s.deleters[x], s.rows, k);
        assert x in t.deleters && Holds(t.deleters[x], t.rows, k);
      }
    }
  }

  lemma RowInsertedKeeps(cfg: Config, s: State, id: Id)
    requires Inv(cfg, s)
    requires id in s.uploaders && s.uploaders[id] == Inserting && id in s.born && id !in s.rows
    ensures Inv(cfg, RowInserted(s, id, s.born[id]))
  {
    hide Inv, Sat, BornOk, RowsOk, UploadersOk, EarlyOk, DeletersOk, AnnouncedOk, UploadsOk, JobsOk, DeletesOk,
      ObjectsOk, NoEarlyThumbnails, OriginalsOk, Rowless, Covered, AllAttended, SingleCarrier, WorkingOk, RowsStored,
      JobsStored, OverOk, NoLateUploader, RecordsOk, ThumbsOk, StaleOk, StaleStored, QueuesOk, AloneOk, OverlapsOk;
    Clauses(cfg, s);
    RowInsertedRecords(cfg, s, id);
    RowInsertedContents(cfg, s, id);
    RowInsertedDeleters(cfg, s, id);
    RowInsertedMail(cfg, s, id);
    RowInsertedOriginals(cfg, s, id);
    RowInsertedProgress(cfg, s, id);
    RowInsertedCovered(cfg, s, id);
    FromClauses(cfg, RowInserted(s, id, s.born[id]));
  }

  lemma UploadPublishedStored(cfg: Config, s: State, id: Id, newId: MsgId)
    requires id in s.uploaders && s.uploaders[id] == Publishing && id in s.born && newId !in s.uploads
    requires UploadersOk(s.uploaders, s.rows, s.born, s.incidents)
    requires EarlyOk(s.uploaders, s.deleters, s.announced, s.objects, s.born)
    requires JobsOk(cfg, s.jobs, s.uploads, s.born) && Rowless(s.objects, s.rows, s.uploaders, s.born, s.incidents)
    requires JobsStored(cfg, s.jobs, s.uploads, s.objects, s.announced, s.incidents)
    requires OverOk(s.uploads, s.jobs, s.ackedDeleted, s.incidents)
    requires NoLateUploader(s.uploaders, s.ackedDeleted, s.incidents)
    ensures var t := UploadPublished(s, id, s.born[id], newId);
      && UploadersOk(t.uploaders, t.rows, t.born, t.incidents)
      && EarlyOk(t.uploaders, t.deleters, t.announced, t.objects, t.born)
      && Rowless(t.objects, t.rows, t.uploaders, t.born, t.incidents)
      && OverOk(t.uploads, t.jobs, t.ackedDeleted, t.incidents)
      && NoLateUploader(t.uploaders, t.ackedDeleted, t.incidents)
      && JobsStored(cfg, t.jobs, t.uploads, t.objects, t.announced, t.incidents)
  {
    hide AllDeclared, Plan, FullMap, OriginalKeyFor;
  }

  lemma UploadPublishedProgress(cfg: Config, s: State, id: Id, newId: MsgId)
    requires id in s.uploaders && s.uploaders[id] == Publishing && id in s.born && newId !in s.uploads
    requires UploadersOk(s.uploaders, s.rows, s.born, s.incidents)
    requires UploadsOk(s.uploads, s.rows, s.born, s.uploaders) && JobsOk(cfg, s.jobs, s.uploads, s.born)
    requires NoEarlyThumbnails(s.objects, s.uploaders) && SingleCarrier(s.uploads, s.jobs, s.incidents)
    requires WorkingOk(s.jobs, s.uploads, s.rows, s.incidents) && AloneOk(s.uploads, s.jobs, s.incidents)
    ensures var t := UploadPublished(s, id, s.born[id], newId);
      && UploadsOk(t.uploads, t.rows, t.born, t.uploaders) && NoEarlyThumbnails(t.objects, t.uploaders)
      && SingleCarrier(t.uploads, t.jobs, t.incidents) && WorkingOk(t.jobs, t.uploads, t.rows, t.incidents)
      && AloneOk(t.uploads, t.jobs, t.incidents)
  {
    hide AllDeclared, Plan, FullMap, OriginalKeyFor, AllKeys;
  }

  lemma UploadPublishedAttended(cfg: Config, s: State, id: Id, newId: MsgId)
    requires id in s.uploaders && s.uploaders[id] == Publishing && id in s.born && newId !in s.uploads
    requires UploadersOk(s.uploaders, s.rows, s.born, s.incidents)
    requires UploadsOk(s.uploads, s.rows, s.born, s.uploaders) && JobsOk(cfg, s.jobs, s.uploads, s.born)
    requires AllAttended(s.rows, s.uploaders, s.uploads, s.jobs, s.ackedDeleted, s.incidents)
    ensures var t := UploadPublished(s, id, s.born[id], newId);
      && JobsOk(cfg, t.jobs, t.uploads, t.born)
      && AllAttended(t.rows, t.uploaders, t.uploads, t.jobs, t.ackedDeleted, t.incidents)
  {
    hide AllDeclared, Plan, FullMap, OriginalKeyFor, AllKeys;
    var t := UploadPublished(s, id, s.born[id], newId);
    forall x | x in t.rows
      ensures Attended(x, t.rows[x], t.uploaders, t.uploads, t.jobs, t.ackedDeleted, t.incidents)
    {
      if x == id {
        assert newId in t.uploads && Waiting(t.uploads, t.jobs, newId, x);
      } else if Carried(s.uploads, s.jobs, x) {
        var w :| w in s.uploads && Waiting(s.uploads, s.jobs, w, x);
        assert w in t.uploads && Waiting(t.uploads, t.jobs, w, x);
      }
    }
  }

  lemma UploadPublishedCovered(cfg: Config, s: State, id: Id, newId: MsgId)
    requires id in s.uploaders && s.uploaders[id] == Publishing && id in s.born && newId !in s.uploads
    requires JobsOk(cfg, s.jobs, s.uploads, s.born) && Covered(cfg, s)
    ensures Covered(cfg, UploadPublished(s, id, s.born[id], newId))
  {
    hide AllDeclared, Plan, FullMap, OriginalKeyFor, Genuine, RenderThumbnail, ThumbKeys, RowClaims, DeleterClaims,
      MessageClaims, Excused, AllKeys, PlanKeys;
    var t := UploadPublished(s, id, s.born[id], newId);
    forall k | k in t.objects && k.Avatar?() && k.id in t.rows
      ensures Claimed(cfg, t, k) || Excused(t.incidents, k)
    {
      if JobClaims(cfg, s.uploads, s.jobs, k) {
        var x :| x in s.jobs && x in s.uploads && k in UploadedKeys(cfg, s.uploads[x].id, s.jobs[x]);
        assert x in t.jobs && x in t.uploads && k in UploadedKeys(cfg, t.uploads[x].id, t.jobs[x]);
      }
    }
  }

  lemma UploadPublishedKeeps(cfg: Config, s: State, id: Id, newId: MsgId)
    requires Inv(cfg, s)
    requires id in s.uploaders && s.uploaders[id] == Publishing && id in s.born && newId !in s.uploads
    ensures Inv(cfg, UploadPublished(s, id, s.born[id], newId))
  {
    hide Inv, Sat, BornOk, RowsOk, UploadersOk, EarlyOk, DeletersOk, AnnouncedOk, UploadsOk, JobsOk, DeletesOk,
      ObjectsOk, NoEarlyThumbnails, OriginalsOk, Rowless, Covered, AllAttended, SingleCarrier, WorkingOk, RowsStored,
      JobsStored, OverOk, NoLateUploader, RecordsOk, ThumbsOk, StaleOk, StaleStored, QueuesOk, AloneOk, OverlapsOk;
    Clauses(cfg, s);
    UploadPublishedStored(cfg, s, id, newId);
    UploadPublishedProgress(cfg, s, id, newId);
    UploadPublishedAttended(cfg, s, id, newId);
    UploadPublishedCovered(cfg, s, id, newId);
    FromClauses(cfg, UploadPublished(s, id, s.born[id], newId));
  }

  lemma RowUndoneRecords(cfg: Config, s: State, id: Id)
    requires id in s.uploaders && s.uploaders[id] == Undoing && id in s.born && id in s.rows
    requires RowsOk(cfg, s.rows, s.born) && UploadersOk(s.uploaders, s.rows, s.born, s.incidents)
    requires AnnouncedOk(s.announced, s.rows, s.born) && UploadsOk(s.uploads, s.rows, s.born, s.uploaders)
    ensures var t := RowUndone(s, id);
      && RowsOk(cfg, t.rows, t.born) && UploadersOk(t.uploaders, t.rows, t.born, t.incidents)
      && AnnouncedOk(t.announced, t.rows, t.born)
  {
    hide AllDeclared, Plan, FullMap, OriginalKeyFor, Genuine, ThumbKeys;
  }

  lemma RowUndoneMail(cfg: Config, s: State, id: Id)
    requires id in s.uploaders && s.uploaders[id] == Undoing && id in s.born && id in s.rows
    requires EarlyOk(s.uploaders, s.deleters, s.announced, s.objects, s.born)
    requires UploadsOk(s.uploads, s.rows, s.born, s.uploaders)
    requires AllAttended(s.rows, s.uploaders, s.uploads, s.jobs, s.ackedDeleted, s.incidents)
    requires RowsStored(cfg, s.rows, s.objects, s.announced, s.incidents) && ThumbsOk(s.rows, s.incidents)
    ensures var t := RowUndone(s, id);
      && EarlyOk(t.uploaders, t.deleters, t.announced, t.objects, t.born)
      && UploadsOk(t.uploads, t.rows, t.born, t.uploaders)
      && AllAttended(t.rows, t.uploaders, t.uploads, t.jobs, t.ackedDeleted, t.incidents)
      && ThumbsOk(t.rows, t.incidents) && RowsStored(cfg, t.rows, t.objects, t.announced, t.incidents)
  {
    hide AllDeclared, Plan, FullMap, OriginalKeyFor, AllKeys;
  }

  lemma RowUndoneContents(cfg: Config, s: State, id: Id)
    requires id in s.uploaders && s.uploaders[id] == Undoing && id in s.born && id in s.rows
    requires UploadersOk(s.uploaders, s.rows, s.born, s.incidents)
    requires DeletersOk(cfg, s.deleters, s.rows, s.born, s.announced)
    requires UploadsOk(s.uploads, s.rows, s.born, s.uploaders) && ObjectsOk(cfg, s.objects, s.born)
    requires NoEarlyThumbnails(s.objects, s.uploaders)
    requires Rowless(s.objects, s.rows, s.uploaders, s.born, s.incidents)
    requires NoLateUploader(s.uploaders, s.ackedDeleted, s.incidents)
    ensures var t := RowUndone(s, id);
      && DeletersOk(cfg, t.deleters, t.rows, t.born, t.announced)
      && Rowless(t.objects, t.rows, t.uploaders, t.born, t.incidents)
      && NoLateUploader(t.uploaders, t.ackedDeleted, t.incidents)
  {
    hide AllDeclared, Plan, FullMap, OriginalKeyFor;
  }

  lemma RowUndoneObjects(cfg: Config, s: State, id: Id)
    requires id in s.uploaders && s.uploaders[id] == Undoing && id in s.born && id in s.rows
    requires UploadersOk(s.uploaders, s.rows, s.born, s.incidents)
    requires UploadsOk(s.uploads, s.rows, s.born, s.uploaders) && ObjectsOk(cfg, s.objects, s.born)
    requires NoEarlyThumbnails(s.objects, s.uploaders) && OriginalsOk(s.objects, s.rows, s.announced, s.incidents)
    requires WorkingOk(s.jobs, s.uploads, s.rows, s.incidents)
    requires StaleOk(s.rows, s.deletes, s.announced, s.incidents)
    ensures var t := RowUndone(s, id);
      && StaleOk(t.rows, t.deletes, t.announced, t.incidents) && NoEarlyThumbnails(t.objects, t.uploaders)
      && OriginalsOk(t.objects, t.rows, t.announced, t.incidents)
      && WorkingOk(t.jobs, t.uploads, t.rows, t.incidents)
  {
    hide AllDeclared, Plan, FullMap, OriginalKeyFor;
  }

  lemma RowUndoneCovered(cfg: Config, s: State, id: Id)
    requires id in s.uploaders && s.uploaders[id] == Undoing && id in s.born && id in s.rows
    requires BornOk(s.born) && RowsOk(cfg, s.rows, s.born)
    requires DeletersOk(cfg, s.deleters, s.rows, s.born, s.announced) && Covered(cfg, s)
    ensures Covered(cfg, RowUndone(s, id))
  {
    hide AllDeclared, Plan, FullMap, OriginalKeyFor, Genuine, RenderThumbnail, ThumbKeys, MessageClaims, JobClaims;
    var t := RowUndone(s, id);
    forall k | k in t.objects && k.Avatar?() && k.id in t.rows
      ensures Claimed(cfg, t, k) || Excused(t.incidents, k)
    {
      if DeleterClaims(s.deleters, s.rows, k) {
        var x :| x in s.deleters && Holds(s.deleters[x], s.rows, k);
        HeldKeysNameTheirAvatar(cfg, s, x, k);
        assert x in t.deleters && Holds(t.deleters[x], t.rows, k);
      }
    }
  }

  lemma RowUndoneKeeps(cfg: Config, s: State, id: Id)
    requires Inv(cfg, s)
    requires id in s.uploaders && s.uploaders[id] == Undoing && id in s.born && id in s.rows
    ensures Inv(cfg, RowUndone(s, id))
  {
    hide Inv, Sat, BornOk, RowsOk, UploadersOk, EarlyOk, DeletersOk, AnnouncedOk, UploadsOk, JobsOk, DeletesOk,
      ObjectsOk, NoEarlyThumbnails, OriginalsOk, Rowless, Covered, AllAttended, SingleCarrier, WorkingOk, RowsStored,
      JobsStored, OverOk, NoLateUploader, RecordsOk, ThumbsOk, StaleOk, StaleStored, QueuesOk, AloneOk, OverlapsOk;
    Clauses(cfg, s);
    RowUndoneRecords(cfg, s, id);
    RowUndoneMail(cfg, s, id);
    RowUndoneContents(cfg, s, id);
    RowUndoneObjects(cfg, s, id);
    RowUndoneCovered(cfg, s, id);
    FromClauses(cfg, RowUndone(s, id));
  }

  lemma OriginalRemovedRecords(cfg: Config, s: State, id: Id)
    requires id in s.uploaders && s.uploaders[id] == Removing && id in s.born
    requires BornOk(s.born) && UploadersOk(s.uploaders, s.rows, s.born, s.incidents)
    requires EarlyOk(s.uploaders, s.deleters, s.announced, s.objects, s.born)
    requires JobsStored(cfg, s.jobs, s.uploads, s.objects, s.announced, s.incidents)
    requires NoLateUploader(s.uploaders, s.ackedDeleted, s.incidents)
    ensures var t := OriginalRemoved(s, id, s.born[id]);
      && UploadersOk(t.uploaders, t.rows, t.born, t.incidents)
      && NoLateUploader(t.uploaders, t.ackedDeleted, t.incidents)
      && JobsStored(cfg, t.jobs, t.uploads, t.objects, t.announced, t.incidents)
  {
    hide AllDeclared, Plan, FullMap, OriginalKeyFor;
  }

  lemma OriginalRemovedContents(cfg: Config, s: State, id: Id)
    requires id in s.uploaders && s.uploaders[id] == Removing && id in s.born
    requires BornOk(s.born) && RowsOk(cfg, s.rows, s.born) && UploadersOk(s.uploaders, s.rows, s.born, s.incidents)
    requires EarlyOk(s.uploaders, s.deleters, s.announced, s.objects, s.born) && ObjectsOk(cfg, s.objects, s.born)
    requires NoEarlyThumbnails(s.objects, s.uploaders) && StaleStored(cfg, s.objects, s.incidents)
    ensures var t := OriginalRemoved(s, id, s.born[id]);
      && EarlyOk(t.uploaders, t.deleters, t.announced, t.objects, t.born) && ObjectsOk(cfg, t.objects, t.born)
      && NoEarlyThumbnails(t.objects, t.uploaders) && StaleStored(cfg, t.objects, t.incidents)
  {
    hide AllDeclared, Plan, FullMap, OriginalKeyFor, AllKeys;
  }

  lemma OriginalRemovedOriginals(cfg: Config, s: State, id: Id)
    requires id in s.uploaders && s.uploaders[id] == Removing && id in s.born
    requires BornOk(s.born) && RowsOk(cfg, s.rows, s.born) && UploadersOk(s.uploaders, s.rows, s.born, s.incidents)
    requires UploadsOk(s.uploads, s.rows, s.born, s.uploaders)
    requires OriginalsOk(s.objects, s.rows, s.announced, s.incidents)
    requires AllAttended(s.rows, s.uploaders, s.uploads, s.jobs, s.ackedDeleted, s.incidents)
    ensures var t := OriginalRemoved(s, id, s.born[id]);
      && UploadsOk(t.uploads, t.rows, t.born, t.uploaders)
      && OriginalsOk(t.objects, t.rows, t.announced, t.incidents)
      && AllAttended(t.rows, t.uploaders, t.uploads, t.jobs, t.ackedDeleted, t.incidents)
  {
    hide AllDeclared, Plan, FullMap, OriginalKeyFor, AllKeys;
  }

  lemma OriginalRemovedRowless(cfg: Config, s: State, id: Id)
    requires id in s.uploaders && s.uploaders[id] == Removing && id in s.born
    requires BornOk(s.born) && RowsOk(cfg, s.rows, s.born) && UploadersOk(s.uploaders, s.rows, s.born, s.incidents)
    requires Rowless(s.objects, s.rows, s.uploaders, s.born, s.incidents)
    requires RowsStored(cfg, s.rows, s.objects, s.announced, s.incidents)
    ensures var t := OriginalRemoved(s, id, s.born[id]);
      && Rowless(t.objects, t.rows, t.uploaders, t.born, t.incidents)
      && RowsStored(cfg, t.rows, t.objects, t.announced, t.incidents)
  {
    hide AllDeclared, Plan, FullMap, OriginalKeyFor, AllKeys;
  }

  lemma OriginalRemovedCovered(cfg: Config, s: State, id: Id)
    requires id in s.uploaders && s.uploaders[id] == Removing && id in s.born
    requires Covered(cfg, s)
    ensures Covered(cfg, OriginalRemoved(s, id, s.born[id]))
  {
    hide AllDeclared, Plan, FullMap, OriginalKeyFor, Genuine, RenderThumbnail, ThumbKeys, RowClaims, DeleterClaims,
      MessageClaims, JobClaims, AllKeys, PlanKeys;
  }

  lemma OriginalRemovedKeeps(cfg: Config, s: State, id: Id)
    requires Inv(cfg, s)
    requires id in s.uploaders && s.uploaders[id] == Removing && id in s.born
    ensures Inv(cfg, OriginalRemoved(s, id, s.born[id]))
  {
    hide Inv, Sat, BornOk, RowsOk, UploadersOk, EarlyOk, DeletersOk, AnnouncedOk, UploadsOk, JobsOk, DeletesOk,
      ObjectsOk, NoEarlyThumbnails, OriginalsOk, Rowless, Covered, AllAttended, SingleCarrier, WorkingOk, RowsStored,
      JobsStored, OverOk, NoLateUploader, RecordsOk, ThumbsOk, StaleOk, StaleStored, QueuesOk, AloneOk, OverlapsOk;
    Clauses(cfg, s);
    OriginalRemovedRecords(cfg, s, id);
    OriginalRemovedContents(cfg, s, id);
    OriginalRemovedOriginals(cfg, s, id);
    OriginalRemovedRowless(cfg, s, id);
    OriginalRemovedCovered(cfg, s, id);
    FromClauses(cfg, OriginalRemoved(s, id, s.born[id]));
  }

  lemma UploaderAtProgress(cfg: Config, s: State, id: Id, pc: UploadPc, noted: set<Incident>)
    requires id in s.uploaders && UploaderMayMove(s, id, pc, noted)
    requires UploadersOk(s.uploaders, s.rows, s.born, s.incidents)
    requires UploadsOk(s.uploads, s.rows, s.born, s.uploaders)
    requires RowsStored(cfg, s.rows, s.objects, s.announced, s.incidents)
    requires OverOk(s.uploads, s.jobs, s.ackedDeleted, s.incidents)
    ensures var t := UploaderAt(s, id, pc, noted);
      && UploadersOk(t.uploaders, t.rows, t.born, t.incidents)
      && OverOk(t.uploads, t.jobs, t.ackedDeleted, t.incidents)
      && RowsStored(cfg, t.rows, t.objects, t.announced, t.incidents)
  {
    hide AllDeclared, Plan, FullMap, OriginalKeyFor;
  }

  lemma UploaderAtAttended(cfg: Config, s: State, id: Id, pc: UploadPc, noted: set<Incident>)
    requires id in s.uploaders && UploaderMayMove(s, id, pc, noted)
    requires UploadersOk(s.uploaders, s.rows, s.born, s.incidents)
    requires Rowless(s.objects, s.rows, s.uploaders, s.born, s.incidents)
    requires AllAttended(s.rows, s.uploaders, s.uploads, s.jobs, s.ackedDeleted, s.incidents)
    requires RecordsOk(s.born, s.ackedDeleted, s.incidents) && QueuesOk(cfg, s.jobs, s.cleaners, s.incidents)
    requires AloneOk(s.uploads, s.jobs, s.incidents)
    ensures var t := UploaderAt(s, id, pc, noted);
      && RecordsOk(t.born, t.ackedDeleted, t.incidents)
      && Rowless(t.objects, t.rows, t.uploaders, t.born, t.incidents)
      && AllAttended(t.rows, t.uploaders, t.uploads, t.jobs, t.ackedDeleted, t.incidents)
      && AloneOk(t.uploads, t.jobs, t.incidents) && QueuesOk(cfg, t.jobs, t.cleaners, t.incidents)
  {
    hide AllDeclared, Plan, FullMap, OriginalKeyFor, AllKeys;
  }

  lemma UploaderAtLate(cfg: Config, s: State, id: Id, pc: UploadPc, noted: set<Incident>)
    requires id in s.uploaders && UploaderMayMove(s, id, pc, noted)
    requires EarlyOk(s.uploaders, s.deleters, s.announced, s.objects, s.born)
    requires SingleCarrier(s.uploads, s.jobs, s.incidents) && WorkingOk(s.jobs, s.uploads, s.rows, s.incidents)
    requires JobsStored(cfg, s.jobs, s.uploads, s.objects, s.announced, s.incidents)
    requires NoLateUploader(s.uploaders, s.ackedDeleted, s.incidents)
    requires StaleOk(s.rows, s.deletes, s.announced, s.incidents) && StaleStored(cfg, s.objects, s.incidents)
    ensures var t := UploaderAt(s, id, pc, noted);
      && EarlyOk(t.uploaders, t.deleters, t.announced, t.objects, t.born)
      && StaleOk(t.rows, t.deletes, t.announced, t.incidents) && StaleStored(cfg, t.objects, t.incidents)
      && SingleCarrier(t.uploads, t.jobs, t.incidents) && WorkingOk(t.jobs, t.uploads, t.rows, t.incidents)
      && NoLateUploader(t.uploaders, t.ackedDeleted, t.incidents)
      && JobsStored(cfg, t.jobs, t.uploads, t.objects, t.announced, t.incidents)
  {
    hide AllDeclared, Plan, FullMap, OriginalKeyFor;
  }

  lemma UploaderAtMail(cfg: Config, s: State, id: Id, pc: UploadPc, noted: set<Incident>)
    requires id in s.uploaders && UploaderMayMove(s, id, pc, noted)
    requires UploadsOk(s.uploads, s.rows, s.born, s.uploaders) && NoEarlyThumbnails(s.objects, s.uploaders)
    requires OriginalsOk(s.objects, s.rows, s.announced, s.incidents) && ThumbsOk(s.rows, s.incidents)
    requires OverlapsOk(s.incidents)
    ensures var t := UploaderAt(s, id, pc, noted);
      && UploadsOk(t.uploads, t.rows, t.born, t.uploaders) && NoEarlyThumbnails(t.objects, t.uploaders)
      && OriginalsOk(t.objects, t.rows, t.announced, t.incidents) && ThumbsOk(t.rows, t.incidents)
      && OverlapsOk(t.incidents)
  {
    hide AllDeclared, Plan, FullMap, OriginalKeyFor, AllKeys;
  }

  lemma UploaderAtCovered(cfg: Config, s: State, id: Id, pc: UploadPc, noted: set<Incident>)
    requires id in s.uploaders && UploaderMayMove(s, id, pc, noted)
    requires Covered(cfg, s)
    ensures Covered(cfg, UploaderAt(s, id, pc, noted))
  {
    hide AllDeclared, Plan, FullMap, OriginalKeyFor, Genuine, RenderThumbnail, ThumbKeys, RowClaims, DeleterClaims,
      MessageClaims, JobClaims, AllKeys, PlanKeys;
  }

  lemma UploaderAtKeeps(cfg: Config, s: State, id: Id, pc: UploadPc, noted: set<Incident>)
    requires Inv(cfg, s)
    requires id in s.uploaders && UploaderMayMove(s, id, pc, noted)
    ensures Inv(cfg, UploaderAt(s, id, pc, noted))
  {
    hide Inv, Sat, BornOk, RowsOk, UploadersOk, EarlyOk, DeletersOk, AnnouncedOk, UploadsOk, JobsOk, DeletesOk,
      ObjectsOk, NoEarlyThumbnails, OriginalsOk, Rowless, Covered, AllAttended, SingleCarrier, WorkingOk, RowsStored,
      JobsStored, OverOk, NoLateUploader, RecordsOk, ThumbsOk, StaleOk, StaleStored, QueuesOk, AloneOk, OverlapsOk;
    Clauses(cfg, s);
    UploaderAtProgress(cfg, s, id, pc, noted);
    UploaderAtAttended(cfg, s, id, pc, noted);
    UploaderAtLate(cfg, s, id, pc, noted);
    UploaderAtMail(cfg, s, id, pc, noted);
    UploaderAtCovered(cfg, s, id, pc, noted);
    FromClauses(cfg, UploaderAt(s, id, pc, noted));
  }

  lemma UploaderGoneContents(cfg: Config, s: State, id: Id, noted: set<Incident>)
    requires id in s.uploaders && id in s.born && UploaderMayGo(s, id, noted)
    requires RowsOk(cfg, s.rows, s.born) && UploadersOk(s.uploaders, s.rows, s.born, s.incidents)
    requires NoEarlyThumbnails(s.objects, s.uploaders) && OriginalsOk(s.objects, s.rows, s.announced, s.incidents)
    requires StaleOk(s.rows, s.deletes, s.announced, s.incidents) && StaleStored(cfg, s.objects, s.incidents)
    requires OverlapsOk(s.incidents)
    ensures var t := UploaderGone(s, id, noted);
      && UploadersOk(t.uploaders, t.rows, t.born, t.incidents)
      && StaleOk(t.rows, t.deletes, t.announced, t.incidents) && NoEarlyThumbnails(t.objects, t.uploaders)
      && OriginalsOk(t.objects, t.rows, t.announced, t.incidents) && StaleStored(cfg, t.objects, t.incidents)
      && OverlapsOk(t.incidents)
  {
    hide AllDeclared, Plan, FullMap, OriginalKeyFor;
  }

  lemma UploaderGoneRowless(cfg: Config, s: State, id: Id, noted: set<Incident>)
    requires id in s.uploaders && id in s.born && UploaderMayGo(s, id, noted)
    requires RowsOk(cfg, s.rows, s.born) && UploadersOk(s.uploaders, s.rows, s.born, s.incidents)
    requires Rowless(s.objects, s.rows, s.uploaders, s.born, s.incidents)
    requires NoLateUploader(s.uploaders, s.ackedDeleted, s.incidents)
    requires RecordsOk(s.born, s.ackedDeleted, s.incidents) && QueuesOk(cfg, s.jobs, s.cleaners, s.incidents)
    ensures var t := UploaderGone(s, id, noted);
      && RecordsOk(t.born, t.ackedDeleted, t.incidents)
      && Rowless(t.objects, t.rows, t.uploaders, t.born, t.incidents)
      && NoLateUploader(t.uploaders, t.ackedDeleted, t.incidents) && QueuesOk(cfg, t.jobs, t.cleaners, t.incidents)
  {
    hide AllDeclared, Plan, FullMap, OriginalKeyFor, AllKeys;
  }

  lemma UploaderGoneRecords(cfg: Config, s: State, id: Id, noted: set<Incident>)
    requires id in s.uploaders && id in s.born && UploaderMayGo(s, id, noted)
    requires EarlyOk(s.uploaders, s.deleters, s.announced, s.objects, s.born)
    requires UploadsOk(s.uploads, s.rows, s.born, s.uploaders) && SingleCarrier(s.uploads, s.jobs, s.incidents)
    requires WorkingOk(s.jobs, s.uploads, s.rows, s.incidents)
    requires RowsStored(cfg, s.rows, s.objects, s.announced, s.incidents)
    requires JobsStored(cfg, s.jobs, s.uploads, s.objects, s.announced, s.incidents)
    requires ThumbsOk(s.rows, s.incidents) && AloneOk(s.uploads, s.jobs, s.incidents)
    ensures var t := UploaderGone(s, id, noted);
      && EarlyOk(t.uploaders, t.deleters, t.announced, t.objects, t.born)
      && UploadsOk(t.uploads, t.rows, t.born, t.uploaders) && SingleCarrier(t.uploads, t.jobs, t.incidents)
      && WorkingOk(t.jobs, t.uploads, t.rows, t.incidents) && AloneOk(t.uploads, t.jobs, t.incidents)
      && ThumbsOk(t.rows, t.incidents) && RowsStored(cfg, t.rows, t.objects, t.announced, t.incidents)
      && JobsStored(cfg, t.jobs, t.uploads, t.objects, t.announced, t.incidents)
  {
    hide AllDeclared, Plan, FullMap, OriginalKeyFor, AllKeys;
  }

  lemma UploaderGoneProgress(cfg: Config, s: State, id: Id, noted: set<Incident>)
    requires id in s.uploaders && id in s.born && UploaderMayGo(s, id, noted)
    requires UploadersOk(s.uploaders, s.rows, s.born, s.incidents)
    requires UploadsOk(s.uploads, s.rows, s.born, s.uploaders)
    requires AllAttended(s.rows, s.uploaders, s.uploads, s.jobs, s.ackedDeleted, s.incidents)
    requires OverOk(s.uploads, s.jobs, s.ackedDeleted, s.incidents)
    ensures var t := UploaderGone(s, id, noted);
      && AllAttended(t.rows, t.uploaders, t.uploads, t.jobs, t.ackedDeleted, t.incidents)
      && OverOk(t.uploads, t.jobs, t.ackedDeleted, t.incidents)
  {
    hide AllDeclared, Plan, FullMap, OriginalKeyFor, AllKeys, PlanKeys;
  }

  lemma UploaderGoneCovered(cfg: Config, s: State, id: Id, noted: set<Incident>)
    requires id in s.uploaders && id in s.born && UploaderMayGo(s, id, noted)
    requires Covered(cfg, s)
    ensures Covered(cfg, UploaderGone(s, id, noted))
  {
    hide AllDeclared, Plan, FullMap, OriginalKeyFor, Genuine, RenderThumbnail, ThumbKeys, RowClaims, DeleterClaims,
      MessageClaims, JobClaims, AllKeys, PlanKeys;
  }

  lemma UploaderGoneKeeps(cfg: Config, s: State, id: Id, noted: set<Incident>)
    requires Inv(cfg, s)
    requires id in s.uploaders && id in s.born && UploaderMayGo(s, id, noted)
    ensures Inv(cfg, UploaderGone(s, id, noted))
  {
    hide Inv, Sat, BornOk, RowsOk, UploadersOk, EarlyOk, DeletersOk, AnnouncedOk, UploadsOk, JobsOk, DeletesOk,
      ObjectsOk, NoEarlyThumbnails, OriginalsOk, Rowless, Covered, AllAttended, SingleCarrier, WorkingOk, RowsStored,
      JobsStored, OverOk, NoLateUploader, RecordsOk, ThumbsOk, StaleOk, StaleStored, QueuesOk, AloneOk, OverlapsOk;
    Clauses(cfg, s);
    UploaderGoneContents(cfg, s, id, noted);
    UploaderGoneRowless(cfg, s, id, noted);
    UploaderGoneRecords(cfg, s, id, noted);
    UploaderGoneProgress(cfg, s, id, noted);
    UploaderGoneCovered(cfg, s, id, noted);
    FromClauses(cfg, UploaderGone(s, id, noted));
  }
}
