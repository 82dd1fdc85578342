/** Every effect of a thumbnail job keeps the invariant. */
module JobSteps {
  import opened Wrappers
  import opened Keys
  import opened Catalogs
  import opened Rendering
  import opened Avatars
  import opened Routing
  import opened Lifecycle
  import opened Invariants

  lemma JobAtMail(cfg: Config, s: State, m: MsgId, pc: JobPc)
    requires m in s.jobs && m in s.uploads && JobMayMove(cfg, s, m, pc)
    requires UploadsOk(s.uploads, s.rows, s.born, s.uploaders) && JobsOk(cfg, s.jobs, s.uploads, s.born)
    requires AloneOk(s.uploads, s.jobs, s.incidents)
    ensures var t := JobAt(s, m, pc);
      && JobsOk(cfg, t.jobs, t.uploads, t.born) && AloneOk(t.uploads, t.jobs, t.incidents)
  {
    hide AllDeclared, Plan, FullMap, OriginalKeyFor, AllKeys;
  }

  lemma JobAtProgress(cfg: Config, s: State, m: MsgId, pc: JobPc)
    requires m in s.jobs && m in s.uploads && JobMayMove(cfg, s, m, pc)
    requires JobsOk(cfg, s.jobs, s.uploads, s.born)
    requires AllAttended(s.rows, s.uploaders, s.uploads, s.jobs, s.ackedDeleted, s.incidents)
    requires SingleCarrier(s.uploads, s.jobs, s.incidents)
    ensures var t := JobAt(s, m, pc);
      && AllAttended(t.rows, t.uploaders, t.uploads, t.jobs, t.ackedDeleted, t.incidents)
      && SingleCarrier(t.uploads, t.jobs, t.incidents)
  {
    hide AllDeclared, Plan, FullMap, OriginalKeyFor, AllKeys, PlanKeys;
    var t := JobAt(s, m, pc);
    forall x | x in t.rows
      ensures Attended(x, t.rows[x], t.uploaders, t.uploads, t.jobs, t.ackedDeleted, t.incidents)
    {
      if Carried(s.uploads, s.jobs, x) {
        var w :| w in s.uploads && Waiting(s.uploads, s.jobs, w, x);
        if w != m || pc != Acking(Finished) {
          assert w in t.uploads && Waiting(t.uploads, t.jobs, w, x);
        }
      }
    }
  }

  lemma JobAtWorking(cfg: Config, s: State, m: MsgId, pc: JobPc)
    requires m in s.jobs && m in s.uploads && JobMayMove(cfg, s, m, pc)
    requires JobsOk(cfg, s.jobs, s.uploads, s.born) && WorkingOk(s.jobs, s.uploads, s.rows, s.incidents)
    requires JobsStored(cfg, s.jobs, s.uploads, s.objects, s.announced, s.incidents)
    requires OverOk(s.uploads, s.jobs, s.ackedDeleted, s.incidents)
    requires QueuesOk(cfg, s.jobs, s.cleaners, s.incidents)
    ensures var t := JobAt(s, m, pc);
      && WorkingOk(t.jobs, t.uploads, t.rows, t.incidents) && OverOk(t.uploads, t.jobs, t.ackedDeleted, t.incidents)
      && QueuesOk(cfg, t.jobs, t.cleaners, t.incidents)
      && JobsStored(cfg, t.jobs, t.uploads, t.objects, t.announced, t.incidents)
  {
    hide AllDeclared, Plan, FullMap, OriginalKeyFor, AllKeys;
  }

  lemma JobAtCovered(cfg: Config, s: State, m: MsgId, pc: JobPc)
    requires m in s.jobs && m in s.uploads && JobMayMove(cfg, s, m, pc)
    requires Covered(cfg, s)
    ensures Covered(cfg, JobAt(s, m, pc))
  {
    hide AllDeclared, Plan, FullMap, OriginalKeyFor, Genuine, RenderThumbnail, ThumbKeys, RowClaims, DeleterClaims,
      MessageClaims, Excused, AllKeys, PlanKeys, UploadedKeys;
    var t := JobAt(s, m, pc);
    forall k | k in t.objects && k.Avatar?() && k.id in t.rows
      ensures Claimed(cfg, t, k) || Excused(t.incidents, k)
    {
      if JobClaims(cfg, s.uploads, s.jobs, k) {
        var x :| x in s.jobs && x in s.uploads && k in UploadedKeys(cfg, s.uploads[x].id, s.jobs[x]);
        assert x in t.jobs && x in t.uploads && k in UploadedKeys(cfg, t.uploads[x].id, t.jobs[x]);
      }
    }
  }

  lemma JobAtKeeps(cfg: Config, s: State, m: MsgId, pc: JobPc)
    requires Inv(cfg, s)
    requires m in s.jobs && m in s.uploads && JobMayMove(cfg, s, m, pc)
    ensures Inv(cfg, JobAt(s, m, pc))
  {
    hide Inv, Sat, BornOk, RowsOk, UploadersOk, EarlyOk, DeletersOk, AnnouncedOk, UploadsOk, JobsOk, DeletesOk,
      ObjectsOk, NoEarlyThumbnails, OriginalsOk, Rowless, Covered, AllAttended, SingleCarrier, WorkingOk, RowsStored,
      JobsStored, OverOk, NoLateUploader, RecordsOk, ThumbsOk, StaleOk, StaleStored, QueuesOk, AloneOk, OverlapsOk;
    Clauses(cfg, s);
    JobAtMail(cfg, s, m, pc);
    JobAtProgress(cfg, s, m, pc);
    JobAtWorking(cfg, s, m, pc);
    JobAtCovered(cfg, s, m, pc);
    FromClauses(cfg, JobAt(s, m, pc));
  }

  lemma ThumbnailPutProgress(cfg: Config, s: State, m: MsgId, data: Bytes, n: nat, img: Image)
    requires m in s.jobs && m in s.uploads && s.jobs[m] == Filling(n, img)
    requires NextThumbnail(cfg, n, img) == Some(data)
    requires EarlyOk(s.uploaders, s.deleters, s.announced, s.objects, s.born)
    requires JobsOk(cfg, s.jobs, s.uploads, s.born) && RowsStored(cfg, s.rows, s.objects, s.announced, s.incidents)
    requires OverOk(s.uploads, s.jobs, s.ackedDeleted, s.incidents)
    ensures var t := ThumbnailPut(s, m, PlanKey(cfg, s.uploads[m].id, n), data, n, img);
      && EarlyOk(t.uploaders, t.deleters, t.announced, t.objects, t.born)
      && OverOk(t.uploads, t.jobs, t.ackedDeleted, t.incidents)
      && RowsStored(cfg, t.rows, t.objects, t.announced, t.incidents)
  {
    hide AllDeclared, Plan, FullMap, OriginalKeyFor, AllKeys;
  }

  lemma ThumbnailPutMail(cfg: Config, s: State, m: MsgId, data: Bytes, n: nat, img: Image)
    requires m in s.jobs && m in s.uploads && s.jobs[m] == Filling(n, img)
    requires NextThumbnail(cfg, n, img) == Some(data)
    requires UploadsOk(s.uploads, s.rows, s.born, s.uploaders) && JobsOk(cfg, s.jobs, s.uploads, s.born)
    ensures var t := ThumbnailPut(s, m, PlanKey(cfg, s.uploads[m].id, n), data, n, img);
      JobsOk(cfg, t.jobs, t.uploads, t.born)
  {
    hide AllDeclared, Plan, FullMap, OriginalKeyFor, Genuine, AllKeys;
  }

  lemma ThumbnailPutContents(cfg: Config, s: State, m: MsgId, data: Bytes, n: nat, img: Image)
    requires m in s.jobs && m in s.uploads && s.jobs[m] == Filling(n, img)
    requires NextThumbnail(cfg, n, img) == Some(data)
    requires BornOk(s.born) && RowsOk(cfg, s.rows, s.born) && UploadsOk(s.uploads, s.rows, s.born, s.uploaders)
    requires JobsOk(cfg, s.jobs, s.uploads, s.born) && ObjectsOk(cfg, s.objects, s.born)
    requires NoEarlyThumbnails(s.objects, s.uploaders)
    ensures var t := ThumbnailPut(s, m, PlanKey(cfg, s.uploads[m].id, n), data, n, img);
      && ObjectsOk(cfg, t.objects, t.born) && NoEarlyThumbnails(t.objects, t.uploaders)
  {
    hide AllDeclared, Plan, FullMap, OriginalKeyFor, AllKeys;
  }

  lemma ThumbnailPutRowless(cfg: Config, s: State, m: MsgId, data: Bytes, n: nat, img: Image)
    requires m in s.jobs && m in s.uploads && s.jobs[m] == Filling(n, img)
    requires NextThumbnail(cfg, n, img) == Some(data)
    requires BornOk(s.born) && RowsOk(cfg, s.rows, s.born) && UploadsOk(s.uploads, s.rows, s.born, s.uploaders)
    requires JobsOk(cfg, s.jobs, s.uploads, s.born) && OriginalsOk(s.objects, s.rows, s.announced, s.incidents)
    requires Rowless(s.objects, s.rows, s.uploaders, s.born, s.incidents) && AloneOk(s.uploads, s.jobs, s.incidents)
    ensures var t := ThumbnailPut(s, m, PlanKey(cfg, s.uploads[m].id, n), data, n, img);
      && OriginalsOk(t.objects, t.rows, t.announced, t.incidents)
      && Rowless(t.objects, t.rows, t.uploaders, t.born, t.incidents) && AloneOk(t.uploads, t.jobs, t.incidents)
  {
    hide AllDeclared, Plan, FullMap, OriginalKeyFor, AllKeys;
  }

  lemma ThumbnailPutAttended(cfg: Config, s: State, m: MsgId, data: Bytes, n: nat, img: Image)
    requires m in s.jobs && m in s.uploads && s.jobs[m] == Filling(n, img)
    requires NextThumbnail(cfg, n, img) == Some(data)
    requires JobsOk(cfg, s.jobs, s.uploads, s.born)
    requires AllAttended(s.rows, s.uploaders, s.uploads, s.jobs, s.ackedDeleted, s.incidents)
    requires StaleStored(cfg, s.objects, s.incidents)
    ensures var t := ThumbnailPut(s, m, PlanKey(cfg, s.uploads[m].id, n), data, n, img);
      && StaleStored(cfg, t.objects, t.incidents)
      && AllAttended(t.rows, t.uploaders, t.uploads, t.jobs, t.ackedDeleted, t.incidents)
  {
    hide AllDeclared, Plan, FullMap, OriginalKeyFor, AllKeys;
  }

  lemma ThumbnailPutCarriers(cfg: Config, s: State, m: MsgId, data: Bytes, n: nat, img: Image)
    requires m in s.jobs && m in s.uploads && s.jobs[m] == Filling(n, img)
    requires NextThumbnail(cfg, n, img) == Some(data)
    requires SingleCarrier(s.uploads, s.jobs, s.incidents) && QueuesOk(cfg, s.jobs, s.cleaners, s.incidents)
    ensures var t := ThumbnailPut(s, m, PlanKey(cfg, s.uploads[m].id, n), data, n, img);
      && SingleCarrier(t.uploads, t.jobs, t.incidents) && QueuesOk(cfg, t.jobs, t.cleaners, t.incidents)
  {
    hide AllDeclared, Plan, FullMap, OriginalKeyFor, AllKeys, PlanKeys;
  }

  lemma ThumbnailPutStored(cfg: Config, s: State, m: MsgId, data: Bytes, n: nat, img: Image)
    requires m in s.jobs && m in s.uploads && s.jobs[m] == Filling(n, img)
    requires NextThumbnail(cfg, n, img) == Some(data)
    requires JobsOk(cfg, s.jobs, s.uploads, s.born) && WorkingOk(s.jobs, s.uploads, s.rows, s.incidents)
    requires JobsStored(cfg, s.jobs, s.uploads, s.objects, s.announced, s.incidents)
    ensures var t := ThumbnailPut(s, m, PlanKey(cfg, s.uploads[m].id, n), data, n, img);
      && WorkingOk(t.jobs, t.uploads, t.rows, t.incidents)
      && JobsStored(cfg, t.jobs, t.uploads, t.objects, t.announced, t.incidents)
  {
    hide AllDeclared, Plan, FullMap, OriginalKeyFor, AllKeys;
  }

  lemma ThumbnailPutCovered(cfg: Config, s: State, m: MsgId, data: Bytes, n: nat, img: Image)
    requires m in s.jobs && m in s.uploads && s.jobs[m] == Filling(n, img)
    requires NextThumbnail(cfg, n, img) == Some(data)
    requires Covered(cfg, s)
    ensures Covered(cfg, ThumbnailPut(s, m, PlanKey(cfg, s.uploads[m].id, n), data, n, img))
  {
    hide AllDeclared, Plan, FullMap, OriginalKeyFor, Genuine, RenderThumbnail, ThumbKeys, RowClaims, DeleterClaims,
      MessageClaims, Excused, AllKeys;
    var t := ThumbnailPut(s, m, PlanKey(cfg, s.uploads[m].id, n), data, n, img);
    forall k | k in t.objects && k.Avatar?() && k.id in t.rows
      ensures Claimed(cfg, t, k) || Excused(t.incidents, k)
    {
      if k !in s.objects {
        assert m in t.jobs && m in t.uploads && k in UploadedKeys(cfg, t.uploads[m].id, t.jobs[m]);
      } else if JobClaims(cfg, s.uploads, s.jobs, k) {
        var x :| x in s.jobs && x in s.uploads && k in UploadedKeys(cfg, s.uploads[x].id, s.jobs[x]);
        assert x in t.jobs && x in t.uploads && k in UploadedKeys(cfg, t.uploads[x].id, t.jobs[x]);
      }
    }
  }

  lemma ThumbnailPutKeeps(cfg: Config, s: State, m: MsgId, data: Bytes, n: nat, img: Image)
    requires Inv(cfg, s)
    requires m in s.jobs && m in s.uploads && s.jobs[m] == Filling(n, img)
    requires NextThumbnail(cfg, n, img) == Some(data)
    ensures Inv(cfg, ThumbnailPut(s, m, PlanKey(cfg, s.uploads[m].id, n), data, n, img))
  {
    hide Inv, Sat, BornOk, RowsOk, UploadersOk, EarlyOk, DeletersOk, AnnouncedOk, UploadsOk, JobsOk, DeletesOk,
      ObjectsOk, NoEarlyThumbnails, OriginalsOk, Rowless, Covered, AllAttended, SingleCarrier, WorkingOk, RowsStored,
      JobsStored, OverOk, NoLateUploader, RecordsOk, ThumbsOk, StaleOk, StaleStored, QueuesOk, AloneOk, OverlapsOk;
    Clauses(cfg, s);
    ThumbnailPutProgress(cfg, s, m, data, n, img);
    ThumbnailPutMail(cfg, s, m, data, n, img);
    ThumbnailPutContents(cfg, s, m, data, n, img);
    ThumbnailPutRowless(cfg, s, m, data, n, img);
    ThumbnailPutAttended(cfg, s, m, data, n, img);
    ThumbnailPutCarriers(cfg, s, m, data, n, img);
    ThumbnailPutStored(cfg, s, m, data, n, img);
    ThumbnailPutCovered(cfg, s, m, data, n, img);
    FromClauses(cfg, ThumbnailPut(s, m, PlanKey(cfg, s.uploads[m].id, n), data, n, img));
  }

  lemma RowCompletedRecords(cfg: Config, s: State, m: MsgId, img: Image)
    requires m in s.jobs && m in s.uploads && s.jobs[m] == Filling(|ThePlan(cfg)|, img) && s.uploads[m].id in s.rows
    requires !s.rows[s.uploads[m].id].deleted
    requires RowsOk(cfg, s.rows, s.born) && UploadersOk(s.uploaders, s.rows, s.born, s.incidents)
    requires AnnouncedOk(s.announced, s.rows, s.born) && UploadsOk(s.uploads, s.rows, s.born, s.uploaders)
    requires JobsOk(cfg, s.jobs, s.uploads, s.born)
    ensures var t := RowCompleted(cfg, s, m, s.uploads[m].id, img);
      && RowsOk(cfg, t.rows, t.born) && UploadersOk(t.uploaders, t.rows, t.born, t.incidents)
      && AnnouncedOk(t.announced, t.rows, t.born)
  {
    hide AllDeclared, Plan, FullMap, OriginalKeyFor, Genuine, AllKeys, ThumbKeys, PlanKeys, UploadedKeys, RowOk,
      CompletedRow;
    CompletedRowOk(cfg, s.uploads[m].id, s.rows[s.uploads[m].id], s.born[s.uploads[m].id], img);
  }

  lemma RowCompletedDeleters(cfg: Config, s: State, m: MsgId, img: Image)
    requires m in s.jobs && m in s.uploads && s.jobs[m] == Filling(|ThePlan(cfg)|, img) && s.uploads[m].id in s.rows
    requires !s.rows[s.uploads[m].id].deleted
    requires RowsOk(cfg, s.rows, s.born) && DeletersOk(cfg, s.deleters, s.rows, s.born, s.announced)
    ensures var t := RowCompleted(cfg, s, m, s.uploads[m].id, img);
      DeletersOk(cfg, t.deleters, t.rows, t.born, t.announced)
  {
    hide AllDeclared, Plan, FullMap, OriginalKeyFor, Genuine;
  }

  lemma RowCompletedContents(cfg: Config, s: State, m: MsgId, img: Image)
    requires m in s.jobs && m in s.uploads && s.jobs[m] == Filling(|ThePlan(cfg)|, img) && s.uploads[m].id in s.rows
    requires !s.rows[s.uploads[m].id].deleted
    requires UploadsOk(s.uploads, s.rows, s.born, s.uploaders)
    requires Rowless(s.objects, s.rows, s.uploaders, s.born, s.incidents)
    ensures var t := RowCompleted(cfg, s, m, s.uploads[m].id, img);
      && UploadsOk(t.uploads, t.rows, t.born, t.uploaders)
      && Rowless(t.objects, t.rows, t.uploaders, t.born, t.incidents)
  {
    hide AllDeclared, Plan, FullMap, OriginalKeyFor, Genuine, AllKeys;
  }

  lemma RowCompletedMail(cfg: Config, s: State, m: MsgId, img: Image)
    requires m in s.jobs && m in s.uploads && s.jobs[m] == Filling(|ThePlan(cfg)|, img) && s.uploads[m].id in s.rows
    requires !s.rows[s.uploads[m].id].deleted
    requires JobsOk(cfg, s.jobs, s.uploads, s.born) && AloneOk(s.uploads, s.jobs, s.incidents)
    ensures var t := RowCompleted(cfg, s, m, s.uploads[m].id, img);
      && JobsOk(cfg, t.jobs, t.uploads, t.born) && AloneOk(t.uploads, t.jobs, t.incidents)
  {
    hide AllDeclared, Plan, FullMap, OriginalKeyFor, AllKeys;
  }

  lemma RowCompletedStale(cfg: Config, s: State, m: MsgId, img: Image)
    requires m in s.jobs && m in s.uploads && s.jobs[m] == Filling(|ThePlan(cfg)|, img) && s.uploads[m].id in s.rows
    requires !s.rows[s.uploads[m].id].deleted
    requires AnnouncedOk(s.announced, s.rows, s.born) && OriginalsOk(s.objects, s.rows, s.announced, s.incidents)
    requires OverOk(s.uploads, s.jobs, s.ackedDeleted, s.incidents) && ThumbsOk(s.rows, s.incidents)
    requires StaleOk(s.rows, s.deletes, s.announced, s.incidents)
    ensures var t := RowCompleted(cfg, s, m, s.uploads[m].id, img);
      && StaleOk(t.rows, t.deletes, t.announced, t.incidents)
      && OriginalsOk(t.objects, t.rows, t.announced, t.incidents)
      && OverOk(t.uploads, t.jobs, t.ackedDeleted, t.incidents) && ThumbsOk(t.rows, t.incidents)
  {
    hide AllDeclared, Plan, FullMap, OriginalKeyFor;
  }

  lemma RowCompletedProgress(cfg: Config, s: State, m: MsgId, img: Image)
    requires m in s.jobs && m in s.uploads && s.jobs[m] == Filling(|ThePlan(cfg)|, img) && s.uploads[m].id in s.rows
    requires !s.rows[s.uploads[m].id].deleted
    requires UploadsOk(s.uploads, s.rows, s.born, s.uploaders) && JobsOk(cfg, s.jobs, s.uploads, s.born)
    requires AllAttended(s.rows, s.uploaders, s.uploads, s.jobs, s.ackedDeleted, s.incidents)
    ensures var t := RowCompleted(cfg, s, m, s.uploads[m].id, img);
      AllAttended(t.rows, t.uploaders, t.uploads, t.jobs, t.ackedDeleted, t.incidents)
  {
    hide AllDeclared, Plan, FullMap, OriginalKeyFor, AllKeys, PlanKeys;
  }

  lemma RowCompletedCarriers(cfg: Config, s: State, m: MsgId, img: Image)
    requires m in s.jobs && m in s.uploads && s.jobs[m] == Filling(|ThePlan(cfg)|, img) && s.uploads[m].id in s.rows
    requires !s.rows[s.uploads[m].id].deleted
    requires UploadsOk(s.uploads, s.rows, s.born, s.uploaders) && JobsOk(cfg, s.jobs, s.uploads, s.born)
    requires SingleCarrier(s.uploads, s.jobs, s.incidents)
    ensures var t := RowCompleted(cfg, s, m, s.uploads[m].id, img);
      SingleCarrier(t.uploads, t.jobs, t.incidents)
  {
    hide AllDeclared, Plan, FullMap, OriginalKeyFor, AllKeys, PlanKeys;
  }

  lemma RowCompletedWorking(cfg: Config, s: State, m: MsgId, img: Image)
    requires m in s.jobs && m in s.uploads && s.jobs[m] == Filling(|ThePlan(cfg)|, img) && s.uploads[m].id in s.rows
    requires !s.rows[s.uploads[m].id].deleted
    requires UploadsOk(s.uploads, s.rows, s.born, s.uploaders) && JobsOk(cfg, s.jobs, s.uploads, s.born)
    requires WorkingOk(s.jobs, s.uploads, s.rows, s.incidents) && AloneOk(s.uploads, s.jobs, s.incidents)
    ensures var t := RowCompleted(cfg, s, m, s.uploads[m].id, img);
      WorkingOk(t.jobs, t.uploads, t.rows, t.incidents)
  {
    hide AllDeclared, Plan, FullMap, OriginalKeyFor, AllKeys, PlanKeys;
  }

  lemma RowCompletedStored(cfg: Config, s: State, m: MsgId, img: Image)
    requires m in s.jobs && m in s.uploads && s.jobs[m] == Filling(|ThePlan(cfg)|, img) && s.uploads[m].id in s.rows
    requires !s.rows[s.uploads[m].id].deleted
    requires UploadsOk(s.uploads, s.rows, s.born, s.uploaders) && JobsOk(cfg, s.jobs, s.uploads, s.born)
    requires JobsStored(cfg, s.jobs, s.uploads, s.objects, s.announced, s.incidents)
    requires QueuesOk(cfg, s.jobs, s.cleaners, s.incidents)
    ensures var t := RowCompleted(cfg, s, m, s.uploads[m].id, img);
      && QueuesOk(cfg, t.jobs, t.cleaners, t.incidents)
      && JobsStored(cfg, t.jobs, t.uploads, t.objects, t.announced, t.incidents)
  {
    hide AllDeclared, Plan, FullMap, OriginalKeyFor, AllKeys;
  }

  lemma RowCompletedRowThumbnails(cfg: Config, s: State, m: MsgId, img: Image)
    requires m in s.jobs && m in s.uploads && s.jobs[m] == Filling(|ThePlan(cfg)|, img) && s.uploads[m].id in s.rows
    requires !s.rows[s.uploads[m].id].deleted
    requires UploadsOk(s.uploads, s.rows, s.born, s.uploaders) && JobsOk(cfg, s.jobs, s.uploads, s.born)
    requires RowsStored(cfg, s.rows, s.objects, s.announced, s.incidents)
    requires JobsStored(cfg, s.jobs, s.uploads, s.objects, s.announced, s.incidents)
    ensures var t := RowCompleted(cfg, s, m, s.uploads[m].id, img);
      RowsStored(cfg, t.rows, t.objects, t.announced, t.incidents)
  {
    hide AllDeclared, Plan, FullMap, OriginalKeyFor, AllKeys;
  }

  lemma RowCompletedCovered(cfg: Config, s: State, m: MsgId, img: Image)
    requires m in s.jobs && m in s.uploads && s.jobs[m] == Filling(|ThePlan(cfg)|, img) && s.uploads[m].id in s.rows
    requires !s.rows[s.uploads[m].id].deleted
    requires RowsOk(cfg, s.rows, s.born) && Covered(cfg, s)
    ensures Covered(cfg, RowCompleted(cfg, s, m, s.uploads[m].id, img))
  {
    hide AllDeclared, Plan, FullMap, OriginalKeyFor, Genuine, RenderThumbnail, ThumbKeys, MessageClaims, Excused,
      AllKeys;
    var t := RowCompleted(cfg, s, m, s.uploads[m].id, img);
    forall k | k in t.objects && k.Avatar?() && k.id in t.rows
      ensures Claimed(cfg, t, k) || Excused(t.incidents, k)
    {
      CompletionAddsKeys(cfg, s.rows[s.uploads[m].id], s.uploads[m].id, s.born[s.uploads[m].id], img);
      if JobClaims(cfg, s.uploads, s.jobs, k) {
        var x :| x in s.jobs && x in s.uploads && k in UploadedKeys(cfg, s.uploads[x].id, s.jobs[x]);
        if x == m {
          assert RowClaims(t.rows, k);
        } else {
          assert x in t.jobs && x in t.uploads && k in UploadedKeys(cfg, t.uploads[x].id, t.jobs[x]);
        }
      }
      if DeleterClaims(s.deleters, s.rows, k) {
        var x :| x in s.deleters && Holds(s.deleters[x], s.rows, k);
        assert x in t.deleters && Holds(t.deleters[x], t.rows, k);
      }
    }
  }

  lemma RowCompletedKeeps(cfg: Config, s: State, m: MsgId, img: Image)
    requires Inv(cfg, s)
    requires m in s.jobs && m in s.uploads && s.jobs[m] == Filling(|ThePlan(cfg)|, img) && s.uploads[m].id in s.rows
    requires !s.rows[s.uploads[m].id].deleted
    ensures Inv(cfg, RowCompleted(cfg, s, m, s.uploads[m].id, img))
  {
    hide Inv, Sat, BornOk, RowsOk, UploadersOk, EarlyOk, DeletersOk, AnnouncedOk, UploadsOk, JobsOk, DeletesOk,
      ObjectsOk, NoEarlyThumbnails, OriginalsOk, Rowless, Covered, AllAttended, SingleCarrier, WorkingOk, RowsStored,
      JobsStored, OverOk, NoLateUploader, RecordsOk, ThumbsOk, StaleOk, StaleStored, QueuesOk, AloneOk, OverlapsOk;
    Clauses(cfg, s);
    RowCompletedRecords(cfg, s, m, img);
    RowCompletedDeleters(cfg, s, m, img);
    RowCompletedContents(cfg, s, m, img);
    RowCompletedMail(cfg, s, m, img);
    RowCompletedStale(cfg, s, m, img);
    RowCompletedProgress(cfg, s, m, img);
    RowCompletedCarriers(cfg, s, m, img);
    RowCompletedWorking(cfg, s, m, img);
    RowCompletedStored(cfg, s, m, img);
    RowCompletedRowThumbnails(cfg, s, m, img);
    RowCompletedCovered(cfg, s, m, img);
    FromClauses(cfg, RowCompleted(cfg, s, m, s.uploads[m].id, img));
  }

  lemma ThumbnailRemovedRecords(cfg: Config, s: State, m: MsgId, todo: set<ObjectKey>, gone: ObjectKey)
    requires m in s.jobs && m in s.uploads && s.jobs[m] == RollingBack(todo) && gone in todo
    requires BornOk(s.born) && EarlyOk(s.uploaders, s.deleters, s.announced, s.objects, s.born)
    requires UploadsOk(s.uploads, s.rows, s.born, s.uploaders) && JobsOk(cfg, s.jobs, s.uploads, s.born)
    requires OverOk(s.uploads, s.jobs, s.ackedDeleted, s.incidents) && AloneOk(s.uploads, s.jobs, s.incidents)
    ensures var t := ThumbnailRemoved(s, m, todo, gone);
      && EarlyOk(t.uploaders, t.deleters, t.announced, t.objects, t.born) && AloneOk(t.uploads, t.jobs, t.incidents)
      && OverOk(t.uploads, t.jobs, t.ackedDeleted, t.incidents)
  {
    hide AllDeclared, Plan, FullMap, OriginalKeyFor, AllKeys;
  }

  lemma ThumbnailRemovedMail(cfg: Config, s: State, m: MsgId, todo: set<ObjectKey>, gone: ObjectKey)
    requires m in s.jobs && m in s.uploads && s.jobs[m] == RollingBack(todo) && gone in todo
    requires UploadsOk(s.uploads, s.rows, s.born, s.uploaders) && JobsOk(cfg, s.jobs, s.uploads, s.born)
    ensures var t := ThumbnailRemoved(s, m, todo, gone);
      JobsOk(cfg, t.jobs, t.uploads, t.born)
  {
    hide AllDeclared, Plan, FullMap, OriginalKeyFor, Genuine, AllKeys;
  }

  lemma ThumbnailRemovedContents(cfg: Config, s: State, m: MsgId, todo: set<ObjectKey>, gone: ObjectKey)
    requires m in s.jobs && m in s.uploads && s.jobs[m] == RollingBack(todo) && gone in todo
    requires BornOk(s.born) && RowsOk(cfg, s.rows, s.born) && UploadsOk(s.uploads, s.rows, s.born, s.uploaders)
    requires JobsOk(cfg, s.jobs, s.uploads, s.born) && ObjectsOk(cfg, s.objects, s.born)
    requires NoEarlyThumbnails(s.objects, s.uploaders) && OriginalsOk(s.objects, s.rows, s.announced, s.incidents)
    requires QueuesOk(cfg, s.jobs, s.cleaners, s.incidents)
    ensures var t := ThumbnailRemoved(s, m, todo, gone);
      && ObjectsOk(cfg, t.objects, t.born) && NoEarlyThumbnails(t.objects, t.uploaders)
      && OriginalsOk(t.objects, t.rows, t.announced, t.incidents) && QueuesOk(cfg, t.jobs, t.cleaners, t.incidents)
  {
    hide AllDeclared, Plan, FullMap, OriginalKeyFor, AllKeys;
  }

  lemma ThumbnailRemovedStaleStored(cfg: Config, s: State, m: MsgId, todo: set<ObjectKey>, gone: ObjectKey)
    requires m in s.jobs && m in s.uploads && s.jobs[m] == RollingBack(todo) && gone in todo
    requires BornOk(s.born) && RowsOk(cfg, s.rows, s.born) && UploadsOk(s.uploads, s.rows, s.born, s.uploaders)
    requires JobsOk(cfg, s.jobs, s.uploads, s.born) && Rowless(s.objects, s.rows, s.uploaders, s.born, s.incidents)
    requires WorkingOk(s.jobs, s.uploads, s.rows, s.incidents) && ThumbsOk(s.rows, s.incidents)
    requires StaleOk(s.rows, s.deletes, s.announced, s.incidents) && StaleStored(cfg, s.objects, s.incidents)
    ensures var t := ThumbnailRemoved(s, m, todo, gone);
      && Rowless(t.objects, t.rows, t.uploaders, t.born, t.incidents) && StaleStored(cfg, t.objects, t.incidents)
  {
    hide AllDeclared, Plan, FullMap, OriginalKeyFor, AllKeys;
  }

  lemma ThumbnailRemovedProgress(cfg: Config, s: State, m: MsgId, todo: set<ObjectKey>, gone: ObjectKey)
    requires m in s.jobs && m in s.uploads && s.jobs[m] == RollingBack(todo) && gone in todo
    requires UploadsOk(s.uploads, s.rows, s.born, s.uploaders) && JobsOk(cfg, s.jobs, s.uploads, s.born)
    requires AllAttended(s.rows, s.uploaders, s.uploads, s.jobs, s.ackedDeleted, s.incidents)
    requires WorkingOk(s.jobs, s.uploads, s.rows, s.incidents)
    requires RowsStored(cfg, s.rows, s.objects, s.announced, s.incidents) && AloneOk(s.uploads, s.jobs, s.incidents)
    ensures var t := ThumbnailRemoved(s, m, todo, gone);
      && AllAttended(t.rows, t.uploaders, t.uploads, t.jobs, t.ackedDeleted, t.incidents)
      && RowsStored(cfg, t.rows, t.objects, t.announced, t.incidents)
  {
    hide AllDeclared, Plan, FullMap, OriginalKeyFor, AllKeys;
  }

  lemma ThumbnailRemovedStored(cfg: Config, s: State, m: MsgId, todo: set<ObjectKey>, gone: ObjectKey)
    requires m in s.jobs && m in s.uploads && s.jobs[m] == RollingBack(todo) && gone in todo
    requires UploadsOk(s.uploads, s.rows, s.born, s.uploaders) && JobsOk(cfg, s.jobs, s.uploads, s.born)
    requires SingleCarrier(s.uploads, s.jobs, s.incidents) && WorkingOk(s.jobs, s.uploads, s.rows, s.incidents)
    requires JobsStored(cfg, s.jobs, s.uploads, s.objects, s.announced, s.incidents)
    requires AloneOk(s.uploads, s.jobs, s.incidents)
    ensures var t := ThumbnailRemoved(s, m, todo, gone);
      && SingleCarrier(t.uploads, t.jobs, t.incidents)
      && JobsStored(cfg, t.jobs, t.uploads, t.objects, t.announced, t.incidents)
  {
    hide AllDeclared, Plan, FullMap, OriginalKeyFor, AllKeys;
  }

  lemma ThumbnailRemovedWorking(cfg: Config, s: State, m: MsgId, todo: set<ObjectKey>, gone: ObjectKey)
    requires m in s.jobs && m in s.uploads && s.jobs[m] == RollingBack(todo) && gone in todo
    requires WorkingOk(s.jobs, s.uploads, s.rows, s.incidents)
    ensures var t := ThumbnailRemoved(s, m, todo, gone);
      WorkingOk(t.jobs, t.uploads, t.rows, t.incidents)
  {
    hide AllDeclared, Plan, FullMap, OriginalKeyFor, AllKeys, PlanKeys;
  }

  lemma ThumbnailRemovedCovered(cfg: Config, s: State, m: MsgId, todo: set<ObjectKey>, gone: ObjectKey)
    requires m in s.jobs && m in s.uploads && s.jobs[m] == RollingBack(todo) && gone in todo
    requires Covered(cfg, s)
    ensures Covered(cfg, ThumbnailRemoved(s, m, todo, gone))
  {
    hide AllDeclared, Plan, FullMap, OriginalKeyFor, Genuine, RenderThumbnail, ThumbKeys, RowClaims, DeleterClaims,
      MessageClaims, Excused, AllKeys, PlanKeys;
    var t := ThumbnailRemoved(s, m, todo, gone);
    forall k | k in t.objects && k.Avatar?() && k.id in t.rows
      ensures Claimed(cfg, t, k) || Excused(t.incidents, k)
    {
      if JobClaims(cfg, s.uploads, s.jobs, k) {
        var x :| x in s.jobs && x in s.uploads && k in UploadedKeys(cfg, s.uploads[x].id, s.jobs[x]);
        assert x in t.jobs && x in t.uploads && k in UploadedKeys(cfg, t.uploads[x].id, t.jobs[x]);
      }
    }
  }

  lemma ThumbnailRemovedKeeps(cfg: Config, s: State, m: MsgId, todo: set<ObjectKey>, gone: ObjectKey)
    requires Inv(cfg, s)
    requires m in s.jobs && m in s.uploads && s.jobs[m] == RollingBack(todo) && gone in todo
    ensures Inv(cfg, ThumbnailRemoved(s, m, todo, gone))
  {
    hide Inv, Sat, BornOk, RowsOk, UploadersOk, EarlyOk, DeletersOk, AnnouncedOk, UploadsOk, JobsOk, DeletesOk,
      ObjectsOk, NoEarlyThumbnails, OriginalsOk, Rowless, Covered, AllAttended, SingleCarrier, WorkingOk, RowsStored,
      JobsStored, OverOk, NoLateUploader, RecordsOk, ThumbsOk, StaleOk, StaleStored, QueuesOk, AloneOk, OverlapsOk;
    Clauses(cfg, s);
    ThumbnailRemovedRecords(cfg, s, m, todo, gone);
    ThumbnailRemovedMail(cfg, s, m, todo, gone);
    ThumbnailRemovedContents(cfg, s, m, todo, gone);
    ThumbnailRemovedStaleStored(cfg, s, m, todo, gone);
    ThumbnailRemovedProgress(cfg, s, m, todo, gone);
    ThumbnailRemovedStored(cfg, s, m, todo, gone);
    ThumbnailRemovedWorking(cfg, s, m, todo, gone);
    ThumbnailRemovedCovered(cfg, s, m, todo, gone);
    FromClauses(cfg, ThumbnailRemoved(s, m, todo, gone));
  }

  lemma ThumbnailLeftStored(cfg: Config, s: State, m: MsgId, todo: set<ObjectKey>, gone: ObjectKey)
    requires m in s.jobs && m in s.uploads && s.jobs[m] == RollingBack(todo) && gone in todo
    requires UploadersOk(s.uploaders, s.rows, s.born, s.incidents) && JobsOk(cfg, s.jobs, s.uploads, s.born)
    requires SingleCarrier(s.uploads, s.jobs, s.incidents)
    requires RowsStored(cfg, s.rows, s.objects, s.announced, s.incidents)
    requires JobsStored(cfg, s.jobs, s.uploads, s.objects, s.announced, s.incidents)
    requires StaleOk(s.rows, s.deletes, s.announced, s.incidents)
    ensures var t := ThumbnailLeft(s, m, todo, gone);
      && UploadersOk(t.uploaders, t.rows, t.born, t.incidents)
      && StaleOk(t.rows, t.deletes, t.announced, t.incidents) && SingleCarrier(t.uploads, t.jobs, t.incidents)
      && RowsStored(cfg, t.rows, t.objects, t.announced, t.incidents)
      && JobsStored(cfg, t.jobs, t.uploads, t.objects, t.announced, t.incidents)
  {
    hide AllDeclared, Plan, FullMap, OriginalKeyFor;
  }

  lemma ThumbnailLeftProgress(cfg: Config, s: State, m: MsgId, todo: set<ObjectKey>, gone: ObjectKey)
    requires m in s.jobs && m in s.uploads && s.jobs[m] == RollingBack(todo) && gone in todo
    requires OriginalsOk(s.objects, s.rows, s.announced, s.incidents)
    requires Rowless(s.objects, s.rows, s.uploaders, s.born, s.incidents)
    requires NoLateUploader(s.uploaders, s.ackedDeleted, s.incidents)
    requires RecordsOk(s.born, s.ackedDeleted, s.incidents) && ThumbsOk(s.rows, s.incidents)
    requires StaleStored(cfg, s.objects, s.incidents) && AloneOk(s.uploads, s.jobs, s.incidents)
    requires OverlapsOk(s.incidents)
    ensures var t := ThumbnailLeft(s, m, todo, gone);
      && RecordsOk(t.born, t.ackedDeleted, t.incidents) && OriginalsOk(t.objects, t.rows, t.announced, t.incidents)
      && Rowless(t.objects, t.rows, t.uploaders, t.born, t.incidents) && StaleStored(cfg, t.objects, t.incidents)
      && AloneOk(t.uploads, t.jobs, t.incidents) && NoLateUploader(t.uploaders, t.ackedDeleted, t.incidents)
      && ThumbsOk(t.rows, t.incidents) && OverlapsOk(t.incidents)
  {
    hide AllDeclared, Plan, FullMap, OriginalKeyFor, AllKeys;
  }

  lemma ThumbnailLeftMail(cfg: Config, s: State, m: MsgId, todo: set<ObjectKey>, gone: ObjectKey)
    requires m in s.jobs && m in s.uploads && s.jobs[m] == RollingBack(todo) && gone in todo
    requires UploadsOk(s.uploads, s.rows, s.born, s.uploaders) && JobsOk(cfg, s.jobs, s.uploads, s.born)
    requires WorkingOk(s.jobs, s.uploads, s.rows, s.incidents)
    ensures var t := ThumbnailLeft(s, m, todo, gone);
      && JobsOk(cfg, t.jobs, t.uploads, t.born) && WorkingOk(t.jobs, t.uploads, t.rows, t.incidents)
  {
    hide AllDeclared, Plan, FullMap, OriginalKeyFor, AllKeys;
  }

  lemma ThumbnailLeftAttended(cfg: Config, s: State, m: MsgId, todo: set<ObjectKey>, gone: ObjectKey)
    requires m in s.jobs && m in s.uploads && s.jobs[m] == RollingBack(todo) && gone in todo
    requires JobsOk(cfg, s.jobs, s.uploads, s.born)
    requires AllAttended(s.rows, s.uploaders, s.uploads, s.jobs, s.ackedDeleted, s.incidents)
    requires OverOk(s.uploads, s.jobs, s.ackedDeleted, s.incidents)
    requires QueuesOk(cfg, s.jobs, s.cleaners, s.incidents)
    ensures var t := ThumbnailLeft(s, m, todo, gone);
      && AllAttended(t.rows, t.uploaders, t.uploads, t.jobs, t.ackedDeleted, t.incidents)
      && OverOk(t.uploads, t.jobs, t.ackedDeleted, t.incidents) && QueuesOk(cfg, t.jobs, t.cleaners, t.incidents)
  {
    hide AllDeclared, Plan, FullMap, OriginalKeyFor, AllKeys, PlanKeys;
  }

  lemma ThumbnailLeftCovered(cfg: Config, s: State, m: MsgId, todo: set<ObjectKey>, gone: ObjectKey)
    requires m in s.jobs && m in s.uploads && s.jobs[m] == RollingBack(todo) && gone in todo
    requires Covered(cfg, s)
    ensures Covered(cfg, ThumbnailLeft(s, m, todo, gone))
  {
    hide AllDeclared, Plan, FullMap, OriginalKeyFor, Genuine, RenderThumbnail, ThumbKeys, RowClaims, DeleterClaims,
      MessageClaims, AllKeys, PlanKeys;
    var t := ThumbnailLeft(s, m, todo, gone);
    forall k | k in t.objects && k.Avatar?() && k.id in t.rows
      ensures Claimed(cfg, t, k) || Excused(t.incidents, k)
    {
      if JobClaims(cfg, s.uploads, s.jobs, k) {
        var x :| x in s.jobs && x in s.uploads && k in UploadedKeys(cfg, s.uploads[x].id, s.jobs[x]);
        assert x != m || k != gone
          ==> x in t.jobs && x in t.uploads && k in UploadedKeys(cfg, t.uploads[x].id, t.jobs[x]);
      }
    }
  }

  lemma ThumbnailLeftKeeps(cfg: Config, s: State, m: MsgId, todo: set<ObjectKey>, gone: ObjectKey)
    requires Inv(cfg, s)
    requires m in s.jobs && m in s.uploads && s.jobs[m] == RollingBack(todo) && gone in todo
    ensures Inv(cfg, ThumbnailLeft(s, m, todo, gone))
  {
    hide Inv, Sat, BornOk, RowsOk, UploadersOk, EarlyOk, DeletersOk, AnnouncedOk, UploadsOk, JobsOk, DeletesOk,
      ObjectsOk, NoEarlyThumbnails, OriginalsOk, Rowless, Covered, AllAttended, SingleCarrier, WorkingOk, RowsStored,
      JobsStored, OverOk, NoLateUploader, RecordsOk, ThumbsOk, StaleOk, StaleStored, QueuesOk, AloneOk, OverlapsOk;
    Clauses(cfg, s);
    ThumbnailLeftStored(cfg, s, m, todo, gone);
    ThumbnailLeftProgress(cfg, s, m, todo, gone);
    ThumbnailLeftMail(cfg, s, m, todo, gone);
    ThumbnailLeftAttended(cfg, s, m, todo, gone);
    ThumbnailLeftCovered(cfg, s, m, todo, gone);
    FromClauses(cfg, ThumbnailLeft(s, m, todo, gone));
  }

  lemma RowFailedRecords(cfg: Config, s: State, m: MsgId)
    requires m in s.jobs && m in s.uploads && s.jobs[m].MarkingFailed? && s.uploads[m].id in s.rows
    requires !s.rows[s.uploads[m].id].deleted
    requires RowsOk(cfg, s.rows, s.born) && UploadersOk(s.uploaders, s.rows, s.born, s.incidents)
    requires AnnouncedOk(s.announced, s.rows, s.born) && UploadsOk(s.uploads, s.rows, s.born, s.uploaders)
    ensures var t := RowFailed(s, m, s.uploads[m].id);
      && RowsOk(cfg, t.rows, t.born) && UploadersOk(t.uploaders, t.rows, t.born, t.incidents)
      && AnnouncedOk(t.announced, t.rows, t.born)
  {
    hide AllDeclared, Plan, FullMap, OriginalKeyFor, Genuine, ThumbKeys;
  }

  lemma RowFailedDeleters(cfg: Config, s: State, m: MsgId)
    requires m in s.jobs && m in s.uploads && s.jobs[m].MarkingFailed? && s.uploads[m].id in s.rows
    requires !s.rows[s.uploads[m].id].deleted
    requires RowsOk(cfg, s.rows, s.born) && DeletersOk(cfg, s.deleters, s.rows, s.born, s.announced)
    ensures var t := RowFailed(s, m, s.uploads[m].id);
      DeletersOk(cfg, t.deleters, t.rows, t.born, t.announced)
  {
    hide AllDeclared, Plan, FullMap, OriginalKeyFor, Genuine;
  }

  lemma RowFailedProgress(cfg: Config, s: State, m: MsgId)
    requires m in s.jobs && m in s.uploads && s.jobs[m].MarkingFailed? && s.uploads[m].id in s.rows
    requires !s.rows[s.uploads[m].id].deleted
    requires UploadsOk(s.uploads, s.rows, s.born, s.uploaders)
    requires OriginalsOk(s.objects, s.rows, s.announced, s.incidents)
    requires WorkingOk(s.jobs, s.uploads, s.rows, s.incidents)
    requires JobsStored(cfg, s.jobs, s.uploads, s.objects, s.announced, s.incidents)
    requires OverOk(s.uploads, s.jobs, s.ackedDeleted, s.incidents)
    ensures var t := RowFailed(s, m, s.uploads[m].id);
      && UploadsOk(t.uploads, t.rows, t.born, t.uploaders)
      && OriginalsOk(t.objects, t.rows, t.announced, t.incidents)
      && WorkingOk(t.jobs, t.uploads, t.rows, t.incidents) && OverOk(t.uploads, t.jobs, t.ackedDeleted, t.incidents)
      && JobsStored(cfg, t.jobs, t.uploads, t.objects, t.announced, t.incidents)
  {
    hide AllDeclared, Plan, FullMap, OriginalKeyFor, AllKeys;
  }

  lemma RowFailedMail(cfg: Config, s: State, m: MsgId)
    requires m in s.jobs && m in s.uploads && s.jobs[m].MarkingFailed? && s.uploads[m].id in s.rows
    requires !s.rows[s.uploads[m].id].deleted
    requires JobsOk(cfg, s.jobs, s.uploads, s.born) && Rowless(s.objects, s.rows, s.uploaders, s.born, s.incidents)
    requires WorkingOk(s.jobs, s.uploads, s.rows, s.incidents) && ThumbsOk(s.rows, s.incidents)
    ensures var t := RowFailed(s, m, s.uploads[m].id);
      && JobsOk(cfg, t.jobs, t.uploads, t.born) && Rowless(t.objects, t.rows, t.uploaders, t.born, t.incidents)
      && ThumbsOk(t.rows, t.incidents)
  {
    hide AllDeclared, Plan, FullMap, OriginalKeyFor, AllKeys;
  }

  lemma RowFailedStored(cfg: Config, s: State, m: MsgId)
    requires m in s.jobs && m in s.uploads && s.jobs[m].MarkingFailed? && s.uploads[m].id in s.rows
    requires !s.rows[s.uploads[m].id].deleted
    requires RowsStored(cfg, s.rows, s.objects, s.announced, s.incidents)
    requires StaleOk(s.rows, s.deletes, s.announced, s.incidents) && QueuesOk(cfg, s.jobs, s.cleaners, s.incidents)
    requires AloneOk(s.uploads, s.jobs, s.incidents)
    ensures var t := RowFailed(s, m, s.uploads[m].id);
      && StaleOk(t.rows, t.deletes, t.announced, t.incidents) && AloneOk(t.uploads, t.jobs, t.incidents)
      && QueuesOk(cfg, t.jobs, t.cleaners, t.incidents)
      && RowsStored(cfg, t.rows, t.objects, t.announced, t.incidents)
  {
    hide AllDeclared, Plan, FullMap, OriginalKeyFor;
  }

  lemma RowFailedAttended(cfg: Config, s: State, m: MsgId)
    requires m in s.jobs && m in s.uploads && s.jobs[m].MarkingFailed? && s.uploads[m].id in s.rows
    requires !s.rows[s.uploads[m].id].deleted
    requires JobsOk(cfg, s.jobs, s.uploads, s.born)
    requires AllAttended(s.rows, s.uploaders, s.uploads, s.jobs, s.ackedDeleted, s.incidents)
    requires SingleCarrier(s.uploads, s.jobs, s.incidents)
    ensures var t := RowFailed(s, m, s.uploads[m].id);
      && AllAttended(t.rows, t.uploaders, t.uploads, t.jobs, t.ackedDeleted, t.incidents)
      && SingleCarrier(t.uploads, t.jobs, t.incidents)
  {
    hide AllDeclared, Plan, FullMap, OriginalKeyFor, AllKeys, PlanKeys;
  }

  lemma RowFailedCovered(cfg: Config, s: State, m: MsgId)
    requires m in s.jobs && m in s.uploads && s.jobs[m].MarkingFailed? && s.uploads[m].id in s.rows
    requires !s.rows[s.uploads[m].id].deleted
    requires Covered(cfg, s)
    ensures Covered(cfg, RowFailed(s, m, s.uploads[m].id))
  {
    hide AllDeclared, Plan, FullMap, OriginalKeyFor, Genuine, RenderThumbnail, ThumbKeys, MessageClaims, Excused,
      PlanKeys;
    var t := RowFailed(s, m, s.uploads[m].id);
    forall k | k in t.objects && k.Avatar?() && k.id in t.rows
      ensures Claimed(cfg, t, k) || Excused(t.incidents, k)
    {
      if JobClaims(cfg, s.uploads, s.jobs, k) {
        var x :| x in s.jobs && x in s.uploads && k in UploadedKeys(cfg, s.uploads[x].id, s.jobs[x]);
        assert x in t.jobs && x in t.uploads && k in UploadedKeys(cfg, t.uploads[x].id, t.jobs[x]);
      }
      if DeleterClaims(s.deleters, s.rows, k) {
        var x :| x in s.deleters && Holds(s.deleters[x], s.rows, k);
        assert x in t.deleters && Holds(t.deleters[x], t.rows, k);
      }
    }
  }

  lemma RowFailedKeeps(cfg: Config, s: State, m: MsgId)
    requires Inv(cfg, s)
    requires m in s.jobs && m in s.uploads && s.jobs[m].MarkingFailed? && s.uploads[m].id in s.rows
    requires !s.rows[s.uploads[m].id].deleted
    ensures Inv(cfg, RowFailed(s, m, s.uploads[m].id))
  {
    hide Inv, Sat, BornOk, RowsOk, UploadersOk, EarlyOk, DeletersOk, AnnouncedOk, UploadsOk, JobsOk, DeletesOk,
      ObjectsOk, NoEarlyThumbnails, OriginalsOk, Rowless, Covered, AllAttended, SingleCarrier, WorkingOk, RowsStored,
      JobsStored, OverOk, NoLateUploader, RecordsOk, ThumbsOk, StaleOk, StaleStored, QueuesOk, AloneOk, OverlapsOk;
    Clauses(cfg, s);
    RowFailedRecords(cfg, s, m);
    RowFailedDeleters(cfg, s, m);
    RowFailedProgress(cfg, s, m);
    RowFailedMail(cfg, s, m);
    RowFailedStored(cfg, s, m);
    RowFailedAttended(cfg, s, m);
    RowFailedCovered(cfg, s, m);
    FromClauses(cfg, RowFailed(s, m, s.uploads[m].id));
  }

  lemma UploadRequeuedProgress(cfg: Config, s: State, m: MsgId, copy: UploadMsg, newId: MsgId)
    requires m in s.jobs && m in s.uploads && s.jobs[m].Requeueing? && newId !in s.uploads
    requires copy.id == s.uploads[m].id && copy.key == s.uploads[m].key && copy.place != InFlight
    requires UploadsOk(s.uploads, s.rows, s.born, s.uploaders) && JobsOk(cfg, s.jobs, s.uploads, s.born)
    requires AllAttended(s.rows, s.uploaders, s.uploads, s.jobs, s.ackedDeleted, s.incidents)
    ensures var t := UploadRequeued(s, m, copy, newId);
      && UploadsOk(t.uploads, t.rows, t.born, t.uploaders)
      && AllAttended(t.rows, t.uploaders, t.uploads, t.jobs, t.ackedDeleted, t.incidents)
  {
    hide AllDeclared, Plan, FullMap, OriginalKeyFor, AllKeys;
    var t := UploadRequeued(s, m, copy, newId);
    forall x | x in t.rows
      ensures Attended(x, t.rows[x], t.uploaders, t.uploads, t.jobs, t.ackedDeleted, t.incidents)
    {
      if Carried(s.uploads, s.jobs, x) {
        var w :| w in s.uploads && Waiting(s.uploads, s.jobs, w, x);
        if w == m {
          assert newId in t.uploads && Waiting(t.uploads, t.jobs, newId, x);
        } else {
          assert w in t.uploads && Waiting(t.uploads, t.jobs, w, x);
        }
      }
    }
  }

  lemma UploadRequeuedMail(cfg: Config, s: State, m: MsgId, copy: UploadMsg, newId: MsgId)
    requires m in s.jobs && m in s.uploads && s.jobs[m].Requeueing? && newId !in s.uploads
    requires copy.id == s.uploads[m].id && copy.key == s.uploads[m].key && copy.place != InFlight
    requires JobsOk(cfg, s.jobs, s.uploads, s.born)
    requires JobsStored(cfg, s.jobs, s.uploads, s.objects, s.announced, s.incidents)
    ensures var t := UploadRequeued(s, m, copy, newId);
      && JobsOk(cfg, t.jobs, t.uploads, t.born)
      && JobsStored(cfg, t.jobs, t.uploads, t.objects, t.announced, t.incidents)
  {
    hide AllDeclared, Plan, FullMap, OriginalKeyFor, AllKeys;
  }

  lemma UploadRequeuedCarriers(cfg: Config, s: State, m: MsgId, copy: UploadMsg, newId: MsgId)
    requires m in s.jobs && m in s.uploads && s.jobs[m].Requeueing? && newId !in s.uploads
    requires copy.id == s.uploads[m].id && copy.key == s.uploads[m].key && copy.place != InFlight
    requires JobsOk(cfg, s.jobs, s.uploads, s.born) && SingleCarrier(s.uploads, s.jobs, s.incidents)
    requires WorkingOk(s.jobs, s.uploads, s.rows, s.incidents)
    ensures var t := UploadRequeued(s, m, copy, newId);
      && SingleCarrier(t.uploads, t.jobs, t.incidents) && WorkingOk(t.jobs, t.uploads, t.rows, t.incidents)
  {
    hide AllDeclared, Plan, FullMap, OriginalKeyFor, AllKeys, PlanKeys;
  }

  lemma UploadRequeuedAlone(cfg: Config, s: State, m: MsgId, copy: UploadMsg, newId: MsgId)
    requires m in s.jobs && m in s.uploads && s.jobs[m].Requeueing? && newId !in s.uploads
    requires copy.id == s.uploads[m].id && copy.key == s.uploads[m].key && copy.place != InFlight
    requires JobsOk(cfg, s.jobs, s.uploads, s.born) && OverOk(s.uploads, s.jobs, s.ackedDeleted, s.incidents)
    requires QueuesOk(cfg, s.jobs, s.cleaners, s.incidents) && AloneOk(s.uploads, s.jobs, s.incidents)
    ensures var t := UploadRequeued(s, m, copy, newId);
      && AloneOk(t.uploads, t.jobs, t.incidents) && OverOk(t.uploads, t.jobs, t.ackedDeleted, t.incidents)
      && QueuesOk(cfg, t.jobs, t.cleaners, t.incidents)
  {
    hide AllDeclared, Plan, FullMap, OriginalKeyFor, AllKeys, PlanKeys;
  }

  lemma UploadRequeuedCovered(cfg: Config, s: State, m: MsgId, copy: UploadMsg, newId: MsgId)
    requires m in s.jobs && m in s.uploads && s.jobs[m].Requeueing? && newId !in s.uploads
    requires copy.id == s.uploads[m].id && copy.key == s.uploads[m].key && copy.place != InFlight
    requires JobsOk(cfg, s.jobs, s.uploads, s.born) && Covered(cfg, s)
    ensures Covered(cfg, UploadRequeued(s, m, copy, newId))
  {
    hide AllDeclared, Plan, FullMap, OriginalKeyFor, Genuine, RenderThumbnail, ThumbKeys, RowClaims, DeleterClaims,
      MessageClaims, Excused, AllKeys, PlanKeys;
    var t := UploadRequeued(s, m, copy, newId);
    forall k | k in t.objects && k.Avatar?() && k.id in t.rows
      ensures Claimed(cfg, t, k) || Excused(t.incidents, k)
    {
      if JobClaims(cfg, s.uploads, s.jobs, k) {
        var x :| x in s.jobs && x in s.uploads && k in UploadedKeys(cfg, s.uploads[x].id, s.jobs[x]);
        assert x in t.jobs && x in t.uploads && k in UploadedKeys(cfg, t.uploads[x].id, t.jobs[x]);
      }
    }
  }

  lemma UploadRequeuedKeeps(cfg: Config, s: State, m: MsgId, copy: UploadMsg, newId: MsgId)
    requires Inv(cfg, s)
    requires m in s.jobs && m in s.uploads && s.jobs[m].Requeueing? && newId !in s.uploads
    requires copy.id == s.uploads[m].id && copy.key == s.uploads[m].key && copy.place != InFlight
    ensures Inv(cfg, UploadRequeued(s, m, copy, newId))
  {
    hide Inv, Sat, BornOk, RowsOk, UploadersOk, EarlyOk, DeletersOk, AnnouncedOk, UploadsOk, JobsOk, DeletesOk,
      ObjectsOk, NoEarlyThumbnails, OriginalsOk, Rowless, Covered, AllAttended, SingleCarrier, WorkingOk, RowsStored,
      JobsStored, OverOk, NoLateUploader, RecordsOk, ThumbsOk, StaleOk, StaleStored, QueuesOk, AloneOk, OverlapsOk;
    Clauses(cfg, s);
    UploadRequeuedProgress(cfg, s, m, copy, newId);
    UploadRequeuedMail(cfg, s, m, copy, newId);
    UploadRequeuedCarriers(cfg, s, m, copy, newId);
    UploadRequeuedAlone(cfg, s, m, copy, newId);
    UploadRequeuedCovered(cfg, s, m, copy, newId);
    FromClauses(cfg, UploadRequeued(s, m, copy, newId));
  }
}
