/** Every move of an upload message keeps the invariant. */
module UploadMailSteps {
  import opened Keys
  import opened Catalogs
  import opened Rendering
  import opened Avatars
  import opened Routing
  import opened Lifecycle
  import opened Invariants

  lemma UploadDeliveredProgress(cfg: Config, s: State, m: MsgId)
    requires m in s.uploads && s.uploads[m].place == Main
    requires UploadersOk(s.uploaders, s.rows, s.born, s.incidents)
    requires StaleOk(s.rows, s.deletes, s.announced, s.incidents) && StaleStored(cfg, s.objects, s.incidents)
    requires QueuesOk(cfg, s.jobs, s.cleaners, s.incidents)
    ensures var t := UploadDelivered(s, m);
      && UploadersOk(t.uploaders, t.rows, t.born, t.incidents)
      && StaleOk(t.rows, t.deletes, t.announced, t.incidents) && StaleStored(cfg, t.objects, t.incidents)
      && QueuesOk(cfg, t.jobs, t.cleaners, t.incidents)
  {
    hide AllDeclared, Plan, FullMap, OriginalKeyFor;
  }

  lemma UploadDeliveredStored(cfg: Config, s: State, m: MsgId)
    requires m in s.uploads && s.uploads[m].place == Main
    requires OriginalsOk(s.objects, s.rows, s.announced, s.incidents)
    requires Rowless(s.objects, s.rows, s.uploaders, s.born, s.incidents)
    requires RowsStored(cfg, s.rows, s.objects, s.announced, s.incidents)
    requires JobsStored(cfg, s.jobs, s.uploads, s.objects, s.announced, s.incidents)
    requires RecordsOk(s.born, s.ackedDeleted, s.incidents) && ThumbsOk(s.rows, s.incidents)
    ensures var t := UploadDelivered(s, m);
      && RecordsOk(t.born, t.ackedDeleted, t.incidents) && OriginalsOk(t.objects, t.rows, t.announced, t.incidents)
      && Rowless(t.objects, t.rows, t.uploaders, t.born, t.incidents) && ThumbsOk(t.rows, t.incidents)
      && RowsStored(cfg, t.rows, t.objects, t.announced, t.incidents)
      && JobsStored(cfg, t.jobs, t.uploads, t.objects, t.announced, t.incidents)
  {
    hide AllDeclared, Plan, FullMap, OriginalKeyFor, AllKeys;
  }

  lemma UploadDeliveredCarriers(cfg: Config, s: State, m: MsgId)
    requires m in s.uploads && s.uploads[m].place == Main
    requires UploadsOk(s.uploads, s.rows, s.born, s.uploaders) && JobsOk(cfg, s.jobs, s.uploads, s.born)
    requires SingleCarrier(s.uploads, s.jobs, s.incidents)
    ensures var t := UploadDelivered(s, m);
      && UploadsOk(t.uploads, t.rows, t.born, t.uploaders) && SingleCarrier(t.uploads, t.jobs, t.incidents)
  {
    hide AllDeclared, Plan, FullMap, OriginalKeyFor, AllKeys;
  }

  lemma UploadDeliveredMail(cfg: Config, s: State, m: MsgId)
    requires m in s.uploads && s.uploads[m].place == Main
    requires JobsOk(cfg, s.jobs, s.uploads, s.born)
    ensures var t := UploadDelivered(s, m);
      JobsOk(cfg, t.jobs, t.uploads, t.born)
  {
    hide AllDeclared, Plan, FullMap, OriginalKeyFor, Genuine, AllKeys;
  }

  lemma UploadDeliveredAttended(cfg: Config, s: State, m: MsgId)
    requires m in s.uploads && s.uploads[m].place == Main
    requires JobsOk(cfg, s.jobs, s.uploads, s.born)
    requires AllAttended(s.rows, s.uploaders, s.uploads, s.jobs, s.ackedDeleted, s.incidents)
    ensures var t := UploadDelivered(s, m);
      AllAttended(t.rows, t.uploaders, t.uploads, t.jobs, t.ackedDeleted, t.incidents)
  {
    hide AllDeclared, Plan, FullMap, OriginalKeyFor, AllKeys, PlanKeys;
    var t := UploadDelivered(s, m);
    forall x | x in t.rows
      ensures Attended(x, t.rows[x], t.uploaders, t.uploads, t.jobs, t.ackedDeleted, t.incidents)
    {
      if Carried(s.uploads, s.jobs, x) {
        var w :| w in s.uploads && Waiting(s.uploads, s.jobs, w, x);
        assert w in t.uploads && Waiting(t.uploads, t.jobs, w, x);
      }
    }
  }

  lemma UploadDeliveredAlone(cfg: Config, s: State, m: MsgId)
    requires m in s.uploads && s.uploads[m].place == Main
    requires JobsOk(cfg, s.jobs, s.uploads, s.born) && WorkingOk(s.jobs, s.uploads, s.rows, s.incidents)
    requires NoLateUploader(s.uploaders, s.ackedDeleted, s.incidents) && AloneOk(s.uploads, s.jobs, s.incidents)
    ensures var t := UploadDelivered(s, m);
      && WorkingOk(t.jobs, t.uploads, t.rows, t.incidents) && AloneOk(t.uploads, t.jobs, t.incidents)
      && NoLateUploader(t.uploaders, t.ackedDeleted, t.incidents)
  {
    hide AllDeclared, Plan, FullMap, OriginalKeyFor, AllKeys, PlanKeys;
  }

  lemma UploadDeliveredOver(cfg: Config, s: State, m: MsgId)
    requires m in s.uploads && s.uploads[m].place == Main
    requires JobsOk(cfg, s.jobs, s.uploads, s.born) && OverOk(s.uploads, s.jobs, s.ackedDeleted, s.incidents)
    ensures var t := UploadDelivered(s, m);
      OverOk(t.uploads, t.jobs, t.ackedDeleted, t.incidents)
  {
    hide AllDeclared, Plan, FullMap, OriginalKeyFor, AllKeys, PlanKeys;
  }

  lemma UploadDeliveredOverlaps(cfg: Config, s: State, m: MsgId)
    requires m in s.uploads && s.uploads[m].place == Main
    requires UploadsOk(s.uploads, s.rows, s.born, s.uploaders) && JobsOk(cfg, s.jobs, s.uploads, s.born)
    requires SingleCarrier(s.uploads, s.jobs, s.incidents) && OverlapsOk(s.incidents)
    ensures var t := UploadDelivered(s, m);
      OverlapsOk(t.incidents)
  {
    hide AllDeclared, Plan, FullMap, OriginalKeyFor, AllKeys, PlanKeys;
  }

  lemma UploadDeliveredCovered(cfg: Config, s: State, m: MsgId)
    requires m in s.uploads && s.uploads[m].place == Main
    requires JobsOk(cfg, s.jobs, s.uploads, s.born) && Covered(cfg, s)
    ensures Covered(cfg, UploadDelivered(s, m))
  {
    hide AllDeclared, Plan, FullMap, OriginalKeyFor, Genuine, RenderThumbnail, ThumbKeys, RowClaims, DeleterClaims,
      MessageClaims, AllKeys, PlanKeys, Busy;
    var t := UploadDelivered(s, m);
    forall k | k in t.objects && k.Avatar?() && k.id in t.rows
      ensures Claimed(cfg, t, k) || Excused(t.incidents, k)
    {
      if JobClaims(cfg, s.uploads, s.jobs, k) {
        var x :| x in s.jobs && x in s.uploads && k in UploadedKeys(cfg, s.uploads[x].id, s.jobs[x]);
        assert x in t.jobs && x in t.uploads && k in UploadedKeys(cfg, t.uploads[x].id, t.jobs[x]);
      }
    }
  }

  lemma UploadDeliveredKeeps(cfg: Config, s: State, m: MsgId)
    requires Inv(cfg, s)
    requires m in s.uploads && s.uploads[m].place == Main
    ensures Inv(cfg, UploadDelivered(s, m))
  {
    hide Inv, Sat, BornOk, RowsOk, UploadersOk, EarlyOk, DeletersOk, AnnouncedOk, UploadsOk, JobsOk, DeletesOk,
      ObjectsOk, NoEarlyThumbnails, OriginalsOk, Rowless, Covered, AllAttended, SingleCarrier, WorkingOk, RowsStored,
      JobsStored, OverOk, NoLateUploader, RecordsOk, ThumbsOk, StaleOk, StaleStored, QueuesOk, AloneOk, OverlapsOk;
    Clauses(cfg, s);
    UploadDeliveredProgress(cfg, s, m);
    UploadDeliveredStored(cfg, s, m);
    UploadDeliveredCarriers(cfg, s, m);
    UploadDeliveredMail(cfg, s, m);
    UploadDeliveredAttended(cfg, s, m);
    UploadDeliveredAlone(cfg, s, m);
    UploadDeliveredOver(cfg, s, m);
    UploadDeliveredOverlaps(cfg, s, m);
    UploadDeliveredCovered(cfg, s, m);
    FromClauses(cfg, UploadDelivered(s, m));
  }

  lemma UploadAckedRecords(cfg: Config, s: State, m: MsgId, how: Settlement)
    requires m in s.jobs && m in s.uploads && s.jobs[m] == Acking(how)
    requires UploadersOk(s.uploaders, s.rows, s.born, s.incidents)
    requires StaleOk(s.rows, s.deletes, s.announced, s.incidents) && StaleStored(cfg, s.objects, s.incidents)
    ensures var t := UploadAcked(s, m, s.uploads[m].id, how);
      && UploadersOk(t.uploaders, t.rows, t.born, t.incidents)
      && StaleOk(t.rows, t.deletes, t.announced, t.incidents) && StaleStored(cfg, t.objects, t.incidents)
  {
    hide AllDeclared, Plan, FullMap, OriginalKeyFor;
  }

  lemma UploadAckedIncidents(cfg: Config, s: State, m: MsgId, how: Settlement)
    requires m in s.jobs && m in s.uploads && s.jobs[m] == Acking(how)
    requires RowsOk(cfg, s.rows, s.born) && UploadsOk(s.uploads, s.rows, s.born, s.uploaders)
    requires RecordsOk(s.born, s.ackedDeleted, s.incidents) && ThumbsOk(s.rows, s.incidents)
    ensures var t := UploadAcked(s, m, s.uploads[m].id, how);
      && RecordsOk(t.born, t.ackedDeleted, t.incidents) && ThumbsOk(t.rows, t.incidents)
  {
    hide AllDeclared, Plan, FullMap, OriginalKeyFor, AllKeys, PlanKeys;
  }

  lemma UploadAckedContents(cfg: Config, s: State, m: MsgId, how: Settlement)
    requires m in s.jobs && m in s.uploads && s.jobs[m] == Acking(how)
    requires UploadsOk(s.uploads, s.rows, s.born, s.uploaders)
    requires OriginalsOk(s.objects, s.rows, s.announced, s.incidents)
    requires Rowless(s.objects, s.rows, s.uploaders, s.born, s.incidents)
    requires RowsStored(cfg, s.rows, s.objects, s.announced, s.incidents) && OverlapsOk(s.incidents)
    ensures var t := UploadAcked(s, m, s.uploads[m].id, how);
      && UploadsOk(t.uploads, t.rows, t.born, t.uploaders)
      && OriginalsOk(t.objects, t.rows, t.announced, t.incidents)
      && Rowless(t.objects, t.rows, t.uploaders, t.born, t.incidents) && OverlapsOk(t.incidents)
      && RowsStored(cfg, t.rows, t.objects, t.announced, t.incidents)
  {
    hide AllDeclared, Plan, FullMap, OriginalKeyFor, AllKeys;
  }

  lemma UploadAckedMail(cfg: Config, s: State, m: MsgId, how: Settlement)
    requires m in s.jobs && m in s.uploads && s.jobs[m] == Acking(how)
    requires JobsOk(cfg, s.jobs, s.uploads, s.born) && AloneOk(s.uploads, s.jobs, s.incidents)
    ensures var t := UploadAcked(s, m, s.uploads[m].id, how);
      && JobsOk(cfg, t.jobs, t.uploads, t.born) && AloneOk(t.uploads, t.jobs, t.incidents)
  {
    hide AllDeclared, Plan, FullMap, OriginalKeyFor, AllKeys;
  }

  lemma UploadAckedProgress(cfg: Config, s: State, m: MsgId, how: Settlement)
    requires m in s.jobs && m in s.uploads && s.jobs[m] == Acking(how)
    requires JobsOk(cfg, s.jobs, s.uploads, s.born)
    requires AllAttended(s.rows, s.uploaders, s.uploads, s.jobs, s.ackedDeleted, s.incidents)
    ensures var t := UploadAcked(s, m, s.uploads[m].id, how);
      AllAttended(t.rows, t.uploaders, t.uploads, t.jobs, t.ackedDeleted, t.incidents)
  {
    hide AllDeclared, Plan, FullMap, OriginalKeyFor, AllKeys, PlanKeys;
    var t := UploadAcked(s, m, s.uploads[m].id, how);
    forall x | x in t.rows
      ensures Attended(x, t.rows[x], t.uploaders, t.uploads, t.jobs, t.ackedDeleted, t.incidents)
    {
      if Carried(s.uploads, s.jobs, x) {
        var w :| w in s.uploads && Waiting(s.uploads, s.jobs, w, x);
        if w != m {
          assert w in t.uploads && Waiting(t.uploads, t.jobs, w, x);
        } else if how == Dropped {
          assert Carried(s.uploads, s.jobs, x);
        } else {
          assert how.Refused? && (how.cause == PublishFailed || how.cause == QueueMissing);
        }
      }
    }
  }

  lemma UploadAckedCarriers(cfg: Config, s: State, m: MsgId, how: Settlement)
    requires m in s.jobs && m in s.uploads && s.jobs[m] == Acking(how)
    requires SingleCarrier(s.uploads, s.jobs, s.incidents) && QueuesOk(cfg, s.jobs, s.cleaners, s.incidents)
    ensures var t := UploadAcked(s, m, s.uploads[m].id, how);
      && SingleCarrier(t.uploads, t.jobs, t.incidents) && QueuesOk(cfg, t.jobs, t.cleaners, t.incidents)
  {
    hide AllDeclared, Plan, FullMap, OriginalKeyFor, AllKeys, PlanKeys;
  }

  lemma UploadAckedWorking(cfg: Config, s: State, m: MsgId, how: Settlement)
    requires m in s.jobs && m in s.uploads && s.jobs[m] == Acking(how)
    requires WorkingOk(s.jobs, s.uploads, s.rows, s.incidents)
    requires JobsStored(cfg, s.jobs, s.uploads, s.objects, s.announced, s.incidents)
    ensures var t := UploadAcked(s, m, s.uploads[m].id, how);
      && WorkingOk(t.jobs, t.uploads, t.rows, t.incidents)
      && JobsStored(cfg, t.jobs, t.uploads, t.objects, t.announced, t.incidents)
  {
    hide AllDeclared, Plan, FullMap, OriginalKeyFor, AllKeys;
  }

  lemma UploadAckedOver(cfg: Config, s: State, m: MsgId, how: Settlement)
    requires m in s.jobs && m in s.uploads && s.jobs[m] == Acking(how)
    requires UploadsOk(s.uploads, s.rows, s.born, s.uploaders) && SingleCarrier(s.uploads, s.jobs, s.incidents)
    requires OverOk(s.uploads, s.jobs, s.ackedDeleted, s.incidents)
    ensures var t := UploadAcked(s, m, s.uploads[m].id, how);
      OverOk(t.uploads, t.jobs, t.ackedDeleted, t.incidents)
  {
    hide AllDeclared, Plan, FullMap, OriginalKeyFor, AllKeys, PlanKeys;
    var t := UploadAcked(s, m, s.uploads[m].id, how);
    forall x | Carrier(t.uploads, t.jobs, x) && Over(t.ackedDeleted, t.incidents, t.uploads[x].id)
      ensures Duplicated(t.uploads[x].id) in t.incidents
    {
      assert Carrier(s.uploads, s.jobs, x);
      if t.uploads[x].id == s.uploads[m].id && how != Copied { assert Carrier(s.uploads, s.jobs, m); }
    }
  }

  lemma UploadAckedLate(cfg: Config, s: State, m: MsgId, how: Settlement)
    requires m in s.jobs && m in s.uploads && s.jobs[m] == Acking(how)
    requires UploadsOk(s.uploads, s.rows, s.born, s.uploaders)
    requires NoLateUploader(s.uploaders, s.ackedDeleted, s.incidents)
    ensures var t := UploadAcked(s, m, s.uploads[m].id, how);
      NoLateUploader(t.uploaders, t.ackedDeleted, t.incidents)
  {
    hide AllDeclared, Plan, FullMap, OriginalKeyFor, AllKeys, PlanKeys;
  }

  lemma UploadAckedCovered(cfg: Config, s: State, m: MsgId, how: Settlement)
    requires m in s.jobs && m in s.uploads && s.jobs[m] == Acking(how)
    requires Covered(cfg, s)
    ensures Covered(cfg, UploadAcked(s, m, s.uploads[m].id, how))
  {
    hide AllDeclared, Plan, FullMap, OriginalKeyFor, Genuine, RenderThumbnail, ThumbKeys, RowClaims, DeleterClaims,
      MessageClaims, AllKeys, PlanKeys;
    var t := UploadAcked(s, m, s.uploads[m].id, how);
    forall k | k in t.objects && k.Avatar?() && k.id in t.rows
      ensures Claimed(cfg, t, k) || Excused(t.incidents, k)
    {
      if JobClaims(cfg, s.uploads, s.jobs, k) {
        var x :| x in s.jobs && x in s.uploads && k in UploadedKeys(cfg, s.uploads[x].id, s.jobs[x]);
        assert x in t.jobs && x in t.uploads && k in UploadedKeys(cfg, t.uploads[x].id, t.jobs[x]);
      }
    }
  }

  lemma UploadAckedKeeps(cfg: Config, s: State, m: MsgId, how: Settlement)
    requires Inv(cfg, s)
    requires m in s.jobs && m in s.uploads && s.jobs[m] == Acking(how)
    ensures Inv(cfg, UploadAcked(s, m, s.uploads[m].id, how))
  {
    hide Inv, Sat, BornOk, RowsOk, UploadersOk, EarlyOk, DeletersOk, AnnouncedOk, UploadsOk, JobsOk, DeletesOk,
      ObjectsOk, NoEarlyThumbnails, OriginalsOk, Rowless, Covered, AllAttended, SingleCarrier, WorkingOk, RowsStored,
      JobsStored, OverOk, NoLateUploader, RecordsOk, ThumbsOk, StaleOk, StaleStored, QueuesOk, AloneOk, OverlapsOk;
    Clauses(cfg, s);
    UploadAckedRecords(cfg, s, m, how);
    UploadAckedIncidents(cfg, s, m, how);
    UploadAckedContents(cfg, s, m, how);
    UploadAckedMail(cfg, s, m, how);
    UploadAckedProgress(cfg, s, m, how);
    UploadAckedCarriers(cfg, s, m, how);
    UploadAckedWorking(cfg, s, m, how);
    UploadAckedOver(cfg, s, m, how);
    UploadAckedLate(cfg, s, m, how);
    UploadAckedCovered(cfg, s, m, how);
    FromClauses(cfg, UploadAcked(s, m, s.uploads[m].id, how));
  }

  lemma JobDiedProgress(cfg: Config, s: State, m: MsgId)
    requires m in s.jobs && m in s.uploads
    requires UploadersOk(s.uploaders, s.rows, s.born, s.incidents) && JobsOk(cfg, s.jobs, s.uploads, s.born)
    requires WorkingOk(s.jobs, s.uploads, s.rows, s.incidents)
    requires RowsStored(cfg, s.rows, s.objects, s.announced, s.incidents)
    requires NoLateUploader(s.uploaders, s.ackedDeleted, s.incidents) && ThumbsOk(s.rows, s.incidents)
    requires StaleStored(cfg, s.objects, s.incidents)
    ensures var t := JobDied(s, m, JobCrashNotes(s.uploads[m].id, s.jobs[m]));
      && UploadersOk(t.uploaders, t.rows, t.born, t.incidents) && StaleStored(cfg, t.objects, t.incidents)
      && WorkingOk(t.jobs, t.uploads, t.rows, t.incidents)
      && NoLateUploader(t.uploaders, t.ackedDeleted, t.incidents) && ThumbsOk(t.rows, t.incidents)
      && RowsStored(cfg, t.rows, t.objects, t.announced, t.incidents)
  {
    hide AllDeclared, Plan, FullMap, OriginalKeyFor;
  }

  lemma JobDiedMail(cfg: Config, s: State, m: MsgId)
    requires m in s.jobs && m in s.uploads
    requires OriginalsOk(s.objects, s.rows, s.announced, s.incidents)
    requires Rowless(s.objects, s.rows, s.uploaders, s.born, s.incidents)
    requires JobsStored(cfg, s.jobs, s.uploads, s.objects, s.announced, s.incidents)
    requires RecordsOk(s.born, s.ackedDeleted, s.incidents) && StaleOk(s.rows, s.deletes, s.announced, s.incidents)
    requires OverlapsOk(s.incidents)
    ensures var t := JobDied(s, m, JobCrashNotes(s.uploads[m].id, s.jobs[m]));
      && RecordsOk(t.born, t.ackedDeleted, t.incidents) && StaleOk(t.rows, t.deletes, t.announced, t.incidents)
      && OriginalsOk(t.objects, t.rows, t.announced, t.incidents)
      && Rowless(t.objects, t.rows, t.uploaders, t.born, t.incidents) && OverlapsOk(t.incidents)
      && JobsStored(cfg, t.jobs, t.uploads, t.objects, t.announced, t.incidents)
  {
    hide AllDeclared, Plan, FullMap, OriginalKeyFor;
  }

  lemma JobDiedAttended(cfg: Config, s: State, m: MsgId)
    requires m in s.jobs && m in s.uploads
    requires UploadsOk(s.uploads, s.rows, s.born, s.uploaders) && JobsOk(cfg, s.jobs, s.uploads, s.born)
    requires AllAttended(s.rows, s.uploaders, s.uploads, s.jobs, s.ackedDeleted, s.incidents)
    requires AloneOk(s.uploads, s.jobs, s.incidents)
    ensures var t := JobDied(s, m, JobCrashNotes(s.uploads[m].id, s.jobs[m]));
      && UploadsOk(t.uploads, t.rows, t.born, t.uploaders)
      && AllAttended(t.rows, t.uploaders, t.uploads, t.jobs, t.ackedDeleted, t.incidents)
      && AloneOk(t.uploads, t.jobs, t.incidents)
  {
    hide AllDeclared, Plan, FullMap, OriginalKeyFor, AllKeys;
    var t := JobDied(s, m, JobCrashNotes(s.uploads[m].id, s.jobs[m]));
    forall x | x in t.rows
      ensures Attended(x, t.rows[x], t.uploaders, t.uploads, t.jobs, t.ackedDeleted, t.incidents)
    {
      if Carried(s.uploads, s.jobs, x) {
        var w :| w in s.uploads && Waiting(s.uploads, s.jobs, w, x);
        assert w in t.uploads && Waiting(t.uploads, t.jobs, w, x);
      }
    }
  }

  lemma JobDiedJobs(cfg: Config, s: State, m: MsgId)
    requires m in s.jobs && m in s.uploads
    requires JobsOk(cfg, s.jobs, s.uploads, s.born) && OverOk(s.uploads, s.jobs, s.ackedDeleted, s.incidents)
    ensures var t := JobDied(s, m, JobCrashNotes(s.uploads[m].id, s.jobs[m]));
      && JobsOk(cfg, t.jobs, t.uploads, t.born) && OverOk(t.uploads, t.jobs, t.ackedDeleted, t.incidents)
  {
    hide AllDeclared, Plan, FullMap, OriginalKeyFor, AllKeys;
  }

  lemma JobDiedCarriers(cfg: Config, s: State, m: MsgId)
    requires m in s.jobs && m in s.uploads
    requires JobsOk(cfg, s.jobs, s.uploads, s.born) && SingleCarrier(s.uploads, s.jobs, s.incidents)
    requires QueuesOk(cfg, s.jobs, s.cleaners, s.incidents)
    ensures var t := JobDied(s, m, JobCrashNotes(s.uploads[m].id, s.jobs[m]));
      && SingleCarrier(t.uploads, t.jobs, t.incidents) && QueuesOk(cfg, t.jobs, t.cleaners, t.incidents)
  {
    hide AllDeclared, Plan, FullMap, OriginalKeyFor, AllKeys, PlanKeys;
  }

  lemma JobDiedCovered(cfg: Config, s: State, m: MsgId)
    requires m in s.jobs && m in s.uploads
    requires UploadsOk(s.uploads, s.rows, s.born, s.uploaders) && JobsOk(cfg, s.jobs, s.uploads, s.born)
    requires Covered(cfg, s)
    ensures Covered(cfg, JobDied(s, m, JobCrashNotes(s.uploads[m].id, s.jobs[m])))
  {
    hide AllDeclared, Plan, FullMap, OriginalKeyFor, Genuine, RenderThumbnail, ThumbKeys, RowClaims, DeleterClaims,
      MessageClaims, AllKeys;
    var t := JobDied(s, m, JobCrashNotes(s.uploads[m].id, s.jobs[m]));
    forall k | k in t.objects && k.Avatar?() && k.id in t.rows
      ensures Claimed(cfg, t, k) || Excused(t.incidents, k)
    {
      if JobClaims(cfg, s.uploads, s.jobs, k) {
        var x :| x in s.jobs && x in s.uploads && k in UploadedKeys(cfg, s.uploads[x].id, s.jobs[x]);
        if x == m {
          assert k.id == s.uploads[m].id;
        } else {
          assert x in t.jobs && x in t.uploads && k in UploadedKeys(cfg, t.uploads[x].id, t.jobs[x]);
        }
      }
    }
  }

  lemma JobDiedKeeps(cfg: Config, s: State, m: MsgId)
    requires Inv(cfg, s)
    requires m in s.jobs && m in s.uploads
    ensures Inv(cfg, JobDied(s, m, JobCrashNotes(s.uploads[m].id, s.jobs[m])))
  {
    hide Inv, Sat, BornOk, RowsOk, UploadersOk, EarlyOk, DeletersOk, AnnouncedOk, UploadsOk, JobsOk, DeletesOk,
      ObjectsOk, NoEarlyThumbnails, OriginalsOk, Rowless, Covered, AllAttended, SingleCarrier, WorkingOk, RowsStored,
      JobsStored, OverOk, NoLateUploader, RecordsOk, ThumbsOk, StaleOk, StaleStored, QueuesOk, AloneOk, OverlapsOk;
    Clauses(cfg, s);
    JobDiedProgress(cfg, s, m);
    JobDiedMail(cfg, s, m);
    JobDiedAttended(cfg, s, m);
    JobDiedJobs(cfg, s, m);
    JobDiedCarriers(cfg, s, m);
    JobDiedCovered(cfg, s, m);
    FromClauses(cfg, JobDied(s, m, JobCrashNotes(s.uploads[m].id, s.jobs[m])));
  }

  lemma UploadRedeliveredProgress(cfg: Config, s: State, m: MsgId, newId: MsgId)
    requires m in s.jobs && m in s.uploads && newId !in s.uploads
    requires UploadersOk(s.uploaders, s.rows, s.born, s.incidents)
    requires UploadsOk(s.uploads, s.rows, s.born, s.uploaders) && JobsOk(cfg, s.jobs, s.uploads, s.born)
    requires WorkingOk(s.jobs, s.uploads, s.rows, s.incidents)
    requires RowsStored(cfg, s.rows, s.objects, s.announced, s.incidents)
    requires StaleStored(cfg, s.objects, s.incidents) && QueuesOk(cfg, s.jobs, s.cleaners, s.incidents)
    requires OverlapsOk(s.incidents)
    ensures var t := UploadRedelivered(s, m, newId);
      && UploadersOk(t.uploaders, t.rows, t.born, t.incidents) && UploadsOk(t.uploads, t.rows, t.born, t.uploaders)
      && StaleStored(cfg, t.objects, t.incidents) && WorkingOk(t.jobs, t.uploads, t.rows, t.incidents)
      && QueuesOk(cfg, t.jobs, t.cleaners, t.incidents) && OverlapsOk(t.incidents)
      && RowsStored(cfg, t.rows, t.objects, t.announced, t.incidents)
  {
    hide AllDeclared, Plan, FullMap, OriginalKeyFor;
  }

  lemma UploadRedeliveredMail(cfg: Config, s: State, m: MsgId, newId: MsgId)
    requires m in s.jobs && m in s.uploads && newId !in s.uploads
    requires OriginalsOk(s.objects, s.rows, s.announced, s.incidents)
    requires Rowless(s.objects, s.rows, s.uploaders, s.born, s.incidents)
    requires RecordsOk(s.born, s.ackedDeleted, s.incidents) && ThumbsOk(s.rows, s.incidents)
    requires StaleOk(s.rows, s.deletes, s.announced, s.incidents)
    ensures var t := UploadRedelivered(s, m, newId);
      && RecordsOk(t.born, t.ackedDeleted, t.incidents) && StaleOk(t.rows, t.deletes, t.announced, t.incidents)
      && OriginalsOk(t.objects, t.rows, t.announced, t.incidents)
      && Rowless(t.objects, t.rows, t.uploaders, t.born, t.incidents) && ThumbsOk(t.rows, t.incidents)
  {
    hide AllDeclared, Plan, FullMap, OriginalKeyFor;
  }

  lemma UploadRedeliveredAttended(cfg: Config, s: State, m: MsgId, newId: MsgId)
    requires m in s.jobs && m in s.uploads && newId !in s.uploads
    requires JobsOk(cfg, s.jobs, s.uploads, s.born)
    requires AllAttended(s.rows, s.uploaders, s.uploads, s.jobs, s.ackedDeleted, s.incidents)
    requires NoLateUploader(s.uploaders, s.ackedDeleted, s.incidents)
    ensures var t := UploadRedelivered(s, m, newId);
      && JobsOk(cfg, t.jobs, t.uploads, t.born)
      && AllAttended(t.rows, t.uploaders, t.uploads, t.jobs, t.ackedDeleted, t.incidents)
      && NoLateUploader(t.uploaders, t.ackedDeleted, t.incidents)
  {
    hide AllDeclared, Plan, FullMap, OriginalKeyFor, AllKeys;
    var t := UploadRedelivered(s, m, newId);
    forall x | x in t.rows
      ensures Attended(x, t.rows[x], t.uploaders, t.uploads, t.jobs, t.ackedDeleted, t.incidents)
    {
      if Carried(s.uploads, s.jobs, x) {
        var w :| w in s.uploads && Waiting(s.uploads, s.jobs, w, x);
        assert w in t.uploads && Waiting(t.uploads, t.jobs, w, x);
      }
    }
  }

  lemma UploadRedeliveredCarriers(cfg: Config, s: State, m: MsgId, newId: MsgId)
    requires m in s.jobs && m in s.uploads && newId !in s.uploads
    requires JobsOk(cfg, s.jobs, s.uploads, s.born) && SingleCarrier(s.uploads, s.jobs, s.incidents)
    requires JobsStored(cfg, s.jobs, s.uploads, s.objects, s.announced, s.incidents)
    requires OverOk(s.uploads, s.jobs, s.ackedDeleted, s.incidents) && AloneOk(s.uploads, s.jobs, s.incidents)
    ensures var t := UploadRedelivered(s, m, newId);
      && SingleCarrier(t.uploads, t.jobs, t.incidents) && AloneOk(t.uploads, t.jobs, t.incidents)
      && OverOk(t.uploads, t.jobs, t.ackedDeleted, t.incidents)
      && JobsStored(cfg, t.jobs, t.uploads, t.objects, t.announced, t.incidents)
  {
    hide AllDeclared, Plan, FullMap, OriginalKeyFor, AllKeys;
  }

  lemma UploadRedeliveredCovered(cfg: Config, s: State, m: MsgId, newId: MsgId)
    requires m in s.jobs && m in s.uploads && newId !in s.uploads
    requires JobsOk(cfg, s.jobs, s.uploads, s.born) && Covered(cfg, s)
    ensures Covered(cfg, UploadRedelivered(s, m, newId))
  {
    hide AllDeclared, Plan, FullMap, OriginalKeyFor, Genuine, RenderThumbnail, ThumbKeys, RowClaims, DeleterClaims,
      MessageClaims, AllKeys, PlanKeys;
    var t := UploadRedelivered(s, m, newId);
    forall k | k in t.objects && k.Avatar?() && k.id in t.rows
      ensures Claimed(cfg, t, k) || Excused(t.incidents, k)
    {
      if JobClaims(cfg, s.uploads, s.jobs, k) {
        var x :| x in s.jobs && x in s.uploads && k in UploadedKeys(cfg, s.uploads[x].id, s.jobs[x]);
        assert x in t.jobs && x in t.uploads && k in UploadedKeys(cfg, t.uploads[x].id, t.jobs[x]);
      }
    }
  }

  lemma UploadRedeliveredKeeps(cfg: Config, s: State, m: MsgId, newId: MsgId)
    requires Inv(cfg, s)
    requires m in s.jobs && m in s.uploads && newId !in s.uploads
    ensures Inv(cfg, UploadRedelivered(s, m, newId))
  {
    hide Inv, Sat, BornOk, RowsOk, UploadersOk, EarlyOk, DeletersOk, AnnouncedOk, UploadsOk, JobsOk, DeletesOk,
      ObjectsOk, NoEarlyThumbnails, OriginalsOk, Rowless, Covered, AllAttended, SingleCarrier, WorkingOk, RowsStored,
      JobsStored, OverOk, NoLateUploader, RecordsOk, ThumbsOk, StaleOk, StaleStored, QueuesOk, AloneOk, OverlapsOk;
    Clauses(cfg, s);
    UploadRedeliveredProgress(cfg, s, m, newId);
    UploadRedeliveredMail(cfg, s, m, newId);
    UploadRedeliveredAttended(cfg, s, m, newId);
    UploadRedeliveredCarriers(cfg, s, m, newId);
    UploadRedeliveredCovered(cfg, s, m, newId);
    FromClauses(cfg, UploadRedelivered(s, m, newId));
  }

  lemma UploadExpiredProgress(cfg: Config, s: State, m: MsgId)
    requires m in s.uploads && s.uploads[m].place.Retry?
    requires UploadsOk(s.uploads, s.rows, s.born, s.uploaders) && JobsOk(cfg, s.jobs, s.uploads, s.born)
    requires WorkingOk(s.jobs, s.uploads, s.rows, s.incidents)
    requires JobsStored(cfg, s.jobs, s.uploads, s.objects, s.announced, s.incidents)
    requires OverOk(s.uploads, s.jobs, s.ackedDeleted, s.incidents)
    ensures var t := UploadExpired(s, m);
      && UploadsOk(t.uploads, t.rows, t.born, t.uploaders) && WorkingOk(t.jobs, t.uploads, t.rows, t.incidents)
      && OverOk(t.uploads, t.jobs, t.ackedDeleted, t.incidents)
      && JobsStored(cfg, t.jobs, t.uploads, t.objects, t.announced, t.incidents)
  {
    hide AllDeclared, Plan, FullMap, OriginalKeyFor, AllKeys;
  }

  lemma UploadExpiredMail(cfg: Config, s: State, m: MsgId)
    requires m in s.uploads && s.uploads[m].place.Retry?
    requires JobsOk(cfg, s.jobs, s.uploads, s.born) && SingleCarrier(s.uploads, s.jobs, s.incidents)
    ensures var t := UploadExpired(s, m);
      && JobsOk(cfg, t.jobs, t.uploads, t.born) && SingleCarrier(t.uploads, t.jobs, t.incidents)
  {
    hide AllDeclared, Plan, FullMap, OriginalKeyFor, AllKeys;
  }

  lemma UploadExpiredAttended(cfg: Config, s: State, m: MsgId)
    requires m in s.uploads && s.uploads[m].place.Retry?
    requires JobsOk(cfg, s.jobs, s.uploads, s.born)
    requires AllAttended(s.rows, s.uploaders, s.uploads, s.jobs, s.ackedDeleted, s.incidents)
    requires AloneOk(s.uploads, s.jobs, s.incidents)
    ensures var t := UploadExpired(s, m);
      && AllAttended(t.rows, t.uploaders, t.uploads, t.jobs, t.ackedDeleted, t.incidents)
      && AloneOk(t.uploads, t.jobs, t.incidents)
  {
    hide AllDeclared, Plan, FullMap, OriginalKeyFor, AllKeys, PlanKeys;
    var t := UploadExpired(s, m);
    forall x | x in t.rows
      ensures Attended(x, t.rows[x], t.uploaders, t.uploads, t.jobs, t.ackedDeleted, t.incidents)
    {
      if Carried(s.uploads, s.jobs, x) {
        var w :| w in s.uploads && Waiting(s.uploads, s.jobs, w, x);
        assert w in t.uploads && Waiting(t.uploads, t.jobs, w, x);
      }
    }
  }

  lemma UploadExpiredCovered(cfg: Config, s: State, m: MsgId)
    requires m in s.uploads && s.uploads[m].place.Retry?
    requires Covered(cfg, s)
    ensures Covered(cfg, UploadExpired(s, m))
  {
    hide AllDeclared, Plan, FullMap, OriginalKeyFor, Genuine, RenderThumbnail, ThumbKeys, RowClaims, DeleterClaims,
      MessageClaims, Excused, AllKeys, PlanKeys;
    var t := UploadExpired(s, m);
    forall k | k in t.objects && k.Avatar?() && k.id in t.rows
      ensures Claimed(cfg, t, k) || Excused(t.incidents, k)
    {
      if JobClaims(cfg, s.uploads, s.jobs, k) {
        var x :| x in s.jobs && x in s.uploads && k in UploadedKeys(cfg, s.uploads[x].id, s.jobs[x]);
        assert x in t.jobs && x in t.uploads && k in UploadedKeys(cfg, t.uploads[x].id, t.jobs[x]);
      }
    }
  }

  lemma UploadExpiredKeeps(cfg: Config, s: State, m: MsgId)
    requires Inv(cfg, s)
    requires m in s.uploads && s.uploads[m].place.Retry?
    ensures Inv(cfg, UploadExpired(s, m))
  {
    hide Inv, Sat, BornOk, RowsOk, UploadersOk, EarlyOk, DeletersOk, AnnouncedOk, UploadsOk, JobsOk, DeletesOk,
      ObjectsOk, NoEarlyThumbnails, OriginalsOk, Rowless, Covered, AllAttended, SingleCarrier, WorkingOk, RowsStored,
      JobsStored, OverOk, NoLateUploader, RecordsOk, ThumbsOk, StaleOk, StaleStored, QueuesOk, AloneOk, OverlapsOk;
    Clauses(cfg, s);
    UploadExpiredProgress(cfg, s, m);
    UploadExpiredMail(cfg, s, m);
    UploadExpiredAttended(cfg, s, m);
    UploadExpiredCovered(cfg, s, m);
    FromClauses(cfg, UploadExpired(s, m));
  }
}
