/** Every event keeps the invariant, so it holds in every reachable state. */
module Preservation {
  import opened Keys
  import opened Catalogs
  import opened Avatars
  import opened Routing
  import opened Lifecycle
  import opened Invariants
  import opened UploadSteps
  import opened DeleteSteps
  import opened JobSteps
  import opened UploadMailSteps
  import opened CleanSteps

  lemma UploaderFacts(cfg: Config, s: State, id: Id)
    requires Inv(cfg, s)
    requires id in s.uploaders
    ensures id in s.born
    ensures s.uploaders[id] == Inserting ==> id !in s.rows
    ensures s.uploaders[id] == Undoing ==> id in s.rows
  {
    assert Sat(UploadersClause, cfg, s);
  }

  lemma DeleterFacts(cfg: Config, s: State, h: nat)
    requires Inv(cfg, s)
    requires h in s.deleters && s.deleters[h].pc == Restoring && s.deleters[h].id in s.rows
    ensures s.rows[s.deleters[h].id].deleted
  {
    assert Sat(DeletersClause, cfg, s);
  }

  lemma JobFacts(cfg: Config, s: State, m: MsgId)
    requires Inv(cfg, s)
    requires m in s.jobs && m in s.uploads
    ensures s.uploads[m].id in s.born && JobOk(cfg, s.jobs[m], s.uploads[m].id, s.born[s.uploads[m].id])
  {
    hide JobOk;
    assert Sat(UploadsClause, cfg, s);
    assert Sat(JobsClause, cfg, s);
  }

  lemma CleanerFacts(cfg: Config, s: State, m: MsgId)
    requires Inv(cfg, s)
    requires m in s.cleaners && m in s.deletes && s.cleaners[m].Cleaning?
    ensures s.cleaners[m].todo <= s.deletes[m].keys
  {
    assert Sat(DeletesClause, cfg, s);
  }

  lemma UploadStepKeeps(cfg: Config, s: State, id: Id, ok: bool, newId: MsgId)
    requires Inv(cfg, s)
    requires id in s.uploaders && id in s.born
    ensures Inv(cfg, UploadStep(s, id, ok, newId))
  {
    hide Inv, OriginalPut, UploaderGone, RowInserted, UploaderAt, UploadPublished, RowUndone, OriginalRemoved;
    UploaderFacts(cfg, s, id);
    match s.uploaders[id]
    case Putting =>
      if ok { OriginalPutKeeps(cfg, s, id); } else { UploaderGoneKeeps(cfg, s, id, {}); }
    case Inserting =>
      if ok { RowInsertedKeeps(cfg, s, id); } else { UploaderAtKeeps(cfg, s, id, Removing, {}); }
    case Publishing =>
      if !ok {
        UploaderAtKeeps(cfg, s, id, Undoing, {});
      } else if newId !in s.uploads {
        UploadPublishedKeeps(cfg, s, id, newId);
      }
    case Undoing =>
      if ok { RowUndoneKeeps(cfg, s, id); } else { UploaderAtKeeps(cfg, s, id, Removing, {DeleteHardFailed(id)}); }
    case Removing =>
      if ok {
        OriginalRemovedKeeps(cfg, s, id);
      } else {
        UploaderGoneKeeps(cfg, s, id, {RemoveFailed(s.born[id].key)});
      }
  }

  lemma DeleteStepKeeps(cfg: Config, s: State, h: nat, ok: bool, newId: MsgId)
    requires Inv(cfg, s)
    requires h in s.deleters
    ensures Inv(cfg, DeleteStep(s, h, ok, newId))
  {
    hide Inv, SoftDeleted, DeleterGone, DeleterAt, DeleteAnnounced, RowRestored, AllKeys;
    var d := s.deleters[h];
    if d.pc == Restoring && d.id in s.rows { DeleterFacts(cfg, s, h); }
    match d.pc
    case SoftDeleting =>
      if ok && d.id in s.rows && !s.rows[d.id].deleted {
        SoftDeletedKeeps(cfg, s, h);
      } else {
        DeleterGoneKeeps(cfg, s, h, {});
      }
    case Announcing =>
      if !ok {
        PublishRefusedKeeps(cfg, s, h);
      } else if newId !in s.deletes {
        DeleteAnnouncedKeeps(cfg, s, h, newId);
      }
    case Restoring =>
      if ok && d.id in s.rows && s.rows[d.id].deleted {
        RowRestoredKeeps(cfg, s, h);
      } else {
        DeleterGoneKeeps(cfg, s, h, if ok then {} else {RestoreFailed(d.id)});
      }
  }

  lemma JobReadKeeps(cfg: Config, s: State, m: MsgId, ok: bool)
    requires Inv(cfg, s)
    requires m in s.jobs && m in s.uploads && s.jobs[m] == Reading
    ensures Inv(cfg, JobRead(s, m, s.uploads[m].id, ok))
  {
    hide Inv, JobAt, Plan, PlanKeys;
    var id := s.uploads[m].id;
    JobFacts(cfg, s, m);
    if !ok {
      JobAtKeeps(cfg, s, m, Requeueing);
    } else if id !in s.rows {
      JobAtKeeps(cfg, s, m, Acking(Finished));
    } else if s.rows[id].deleted {
      JobAtKeeps(cfg, s, m, Acking(Dropped));
    } else if s.rows[id].status == Completed {
      JobAtKeeps(cfg, s, m, Acking(Finished));
    } else {
      JobAtKeeps(cfg, s, m, Loading);
    }
  }

  /** The job reads the original the row was born with, so it decodes that. */
  lemma JobLoadsOriginal(cfg: Config, s: State, m: MsgId)
    requires Inv(cfg, s)
    requires m in s.jobs && m in s.uploads && s.uploads[m].key in s.objects
    ensures s.uploads[m].id in s.born && s.objects[s.uploads[m].key] == s.born[s.uploads[m].id].body
  {
    assert Sat(UploadsClause, cfg, s);
    assert Sat(BornClause, cfg, s);
    assert Sat(ObjectsClause, cfg, s);
  }

  lemma JobLoadKeeps(cfg: Config, s: State, m: MsgId, ok: bool)
    requires Inv(cfg, s)
    requires m in s.jobs && m in s.uploads && s.jobs[m] == Loading
    ensures Inv(cfg, JobLoad(cfg, s, m, s.uploads[m].key, ok))
  {
    hide Inv, JobAt, Plan;
    var key := s.uploads[m].key;
    JobFacts(cfg, s, m);
    if !ok || key !in s.objects {
      JobAtKeeps(cfg, s, m, RollingBack({}));
    } else {
      JobLoadsOriginal(cfg, s, m);
      match cfg.codec.decode(s.objects[key])
      case None => JobAtKeeps(cfg, s, m, RollingBack({}));
      case Some(img) => JobAtKeeps(cfg, s, m, Filling(0, img));
    }
  }

  lemma JobFillKeeps(cfg: Config, s: State, m: MsgId, ok: bool, pick: ObjectKey, newId: MsgId)
    requires Inv(cfg, s)
    requires m in s.jobs && m in s.uploads && s.jobs[m].Filling?
    ensures Inv(cfg, JobStep(cfg, s, m, ok, pick, newId))
  {
    hide Inv, JobAt, ThumbnailPut, RowCompleted, Plan;
    var id := s.uploads[m].id;
    JobFacts(cfg, s, m);
    var Filling(n, img) := s.jobs[m];
    if n < |ThePlan(cfg)| {
      match NextThumbnail(cfg, n, img)
      case None => JobAtKeeps(cfg, s, m, RollingBack(PlanKeys(ThePlan(cfg), id, n)));
      case Some(data) =>
        if ok {
          ThumbnailPutKeeps(cfg, s, m, data, n, img);
        } else {
          JobAtKeeps(cfg, s, m, RollingBack(PlanKeys(ThePlan(cfg), id, n)));
        }
    } else if ok && id in s.rows && !s.rows[id].deleted {
      RowCompletedKeeps(cfg, s, m, img);
    } else {
      JobAtKeeps(cfg, s, m, RollingBack(PlanKeys(ThePlan(cfg), id, |ThePlan(cfg)|)));
    }
  }

  lemma JobEndKeeps(cfg: Config, s: State, m: MsgId, ok: bool, pick: ObjectKey, newId: MsgId)
    requires Inv(cfg, s)
    requires m in s.jobs && m in s.uploads
    requires s.jobs[m].RollingBack? || s.jobs[m].MarkingFailed? || s.jobs[m].Requeueing? || s.jobs[m].Acking?
    ensures Inv(cfg, JobStep(cfg, s, m, ok, pick, newId))
  {
    hide Inv, JobAt, ThumbnailRemoved, ThumbnailLeft, RowFailed, UploadRequeued, UploadAcked, Plan, PlanKeys;
    var msg := s.uploads[m];
    JobFacts(cfg, s, m);
    match s.jobs[m]
    case RollingBack(todo) =>
      if todo == {} {
        JobAtKeeps(cfg, s, m, MarkingFailed);
      } else if pick in todo {
        if ok { ThumbnailRemovedKeeps(cfg, s, m, todo, pick); } else { ThumbnailLeftKeeps(cfg, s, m, todo, pick); }
      }
    case MarkingFailed =>
      if ok && msg.id in s.rows && !s.rows[msg.id].deleted {
        RowFailedKeeps(cfg, s, m);
      } else {
        JobAtKeeps(cfg, s, m, Requeueing);
      }
    case Requeueing =>
      var stop := NextStop(cfg.uploadDelays, msg.count);
      if !ok {
        JobAtKeeps(cfg, s, m, Acking(Refused(PublishFailed)));
      } else if stop == MissingQueue {
        JobAtKeeps(cfg, s, m, Acking(Refused(QueueMissing)));
      } else if newId !in s.uploads {
        UploadRequeuedKeeps(cfg, s, m, UploadForward(msg, stop), newId);
      }
    case Acking(how) => UploadAckedKeeps(cfg, s, m, how);
  }

  lemma CleanStepKeeps(cfg: Config, s: State, m: MsgId, ok: bool, pick: ObjectKey, newId: MsgId)
    requires Inv(cfg, s)
    requires m in s.cleaners && m in s.deletes
    ensures Inv(cfg, CleanStep(cfg, s, m, ok, pick, newId))
  {
    hide Inv, CleanerAt, KeyCleaned, DeleteForwarded, DeleteSettled;
    var msg := s.deletes[m];
    if s.cleaners[m].Cleaning? { CleanerFacts(cfg, s, m); }
    match s.cleaners[m]
    case Cleaning(todo, failed) =>
      if todo == {} {
        CleanerAtKeeps(cfg, s, m, if failed then Forwarding else Settling(Finished));
      } else if pick in todo {
        if ok {
          KeyCleanedKeeps(cfg, s, m, todo, failed, pick);
        } else {
          CleanerAtKeeps(cfg, s, m, Cleaning(todo - {pick}, true));
        }
      }
    case Forwarding =>
      var stop := NextStop(cfg.deleteDelays, msg.count);
      if !ok {
        CleanerAtKeeps(cfg, s, m, Settling(Refused(PublishFailed)));
      } else if stop == MissingQueue {
        CleanerAtKeeps(cfg, s, m, Settling(Refused(QueueMissing)));
      } else if newId !in s.deletes {
        DeleteForwardedKeeps(cfg, s, m, DeleteForward(msg, stop), newId);
      }
    case Settling(how) => DeleteSettledKeeps(cfg, s, m, how);
  }

  lemma JobStepKeeps(cfg: Config, s: State, m: MsgId, ok: bool, pick: ObjectKey, newId: MsgId)
    requires Inv(cfg, s)
    requires m in s.jobs && m in s.uploads
    ensures Inv(cfg, JobStep(cfg, s, m, ok, pick, newId))
  {
    hide Inv, JobRead, JobLoad, JobPut, ThePlan, PlanKeys, RowCompleted, RowFailed;
    match s.jobs[m]
    case Reading => JobReadKeeps(cfg, s, m, ok);
    case Loading => JobLoadKeeps(cfg, s, m, ok);
    case Filling(_, _) => JobFillKeeps(cfg, s, m, ok, pick, newId);
    case _ => JobEndKeeps(cfg, s, m, ok, pick, newId);
  }

  /** Deliveries, crashes of workers, redeliveries, expiries, and cleanup. */
  lemma MailKeeps(cfg: Config, s: State, e: Event)
    requires Inv(cfg, s)
    requires e.CrashJob? || e.RedeliverUpload? || e.ExpireUpload? || e.DeliverDelete? || e.CleanCall? || e.CrashClean?
      || e.RedeliverDelete? || e.ExpireDelete?
    ensures Inv(cfg, Apply(cfg, s, e))
  {
    hide Inv, UploadStep, DeleteStep, CleanStep, OriginalKeyFor, JobStep, UploadDelivered, JobDied, JobCrashNotes,
      UploadRedelivered, UploadExpired, DeleteDelivered, CleanerDied, DeleteRedelivered, DeleteExpired, DeleterGone,
      UploaderGone, Conceived;
    match e
    case CrashJob(m) =>
      if m in s.jobs && m in s.uploads { JobDiedKeeps(cfg, s, m); }
    case RedeliverUpload(m, newId) =>
      if m in s.jobs && m in s.uploads && newId !in s.uploads { UploadRedeliveredKeeps(cfg, s, m, newId); }
    case ExpireUpload(m) =>
      if m in s.uploads && s.uploads[m].place.Retry? { UploadExpiredKeeps(cfg, s, m); }
    case DeliverDelete(m) =>
      if m in s.deletes && s.deletes[m].place == Main { DeleteDeliveredKeeps(cfg, s, m); }
    case CleanCall(m, ok, pick, newId) =>
      if m in s.cleaners && m in s.deletes { CleanStepKeeps(cfg, s, m, ok, pick, newId); }
    case CrashClean(m) =>
      if m in s.cleaners && m in s.deletes { CleanerDiedKeeps(cfg, s, m); }
    case RedeliverDelete(m, newId) =>
      if m in s.cleaners && m in s.deletes && newId !in s.deletes { DeleteRedeliveredKeeps(cfg, s, m, newId); }
    case ExpireDelete(m) =>
      if m in s.deletes && s.deletes[m].place.Retry? { DeleteExpiredKeeps(cfg, s, m); }
  }

  lemma ApplyKeeps(cfg: Config, s: State, e: Event)
    requires Inv(cfg, s)
    ensures Inv(cfg, Apply(cfg, s, e))
  {
    hide Inv, UploadStep, DeleteStep, CleanStep, OriginalKeyFor, JobStep, UploadDelivered, JobDied, JobCrashNotes,
      UploadRedelivered, UploadExpired, DeleteDelivered, CleanerDied, DeleteRedelivered, DeleteExpired, DeleterGone,
      UploaderGone, Conceived;
    match e
    case StartUpload(id, user, mime, body, created) =>
      if id !in s.born { ConceivedKeeps(cfg, s, id, Birth(user, mime, OriginalKeyFor(user, id, mime), body, created)); }
    case UploadCall(id, ok, newId) =>
      if id in s.uploaders && id in s.born { UploadStepKeeps(cfg, s, id, ok, newId); }
    case CrashUpload(id) =>
      if id in s.uploaders { CrashUploadKeeps(cfg, s, id); }
    case StartDelete(h, id, actor) =>
      if h !in s.deleters && MayDelete(s, id, actor) { DeleteStartedKeeps(cfg, s, h, id); }
    case DeleteCall(h, ok, newId) =>
      if h in s.deleters { DeleteStepKeeps(cfg, s, h, ok, newId); }
    case CrashDelete(h) =>
      if h in s.deleters {
        DeleterGoneKeeps(cfg, s, h, if s.deleters[h].pc == SoftDeleting then {} else {DeleteCrashed(s.deleters[h].id)});
      }
    case DeliverUpload(m) =>
      if m in s.uploads && s.uploads[m].place == Main { UploadDeliveredKeeps(cfg, s, m); }
    case JobCall(m, ok, pick, newId) =>
      if m in s.jobs && m in s.uploads { JobStepKeeps(cfg, s, m, ok, pick, newId); }
    case _ => MailKeeps(cfg, s, e);
  }

  lemma CrashUploadKeeps(cfg: Config, s: State, id: Id)
    requires Inv(cfg, s)
    requires id in s.uploaders
    ensures Inv(cfg, UploaderGone(s, id, if s.uploaders[id] == Putting then {} else {UploadCrashed(id)}))
  {
    hide Inv, UploaderGone;
    UploaderFacts(cfg, s, id);
    UploaderGoneKeeps(cfg, s, id, if s.uploaders[id] == Putting then {} else {UploadCrashed(id)});
  }

  /** Whatever happens from a good state leads to good states. */
  lemma {:induction false} RunKeeps(cfg: Config, s: State, es: seq<Event>)
    requires Inv(cfg, s)
    ensures Inv(cfg, Run(cfg, s, es))
    decreases |es|
  {
    hide Inv;
    if es == [] {
    } else {
      RunKeeps(cfg, s, es[..|es| - 1]);
      ApplyKeeps(cfg, Run(cfg, s, es[..|es| - 1]), es[|es| - 1]);
    }
  }
}
