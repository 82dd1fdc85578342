/** Avatars do not interfere: a call made for one avatar changes no object of another. */
module Isolation {
  import opened Keys
  import opened Catalogs
  import opened Rendering
  import opened Avatars
  import opened Lifecycle
  import opened Invariants
  import opened Preservation
  import opened Reachability

  predicate SameAt(s: State, t: State, k: ObjectKey) {
    (k in t.objects <==> k in s.objects) && (k in s.objects ==> t.objects[k] == s.objects[k])
  }

  // ---------- what each call may touch ----------

  lemma OriginalCalls(s: State, id: Id, b: Birth, k: ObjectKey)
    requires k != b.key
    ensures SameAt(s, OriginalPut(s, id, b), k)
    ensures SameAt(s, OriginalRemoved(s, id, b), k)
  {
  }

  lemma UploadTouchesItsOriginal(s: State, id: Id, ok: bool, newId: MsgId, k: ObjectKey)
    requires id in s.uploaders && id in s.born && k != s.born[id].key
    ensures SameAt(s, UploadStep(s, id, ok, newId), k)
  {
    hide OriginalPut, RowInserted, UploadPublished, RowUndone, OriginalRemoved, UploaderAt, UploaderGone;
    OriginalCalls(s, id, s.born[id], k);
  }

  lemma PutCall(s: State, m: MsgId, k: ObjectKey)
    ensures forall x, data, n, img :: SameAt(s, ThumbnailPut(s, m, x, data, n, img), k) || x == k
    ensures forall data, n, img :: k in ThumbnailPut(s, m, k, data, n, img).objects
  {
  }

  lemma RemoveCall(s: State, m: MsgId, k: ObjectKey)
    ensures forall todo, x :: SameAt(s, ThumbnailRemoved(s, m, todo, x), k) || x == k
    ensures forall todo :: k !in ThumbnailRemoved(s, m, todo, k).objects
  {
  }

  /** While a job puts thumbnails, an object stays as it is or is one of those it puts. */
  lemma JobFills(cfg: Config, s: State, m: MsgId, ok: bool, pick: ObjectKey, newId: MsgId, k: ObjectKey)
    requires m in s.jobs && m in s.uploads && s.jobs[m].Filling?
    ensures var t := JobStep(cfg, s, m, ok, pick, newId);
      SameAt(s, t, k) || (k.Thumbnail? && k.id == s.uploads[m].id && k in t.objects)
  {
    hide ThePlan, PlanKeys, UploadForward, JobRead, JobLoad, JobAt, ThumbnailPut, ThumbnailRemoved, ThumbnailLeft,
      UploadRequeued, UploadAcked, RowFailed, RowCompleted;
    PutCall(s, m, k);
  }

  /** While it rolls back, an object goes away exactly when its removal works, and else stays as it is. */
  lemma JobRollsBack(cfg: Config, s: State, m: MsgId, ok: bool, pick: ObjectKey, newId: MsgId, k: ObjectKey)
    requires m in s.jobs && m in s.uploads && s.jobs[m].RollingBack?
    ensures var t := JobStep(cfg, s, m, ok, pick, newId);
      if ok && pick == k && k in s.jobs[m].todo then k !in t.objects else SameAt(s, t, k)
  {
    hide ThePlan, PlanKeys, UploadForward, JobRead, JobLoad, JobPut, JobAt, ThumbnailPut, ThumbnailRemoved,
      ThumbnailLeft, UploadRequeued, UploadAcked, RowFailed, RowCompleted;
    RemoveCall(s, m, k);
  }

  lemma JobOnlyReads(cfg: Config, s: State, m: MsgId, ok: bool, pick: ObjectKey, newId: MsgId)
    requires m in s.jobs && m in s.uploads && !s.jobs[m].Filling? && !s.jobs[m].RollingBack?
    ensures JobStep(cfg, s, m, ok, pick, newId).objects == s.objects
  {
    hide ThePlan, PlanKeys, UploadForward, JobRead, JobLoad, JobPut, JobAt, ThumbnailPut, ThumbnailRemoved,
      ThumbnailLeft, UploadRequeued, UploadAcked, RowFailed, RowCompleted;
  }

  lemma JobTouchesItsThumbnails(cfg: Config, s: State, m: MsgId, ok: bool, pick: ObjectKey, newId: MsgId, k: ObjectKey)
    requires m in s.jobs && m in s.uploads
    requires k.Thumbnail? ==> k.id != s.uploads[m].id
    requires s.jobs[m].RollingBack? ==> k !in s.jobs[m].todo
    ensures SameAt(s, JobStep(cfg, s, m, ok, pick, newId), k)
  {
    hide JobStep;
    match s.jobs[m]
    case Filling(_, _) => JobFills(cfg, s, m, ok, pick, newId, k);
    case RollingBack(_) => JobRollsBack(cfg, s, m, ok, pick, newId, k);
    case _ => JobOnlyReads(cfg, s, m, ok, pick, newId);
  }

  lemma KeyCleanedCall(s: State, m: MsgId, k: ObjectKey)
    ensures forall todo, failed, x | x != k :: SameAt(s, KeyCleaned(s, m, todo, failed, x), k)
  {
  }

  lemma CleanupTouchesItsKeys(cfg: Config, s: State, m: MsgId, ok: bool, pick: ObjectKey, newId: MsgId, k: ObjectKey)
    requires m in s.cleaners && m in s.deletes
    requires s.cleaners[m].Cleaning? ==> k !in s.cleaners[m].todo
    ensures SameAt(s, CleanStep(cfg, s, m, ok, pick, newId), k)
  {
    hide CleanerAt, KeyCleaned, DeleteForwarded, DeleteSettled, DeleteForward;
    KeyCleanedCall(s, m, k);
  }

  // ---------- whose keys these are ----------

  lemma OriginalIsItsOwn(cfg: Config, s: State, id: Id)
    requires Inv(cfg, s) && id in s.born
    ensures s.born[id].key.Original? && s.born[id].key.id == id
  {
    hide SanitizePathSegment;
    assert Sat(BornClause, cfg, s);
  }

  lemma RollbackIsItsOwn(cfg: Config, s: State, m: MsgId, k: ObjectKey)
    requires Inv(cfg, s) && m in s.jobs && m in s.uploads && s.jobs[m].RollingBack? && k in s.jobs[m].todo
    ensures k.Avatar?() && k.id == s.uploads[m].id
  {
    hide Inv, Plan;
    JobFacts(cfg, s, m);
  }

  lemma CleanupIsItsOwn(cfg: Config, s: State, m: MsgId, k: ObjectKey)
    requires Inv(cfg, s) && m in s.cleaners && m in s.deletes && s.cleaners[m].Cleaning? && k in s.cleaners[m].todo
    ensures k.Avatar?() && k.id == s.deletes[m].id
  {
    hide KeysOf, OriginalKeyFor, Plan;
    assert Sat(DeletesClause, cfg, s);
    assert Sat(BornClause, cfg, s);
    KeysNameTheirAvatar(cfg, s.deletes[m].id, s.born[s.deletes[m].id], k);
  }

  /** The call is made for this avatar. */
  predicate ActsFor(s: State, e: Event, id: Id) {
    match e
    case UploadCall(x, _, _) => x == id
    case JobCall(m, _, _, _) => m in s.uploads && s.uploads[m].id == id
    case CleanCall(m, _, _, _) => m in s.deletes && s.deletes[m].id == id
    case _ => false
  }

  predicate ActorCall(e: Event) {
    e.UploadCall? || e.DeleteCall? || e.JobCall? || e.CleanCall?
  }

  lemma OthersTouchNothing(cfg: Config, s: State, e: Event)
    requires !ActorCall(e) || e.DeleteCall?
    ensures Apply(cfg, s, e).objects == s.objects
  {
    hide UploadStep, DeleteStep, JobStep, CleanStep, AllKeys, OriginalKeyFor, MayDelete, Conceived, DeleterAt,
      DeleterGone, UploaderGone, UploadDelivered, JobDied, JobCrashNotes, UploadRedelivered, UploadExpired,
      DeleteDelivered, CleanerDied, DeleteRedelivered, DeleteExpired;
  }

  /**
   In every reachable state, no put, rollback, cleanup or other event made for one avatar changes an object of
   another, nor a placeholder.
   */
  lemma ForeignObjectsUntouched(cfg: Config, s: State, e: Event, k: ObjectKey)
    requires Reachable(cfg, s)
    requires k.Avatar?() ==> !ActsFor(s, e, k.id)
    ensures SameAt(s, Apply(cfg, s, e), k)
  {
    hide Reachable, Inv, Apply, SameAt, ActsFor;
    ReachableInv(cfg, s);
    if ActorCall(e) {
      CallTouchesItsOwn(cfg, s, e, k);
    } else {
      SameAtSame(s, Apply(cfg, s, e), k);
      OthersTouchNothing(cfg, s, e);
    }
  }

  lemma SameAtSame(s: State, t: State, k: ObjectKey)
    ensures s.objects == t.objects ==> SameAt(s, t, k)
  {
  }

  lemma CallTouchesItsOwn(cfg: Config, s: State, e: Event, k: ObjectKey)
    requires Inv(cfg, s) && ActorCall(e)
    requires k.Avatar?() ==> !ActsFor(s, e, k.id)
    ensures SameAt(s, Apply(cfg, s, e), k)
  {
    hide Inv, UploadStep, DeleteStep, JobStep, CleanStep, OriginalKeyFor, AllKeys, MayDelete, Conceived, DeleterAt,
      DeleterGone, UploaderGone, UploadDelivered, JobDied, JobCrashNotes, UploadRedelivered, UploadExpired,
      DeleteDelivered, CleanerDied, DeleteRedelivered, DeleteExpired;
    match e
    case UploadCall(id, ok, newId) =>
      if id in s.uploaders && id in s.born {
        OriginalIsItsOwn(cfg, s, id);
        UploadTouchesItsOriginal(s, id, ok, newId, k);
      }
    case DeleteCall(_, _, _) => OthersTouchNothing(cfg, s, e);
    case JobCall(m, ok, pick, newId) =>
      if m in s.jobs && m in s.uploads {
        if s.jobs[m].RollingBack? && k in s.jobs[m].todo { RollbackIsItsOwn(cfg, s, m, k); }
        JobTouchesItsThumbnails(cfg, s, m, ok, pick, newId, k);
      }
    case CleanCall(m, ok, pick, newId) =>
      if m in s.cleaners && m in s.deletes {
        if s.cleaners[m].Cleaning? && k in s.cleaners[m].todo { CleanupIsItsOwn(cfg, s, m, k); }
        CleanupTouchesItsKeys(cfg, s, m, ok, pick, newId, k);
      }
  }

  // ---------- down to the strings ----------

  ghost predicate Uuids(born: map<Id, Birth>) {
    forall id | id in born :: UuidText(id)
  }

  /** The keys of objects, and those a job, a handler or a message may put or remove. */
  ghost predicate InPlay(cfg: Config, s: State, k: ObjectKey) {
    || k in s.objects
    || (exists m | m in s.uploads :: s.uploads[m].key == k)
    || (exists m | m in s.jobs && m in s.uploads :: k in UploadedKeys(cfg, s.uploads[m].id, s.jobs[m]))
    || (exists h | h in s.deleters :: Holds(s.deleters[h], s.rows, k) || k in s.deleters[h].keys)
    || (exists m | m in s.deletes :: k in s.deletes[m].keys)
  }

  /** A key of an avatar that was uploaded: its original, or a thumbnail of it. */
  predicate OwnKey(born: map<Id, Birth>, k: ObjectKey) {
    k.Avatar?() && k.id in born && (k.Original? ==> k == born[k.id].key)
  }

  lemma OwnKeysWellFormed(cfg: Config, s: State, k: ObjectKey)
    requires Inv(cfg, s) && Uuids(s.born) && OwnKey(s.born, k)
    ensures WellFormed(k)
  {
    hide SanitizePathSegment;
    assert Sat(BornClause, cfg, s);
    if k.Original? { SegmentAt(s.born[k.id].user); }
  }

  lemma KeysOfAreOwn(cfg: Config, s: State, id: Id, k: ObjectKey)
    requires Inv(cfg, s) && id in s.born && k in KeysOf(cfg, id, s.born[id])
    ensures OwnKey(s.born, k)
  {
    hide Plan, SanitizePathSegment;
    assert Sat(BornClause, cfg, s);
  }

  lemma ObjectsAreOwn(cfg: Config, s: State, k: ObjectKey)
    requires Inv(cfg, s) && k in s.objects
    ensures OwnKey(s.born, k)
  {
    hide RenderThumbnail;
    assert Sat(ObjectsClause, cfg, s);
  }

  lemma MessageKeysAreOwn(cfg: Config, s: State, m: MsgId, k: ObjectKey)
    requires Inv(cfg, s)
    requires (m in s.uploads && s.uploads[m].key == k) || (m in s.deletes && k in s.deletes[m].keys)
    ensures OwnKey(s.born, k)
  {
    hide KeysOf, OriginalKeyFor;
    assert Sat(UploadsClause, cfg, s);
    assert Sat(DeletesClause, cfg, s);
    assert Sat(BornClause, cfg, s);
    if m in s.deletes && k in s.deletes[m].keys { KeysOfAreOwn(cfg, s, s.deletes[m].id, k); }
  }

  lemma JobKeysAreOwn(cfg: Config, s: State, m: MsgId, k: ObjectKey)
    requires Inv(cfg, s) && m in s.jobs && m in s.uploads && k in UploadedKeys(cfg, s.uploads[m].id, s.jobs[m])
    ensures OwnKey(s.born, k)
  {
    hide Inv, Plan;
    JobFacts(cfg, s, m);
  }

  lemma DeleterKeysAreOwn(cfg: Config, s: State, h: nat, k: ObjectKey)
    requires Inv(cfg, s) && h in s.deleters && (Holds(s.deleters[h], s.rows, k) || k in s.deleters[h].keys)
    ensures OwnKey(s.born, k)
  {
    hide Plan, FullMap, OriginalKeyFor, PlanKeys, ThumbKeys, SanitizePathSegment;
    var d := s.deleters[h];
    assert Sat(DeletersClause, cfg, s);
    assert Sat(RowsClause, cfg, s);
    FullMapKeys(cfg.catalog.sizes, d.id);
    NoThumbKeys();
    assert k in KeysOf(cfg, d.id, s.born[d.id]);
    KeysOfAreOwn(cfg, s, d.id, k);
  }

  /**
   If avatar ids are UUIDs, every key a reachable state has in the store, or in the hands of a job, a handler or a
   message, is one whose string spells it out.
   */
  lemma KeysInPlayWellFormed(cfg: Config, s: State, k: ObjectKey)
    requires Reachable(cfg, s) && Uuids(s.born) && InPlay(cfg, s, k)
    ensures k.Avatar?() && WellFormed(k)
  {
    hide Reachable, Inv, UploadedKeys, Holds, WellFormed, OwnKey;
    ReachableInv(cfg, s);
    if k in s.objects {
      ObjectsAreOwn(cfg, s, k);
    } else if m :| m in s.uploads && s.uploads[m].key == k {
      MessageKeysAreOwn(cfg, s, m, k);
    } else if m :| m in s.deletes && k in s.deletes[m].keys {
      MessageKeysAreOwn(cfg, s, m, k);
    } else if m :| m in s.jobs && m in s.uploads && k in UploadedKeys(cfg, s.uploads[m].id, s.jobs[m]) {
      JobKeysAreOwn(cfg, s, m, k);
    } else {
      var h :| h in s.deleters && (Holds(s.deleters[h], s.rows, k) || k in s.deleters[h].keys);
      DeleterKeysAreOwn(cfg, s, h, k);
    }
    OwnKeysWellFormed(cfg, s, k);
    OwnKeysAreAvatars(s, k);
  }

  lemma OwnKeysAreAvatars(s: State, k: ObjectKey)
    requires OwnKey(s.born, k)
    ensures k.Avatar?()
  {
  }

  /**
   Isolation on the strings the store is addressed by: when an event changes what is stored under a string, that
   string is the key of an object of the avatar the event is made for, and of no other avatar and no placeholder.
   */
  lemma ForeignStringsUntouched(cfg: Config, s: State, e: Event, k: ObjectKey, other: ObjectKey)
    requires Reachable(cfg, s) && Uuids(Apply(cfg, s, e).born)
    requires !SameAt(s, Apply(cfg, s, e), k)
    requires WellFormed(other) && KeyString(other) == KeyString(k)
    ensures k.Avatar?() && ActsFor(s, e, k.id)
    ensures other.Avatar?() && other.id == k.id
  {
    hide Reachable, Inv, Apply, ActsFor, WellFormed, KeyString, OwnKey;
    var t := Apply(cfg, s, e);
    ReachableInv(cfg, s);
    ApplyKeeps(cfg, s, e);
    if !k.Avatar?() || !ActsFor(s, e, k.id) { ForeignObjectsUntouched(cfg, s, e, k); }
    SameBirths(cfg, s, e);
    if k in t.objects {
      ObjectsAreOwn(cfg, t, k);
      OwnKeysWellFormed(cfg, t, k);
    } else {
      ObjectsAreOwn(cfg, s, k);
      OwnKeysWellFormed(cfg, s, k);
    }
    AvatarsNeverShareObjects(k, other);
  }

  lemma SameBirths(cfg: Config, s: State, e: Event)
    requires Uuids(Apply(cfg, s, e).born)
    ensures Uuids(s.born)
  {
    hide UploadStep, DeleteStep, JobStep, CleanStep, OriginalKeyFor, AllKeys;
    assert forall id | id in s.born :: id in Apply(cfg, s, e).born;
  }
}
