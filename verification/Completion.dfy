/** Completion over whole histories: it lasts for as long as no two jobs of the avatar are at work at once. */
module Completion {
  import opened Wrappers
  import opened Keys
  import opened Catalogs
  import opened Avatars
  import opened Lifecycle
  import opened Invariants
  import opened Reachability
  import opened Guarantees

  /** At most one thumbnail job is at work on the avatar. */
  ghost predicate Alone(s: State, id: Id) {
    forall m, m' | m in s.jobs && m' in s.jobs && m in s.uploads && m' in s.uploads
      && s.uploads[m].id == id && s.uploads[m'].id == id && AtWork(s.jobs[m]) && AtWork(s.jobs[m']) :: m == m'
  }

  /** However s came about, there was a state with two jobs at work on the avatar. */
  ghost predicate OnceOverlapped(cfg: Config, s: State, id: Id) {
    forall ss: seq<State> | Chain(cfg, EMPTY, ss) && ss[|ss| - 1] == s ::
      exists i | 0 <= i < |ss| :: !Alone(ss[i], id)
  }

  lemma NotAloneIsRecorded(cfg: Config, s: State, id: Id)
    requires Inv(cfg, s) && !Alone(s, id)
    ensures Overlapped(id) in s.incidents
  {
    assert Sat(AloneClause, cfg, s);
  }

  lemma RecordedIsDuplicated(cfg: Config, s: State, id: Id)
    requires Inv(cfg, s) && Overlapped(id) in s.incidents
    ensures Duplicated(id) in s.incidents
  {
    assert Sat(OverlapsClause, cfg, s);
  }

  /** Neither an overlap nor a stale key list is recorded. */
  predicate Quiet(before: set<Incident>, after: set<Incident>) {
    forall i: Incident | i in after && (i.Overlapped? || i.StaleKeyList?) :: i in before
  }

  predicate NoNewOverlap(before: set<Incident>, after: set<Incident>) {
    forall i: Incident | i in after && i.Overlapped? :: i in before
  }

  lemma UploaderMovesNote(s: State, id: Id, pc: UploadPc)
    ensures forall noted :: UploaderAt(s, id, pc, noted).incidents == s.incidents + noted
    ensures forall noted :: UploaderGone(s, id, noted).incidents == s.incidents + noted
  {
  }

  lemma UploadIsQuiet(s: State, id: Id, ok: bool, newId: MsgId)
    requires id in s.uploaders && id in s.born
    ensures Quiet(s.incidents, UploadStep(s, id, ok, newId).incidents)
  {
    hide OriginalPut, UploaderGone, RowInserted, UploaderAt, UploadPublished, RowUndone, OriginalRemoved;
    UploaderMovesNote(s, id, Removing);
    UploaderMovesNote(s, id, Undoing);
  }

  lemma DeleteCallsNote(s: State, h: nat, d: Deleter, newId: MsgId)
    ensures NoNewOverlap(s.incidents, DeleteAnnounced(s, h, d, newId).incidents)
    ensures d.id in s.rows ==> NoNewOverlap(s.incidents, RowRestored(s, h, d).incidents)
  {
    hide AllKeys;
  }

  lemma DeleterEndNotes(s: State, h: nat)
    ensures forall noted :: DeleterGone(s, h, noted).incidents == s.incidents + noted
  {
  }

  lemma DeleteNotesNoOverlap(s: State, h: nat, ok: bool, newId: MsgId)
    requires h in s.deleters
    ensures NoNewOverlap(s.incidents, DeleteStep(s, h, ok, newId).incidents)
  {
    hide DeleterGone, DeleterAt, DeleteAnnounced, SoftDeleted, RowRestored, AllKeys;
    DeleteCallsNote(s, h, s.deleters[h], newId);
    DeleterEndNotes(s, h);
  }

  lemma JobEndsNote(s: State, m: MsgId, id: Id)
    ensures forall todo, k :: Quiet(s.incidents, ThumbnailLeft(s, m, todo, k).incidents)
    ensures forall how :: Quiet(s.incidents, UploadAcked(s, m, id, how).incidents)
  {
  }

  lemma JobIsQuiet(cfg: Config, s: State, m: MsgId, ok: bool, pick: ObjectKey, newId: MsgId)
    requires m in s.jobs && m in s.uploads
    ensures Quiet(s.incidents, JobStep(cfg, s, m, ok, pick, newId).incidents)
  {
    hide ThePlan, PlanKeys, UploadForward, JobAt, ThumbnailPut, ThumbnailRemoved, ThumbnailLeft, UploadRequeued,
      UploadAcked, RowFailed, RowCompleted;
    JobEndsNote(s, m, s.uploads[m].id);
  }

  lemma CleanEndsNote(s: State, m: MsgId, id: Id)
    ensures forall how :: Quiet(s.incidents, DeleteSettled(s, m, id, how).incidents)
  {
  }

  lemma CleanIsQuiet(cfg: Config, s: State, m: MsgId, ok: bool, pick: ObjectKey, newId: MsgId)
    requires m in s.cleaners && m in s.deletes
    ensures Quiet(s.incidents, CleanStep(cfg, s, m, ok, pick, newId).incidents)
  {
    hide DeleteForward, CleanerAt, KeyCleaned, DeleteForwarded, DeleteSettled;
    CleanEndsNote(s, m, s.deletes[m].id);
  }

  lemma MailIsQuiet(s: State, m: MsgId, newId: MsgId)
    ensures m in s.uploads && m in s.jobs ==>
      Quiet(s.incidents, JobDied(s, m, JobCrashNotes(s.uploads[m].id, s.jobs[m])).incidents)
    ensures m in s.uploads ==> Quiet(s.incidents, UploadRedelivered(s, m, newId).incidents)
  {
  }

  lemma MailEventsAreQuiet(cfg: Config, s: State, e: Event)
    requires e.CrashJob? || e.RedeliverUpload? || e.ExpireUpload? || e.DeliverDelete? || e.CrashClean?
      || e.RedeliverDelete? || e.ExpireDelete?
    ensures Quiet(s.incidents, Apply(cfg, s, e).incidents)
  {
    hide UploadStep, DeleteStep, JobStep, CleanStep, OriginalKeyFor, AllKeys, MayDelete, JobDied, JobCrashNotes,
      UploadDelivered, UploadRedelivered, UploadExpired, DeleteDelivered, CleanerDied, DeleteRedelivered,
      DeleteExpired, DeleterAt, DeleterGone, UploaderGone, Conceived;
    MailIsQuiet(s, e.m, if e.RedeliverUpload? then e.newId else 0);
  }

  lemma OthersAreQuiet(cfg: Config, s: State, e: Event)
    requires !e.DeliverUpload? && !e.DeleteCall?
    ensures Quiet(s.incidents, Apply(cfg, s, e).incidents)
  {
    hide UploadStep, DeleteStep, JobStep, CleanStep, OriginalKeyFor, AllKeys, MayDelete, JobDied, JobCrashNotes,
      UploadDelivered, UploadRedelivered, UploadExpired, DeleteDelivered, CleanerDied, DeleteRedelivered,
      DeleteExpired, DeleterAt, DeleterGone, UploaderGone, Conceived;
    match e
    case StartUpload(_, _, _, _, _) => StartsAreQuiet(cfg, s, e);
    case CrashUpload(_) => StartsAreQuiet(cfg, s, e);
    case StartDelete(_, _, _) => StartsAreQuiet(cfg, s, e);
    case CrashDelete(_) => StartsAreQuiet(cfg, s, e);
    case UploadCall(id, ok, newId) =>
      if id in s.uploaders && id in s.born { UploadIsQuiet(s, id, ok, newId); }
    case JobCall(m, ok, pick, newId) =>
      if m in s.jobs && m in s.uploads { JobIsQuiet(cfg, s, m, ok, pick, newId); }
    case CleanCall(m, ok, pick, newId) =>
      if m in s.cleaners && m in s.deletes { CleanIsQuiet(cfg, s, m, ok, pick, newId); }
    case _ => MailEventsAreQuiet(cfg, s, e);
  }

  lemma StartsAreQuiet(cfg: Config, s: State, e: Event)
    requires e.StartUpload? || e.CrashUpload? || e.StartDelete? || e.CrashDelete?
    ensures Quiet(s.incidents, Apply(cfg, s, e).incidents)
  {
    hide OriginalKeyFor, AllKeys;
  }

  lemma DeliveryOverlaps(cfg: Config, s: State, m: MsgId, id: Id)
    requires Inv(cfg, s) && m in s.uploads && s.uploads[m].place == Main
    ensures var t := UploadDelivered(s, m);
      Overlapped(id) in t.incidents ==> Overlapped(id) in s.incidents || !Alone(t, id)
  {
    assert Sat(JobsClause, cfg, s);
    var t := UploadDelivered(s, m);
    if Overlapped(id) in t.incidents && Overlapped(id) !in s.incidents {
      var m' :| m' in s.jobs && m' in s.uploads && s.uploads[m'].id == id && AtWork(s.jobs[m']);
      assert m' in t.jobs && m' in t.uploads && m in t.jobs && m in t.uploads && AtWork(t.jobs[m])
        && AtWork(t.jobs[m']);
    }
  }

  lemma RecordingMeansOverlap(cfg: Config, s: State, t: State, id: Id)
    requires Inv(cfg, s) && Follows(cfg, s, t)
    ensures Overlapped(id) in t.incidents ==> Overlapped(id) in s.incidents || !Alone(t, id)
  {
    hide Inv, Alone, UploadDelivered, Apply, DeleteStep;
    var e: Event :| t == Apply(cfg, s, e);
    if e.DeliverUpload? {
      DeliveryApplies(cfg, s, e.m);
      if e.m in s.uploads && s.uploads[e.m].place == Main { DeliveryOverlaps(cfg, s, e.m, id); }
    } else if e.DeleteCall? {
      DeleteCallApplies(cfg, s, e.handler, e.ok, e.newId);
      if e.handler in s.deleters { DeleteNotesNoOverlap(s, e.handler, e.ok, e.newId); }
    } else {
      OthersAreQuiet(cfg, s, e);
    }
  }

  lemma DeliveryApplies(cfg: Config, s: State, m: MsgId)
    ensures Apply(cfg, s, DeliverUpload(m))
      == if m in s.uploads && s.uploads[m].place == Main then UploadDelivered(s, m) else s
  {
    hide UploadDelivered;
  }

  lemma DeleteCallApplies(cfg: Config, s: State, h: nat, ok: bool, newId: MsgId)
    ensures Apply(cfg, s, DeleteCall(h, ok, newId)) == if h in s.deleters then DeleteStep(s, h, ok, newId) else s
  {
    hide DeleteStep;
  }

  lemma ChainInv(cfg: Config, ss: seq<State>, j: nat)
    requires Chain(cfg, EMPTY, ss) && j < |ss|
    ensures Chain(cfg, EMPTY, ss[..j + 1]) && Reachable(cfg, ss[j]) && Inv(cfg, ss[j])
  {
    hide Follows, Inv;
    var front := ss[..j + 1];
    forall i | 0 <= i < |front| - 1
      ensures Follows(cfg, front[i], front[i + 1])
    {
      assert Follows(cfg, ss[i], ss[i + 1]);
    }
    assert front[|front| - 1] == ss[j];
    ReachableInv(cfg, ss[j]);
  }

  /** The record of an overlap says just what it is meant to say of the history. */
  lemma {:induction false} OverlappedIff(cfg: Config, ss: seq<State>, id: Id)
    requires Chain(cfg, EMPTY, ss)
    ensures Overlapped(id) in ss[|ss| - 1].incidents <==> exists i | 0 <= i < |ss| :: !Alone(ss[i], id)
    decreases |ss|
  {
    hide Inv, Apply, Alone, Reachable;
    var n := |ss| - 1;
    ChainInv(cfg, ss, n);
    if !Alone(ss[n], id) { NotAloneIsRecorded(cfg, ss[n], id); }
    if n > 0 {
      var front := ss[..n];
      ChainInv(cfg, ss, n - 1);
      assert front == ss[..n - 1 + 1];
      OverlappedIff(cfg, front, id);
      assert Follows(cfg, ss[n - 1], ss[n - 1 + 1]);
      var e: Event :| ss[n] == Apply(cfg, ss[n - 1], e);
      if Overlapped(id) in ss[n].incidents && Overlapped(id) !in ss[n - 1].incidents {
        RecordingMeansOverlap(cfg, ss[n - 1], ss[n], id);
      }
      if i :| 0 <= i < n && !Alone(ss[i], id) { assert front[i] == ss[i]; }
      if i :| 0 <= i < |front| && !Alone(front[i], id) { assert front[i] == ss[i]; }
    }
  }

  lemma RecordedMeansOnce(cfg: Config, s: State, id: Id)
    requires Overlapped(id) in s.incidents
    ensures OnceOverlapped(cfg, s, id)
  {
    hide Alone;
    forall ss: seq<State> | Chain(cfg, EMPTY, ss) && ss[|ss| - 1] == s
      ensures exists i | 0 <= i < |ss| :: !Alone(ss[i], id)
    {
      OverlappedIff(cfg, ss, id);
    }
  }

  /**
   Completed is absorbing: in every history in which no two jobs are ever at work on the avatar at once, a row that
   is completed in one state is completed with the full key map in every later one, and for as long as no delete
   event is sent every listed thumbnail is in the store. The avatar's message may be delivered any number of times.
   */
  lemma {:induction false} CompletedIsAbsorbing(cfg: Config, ss: seq<State>, i: nat, j: nat, id: Id)
    requires Chain(cfg, EMPTY, ss) && i <= j < |ss|
    requires forall n | 0 <= n <= j :: Alone(ss[n], id)
    requires id in ss[i].rows && ss[i].rows[id].status == Completed
    ensures id in ss[j].rows && ss[j].rows[id].status == Completed
    ensures ss[j].rows[id].thumbs == Some(FullMap(cfg.catalog.sizes, id))
    ensures id !in ss[j].announced ==> ThumbKeys(ss[j].rows[id].thumbs) <= ss[j].objects.Keys
    decreases j
  {
    hide Apply, Inv, Alone, Reachable, FullMap, ThumbKeys, AllKeys, Plan, PlanKeys;
    ChainInv(cfg, ss, j);
    assert forall n | 0 <= n <= j :: ss[..j + 1][n] == ss[n];
    OverlappedIff(cfg, ss[..j + 1], id);
    if i < j {
      CompletedIsAbsorbing(cfg, ss, i, j - 1, id);
      ChainInv(cfg, ss, j - 1);
      assert Follows(cfg, ss[j - 1], ss[j - 1 + 1]);
      var e: Event :| ss[j] == Apply(cfg, ss[j - 1], e);
      StepKeepsCompletion(cfg, ss[j - 1], e, id);
    }
    CompletedFacts(cfg, ss[j], id);
    FullMapKeys(cfg.catalog.sizes, id);
  }

  /** In particular it lasts when no message of the avatar ever has a second copy. */
  lemma UndisturbedWithoutDuplicates(cfg: Config, ss: seq<State>, n: nat, id: Id)
    requires Chain(cfg, EMPTY, ss) && n < |ss| && Duplicated(id) !in ss[|ss| - 1].incidents
    ensures Alone(ss[n], id)
  {
    hide Inv, Follows, Alone, Reachable;
    if !Alone(ss[n], id) {
      OverlappedIff(cfg, ss, id);
      ChainInv(cfg, ss, |ss| - 1);
      RecordedIsDuplicated(cfg, ss[|ss| - 1], id);
    }
  }
}
