/**
 Where stale key lists come from: a delete event leaves out keys of its row only if a job completed the row between
 the delete handler's read and its soft delete.
 */
module KeyLists {
  import opened Wrappers
  import opened Keys
  import opened Catalogs
  import opened Avatars
  import opened Lifecycle
  import opened Invariants
  import opened Reachability
  import opened Guarantees
  import opened Completion
  import opened Exactness

  /** What a delete handler will list is what its row lists now, if the row is still there. */
  predicate Current(rows: map<Id, Avatar>, d: Deleter) {
    d.id in rows ==> AllKeys(rows[d.id]) == d.keys
  }

  /** A job writes the row's key map for the first time. */
  predicate Completes(before: map<Id, Avatar>, after: map<Id, Avatar>, id: Id) {
    id in before && id in after && before[id].thumbs == None && after[id].thumbs.Some?
  }

  /** A row that is there afterwards was there before, with the same keys. */
  predicate SameKeys(before: map<Id, Avatar>, after: map<Id, Avatar>, id: Id) {
    id in after ==> id in before && AllKeys(after[id]) == AllKeys(before[id])
  }

  predicate OwnEvent(e: Event, h: nat) {
    (e.DeleteCall? || e.CrashDelete? || e.StartDelete?) && e.handler == h
  }

  // ---------- the events of others ----------

  lemma UploadChangesKeys(s: State, id: Id, x: Id)
    requires id in s.born
    ensures id != x ==> SameKeys(s.rows, RowInserted(s, id, s.born[id]).rows, x)
    ensures SameKeys(s.rows, RowUndone(s, id).rows, x)
  {
    hide AllKeys, NewRow;
  }

  lemma NotInserting(cfg: Config, s: State, id: Id, h: nat)
    requires Inv(cfg, s) && id in s.uploaders && h in s.deleters && s.deleters[h].id == id
    ensures s.uploaders[id] != Inserting
  {
    assert Sat(EarlyClause, cfg, s);
  }

  lemma UploadKeepsKeys(cfg: Config, s: State, id: Id, ok: bool, newId: MsgId, h: nat)
    requires Inv(cfg, s) && id in s.uploaders && id in s.born && h in s.deleters
    ensures SameKeys(s.rows, UploadStep(s, id, ok, newId).rows, s.deleters[h].id)
  {
    hide Inv, OriginalPut, UploaderGone, RowInserted, UploaderAt, UploadPublished, RowUndone, OriginalRemoved,
      AllKeys;
    UploadChangesKeys(s, id, s.deleters[h].id);
    if id == s.deleters[h].id { NotInserting(cfg, s, id, h); }
  }

  lemma FlagChangesNoKeys(s: State, g: nat, x: Id)
    requires g in s.deleters && s.deleters[g].id in s.rows
    ensures SameKeys(s.rows, SoftDeleted(s, g, s.deleters[g]).rows, x)
    ensures SameKeys(s.rows, RowRestored(s, g, s.deleters[g]).rows, x)
    ensures SoftDeleted(s, g, s.deleters[g]).deleters == s.deleters[g := s.deleters[g].(pc := Announcing)]
    ensures RowRestored(s, g, s.deleters[g]).deleters == s.deleters - {g}
  {
    hide ThumbKeys;
  }

  lemma AnnouncingEnds(s: State, g: nat, d: Deleter, newId: MsgId)
    ensures DeleteAnnounced(s, g, d, newId).deleters == s.deleters - {g}
  {
    hide AllKeys;
  }

  lemma DeleterGoesOn(s: State, g: nat)
    ensures forall noted :: DeleterGone(s, g, noted).deleters == s.deleters - {g}
    ensures forall d :: DeleterAt(s, g, d).deleters == s.deleters[g := d]
  {
  }

  /** A call of a delete handler changes no keys, and of the handlers only its own, which keeps its list. */
  lemma DeleteKeepsKeys(s: State, g: nat, ok: bool, newId: MsgId, x: Id)
    requires g in s.deleters
    ensures var t := DeleteStep(s, g, ok, newId);
      && SameKeys(s.rows, t.rows, x)
      && t.deleters - {g} == s.deleters - {g} && t.deleters.Keys <= s.deleters.Keys
      && (g in t.deleters ==> t.deleters[g].id == s.deleters[g].id && t.deleters[g].keys == s.deleters[g].keys)
  {
    hide DeleterGone, DeleterAt, DeleteAnnounced, SoftDeleted, RowRestored, AllKeys;
    DeleterGoesOn(s, g);
    AnnouncingEnds(s, g, s.deleters[g], newId);
    if s.deleters[g].id in s.rows { FlagChangesNoKeys(s, g, x); }
  }

  /** What a job may do to the keys of its own live row. */
  lemma JobOnOwnKeys(cfg: Config, s: State, m: MsgId, id: Id)
    requires Inv(cfg, s) && id in s.rows
    ensures SameKeys(s.rows, RowFailed(s, m, id).rows, id)
    ensures forall img :: var t := RowCompleted(cfg, s, m, id, img);
      SameKeys(s.rows, t.rows, id) || Completes(s.rows, t.rows, id)
  {
    hide FullMap, ThumbKeys, Plan;
    assert Sat(RowsClause, cfg, s);
  }

  lemma JobKeepsKeys(cfg: Config, s: State, m: MsgId, ok: bool, pick: ObjectKey, newId: MsgId)
    requires Inv(cfg, s) && m in s.jobs && m in s.uploads && s.uploads[m].id in s.rows
    ensures var t := JobStep(cfg, s, m, ok, pick, newId);
      SameKeys(s.rows, t.rows, s.uploads[m].id) || Completes(s.rows, t.rows, s.uploads[m].id)
  {
    hide Inv, ThePlan, PlanKeys, UploadForward, JobAt, JobRead, JobLoad, JobPut, ThumbnailRemoved, ThumbnailLeft,
      UploadRequeued, UploadAcked, RowFailed, RowCompleted, AllKeys;
    JobOnOwnKeys(cfg, s, m, s.uploads[m].id);
  }

  /** A job changes the keys of a row only by completing it. */
  lemma JobKeepsOrCompletes(cfg: Config, s: State, m: MsgId, ok: bool, pick: ObjectKey, newId: MsgId, x: Id)
    requires Inv(cfg, s) && m in s.jobs && m in s.uploads
    ensures var t := JobStep(cfg, s, m, ok, pick, newId);
      SameKeys(s.rows, t.rows, x) || (Completes(s.rows, t.rows, x) && !s.rows[x].deleted)
  {
    hide Inv, JobStep, AllKeys;
    JobAddsNoRow(cfg, s, m, ok, pick, newId);
    if x in s.rows {
      if s.rows[x].deleted {
        JobLeavesDeletedRow(cfg, s, m, ok, pick, newId, x);
      } else if s.uploads[m].id != x {
        JobLeavesOtherRow(cfg, s, m, ok, pick, newId, x);
      } else {
        JobKeepsKeys(cfg, s, m, ok, pick, newId);
      }
    }
  }

  lemma JobAddsNoRow(cfg: Config, s: State, m: MsgId, ok: bool, pick: ObjectKey, newId: MsgId)
    requires m in s.jobs && m in s.uploads
    ensures JobStep(cfg, s, m, ok, pick, newId).rows.Keys == s.rows.Keys
  {
    hide ThePlan, PlanKeys, UploadForward, JobAt, JobRead, JobLoad, JobPut, ThumbnailRemoved, ThumbnailLeft,
      UploadRequeued, UploadAcked, RowFailed, RowCompleted;
    RowWritesAddNone(cfg, s, m, s.uploads[m].id);
  }

  lemma RowWritesAddNone(cfg: Config, s: State, m: MsgId, id: Id)
    ensures id in s.rows ==> RowFailed(s, m, id).rows.Keys == s.rows.Keys
    ensures id in s.rows ==> forall img :: RowCompleted(cfg, s, m, id, img).rows.Keys == s.rows.Keys
  {
    hide CompletedRow;
  }

  lemma CleanupLeavesDeleters(cfg: Config, s: State, m: MsgId, ok: bool, pick: ObjectKey, newId: MsgId)
    requires m in s.cleaners && m in s.deletes
    ensures CleanStep(cfg, s, m, ok, pick, newId).deleters == s.deleters
  {
    hide DeleteForward, CleanerAt, KeyCleaned, DeleteForwarded, DeleteSettled;
  }

  lemma SameRows(before: map<Id, Avatar>, after: map<Id, Avatar>, id: Id)
    ensures before == after ==> SameKeys(before, after, id)
  {
  }

  lemma OtherEventsOnList(cfg: Config, s: State, e: Event, h: nat)
    requires Inv(cfg, s) && h in s.deleters && !OwnEvent(e, h) && !e.JobCall? && !e.DeleteCall?
    ensures var t := Apply(cfg, s, e);
      h in t.deleters && t.deleters[h] == s.deleters[h] && SameKeys(s.rows, t.rows, s.deleters[h].id)
  {
    hide Inv, UploadStep, DeleteStep, JobStep, CleanStep, OriginalKeyFor, AllKeys, MayDelete, JobDied,
      JobCrashNotes, UploadDelivered, UploadRedelivered, UploadExpired, DeleteDelivered, CleanerDied,
      DeleteRedelivered, DeleteExpired, DeleterAt, DeleterGone, UploaderGone, Conceived, SameKeys;
    SameRows(s.rows, Apply(cfg, s, e).rows, s.deleters[h].id);
    match e
    case StartDelete(g, _, _) => DeleterGoesOn(s, g);
    case CrashDelete(g) => DeleterGoesOn(s, g);
    case UploadCall(id, ok, newId) =>
      if id in s.uploaders && id in s.born { UploadKeepsKeys(cfg, s, id, ok, newId, h); }
    case CleanCall(m, ok, pick, newId) =>
      if m in s.cleaners && m in s.deletes { CleanupLeavesDeleters(cfg, s, m, ok, pick, newId); }
    case _ =>
  }

  /**
   What an event of anybody else does to a delete handler: the handler stays where it is, and the keys of its row stay
   what they are unless a job completes the row while it is live.
   */
  lemma OthersOnList(cfg: Config, s: State, e: Event, h: nat)
    requires Inv(cfg, s) && h in s.deleters && !OwnEvent(e, h)
    ensures var t := Apply(cfg, s, e); var id := s.deleters[h].id;
      && h in t.deleters && t.deleters[h] == s.deleters[h]
      && (SameKeys(s.rows, t.rows, id) || (Completes(s.rows, t.rows, id) && !s.rows[id].deleted))
  {
    hide Inv, Apply, DeleteStep, JobStep, AllKeys;
    if e.JobCall? {
      JobCallApplies(cfg, s, e.m, e.ok, e.pick, e.newId);
      if e.m in s.jobs && e.m in s.uploads {
        JobKeepsOrCompletes(cfg, s, e.m, e.ok, e.pick, e.newId, s.deleters[h].id);
      }
    } else if e.DeleteCall? {
      DeleteCallApplies(cfg, s, e.handler, e.ok, e.newId);
      if e.handler in s.deleters {
        DeleteKeepsKeys(s, e.handler, e.ok, e.newId, s.deleters[h].id);
        assert h in s.deleters - {e.handler};
      }
    } else {
      OtherEventsOnList(cfg, s, e, h);
    }
  }

  lemma PastSoftDelete(cfg: Config, s: State, h: nat)
    requires Inv(cfg, s) && h in s.deleters && s.deleters[h].pc != SoftDeleting
    ensures s.deleters[h].id in s.rows ==> s.rows[s.deleters[h].id].deleted
  {
    assert Sat(DeletersClause, cfg, s);
  }

  /** A list that is current once the row is soft-deleted stays current, whatever anybody else does. */
  lemma CurrentListStays(cfg: Config, s: State, e: Event, h: nat)
    requires Inv(cfg, s) && h in s.deleters && !OwnEvent(e, h)
    requires s.deleters[h].pc != SoftDeleting && Current(s.rows, s.deleters[h])
    ensures var t := Apply(cfg, s, e);
      h in t.deleters && t.deleters[h] == s.deleters[h] && Current(t.rows, t.deleters[h])
  {
    hide Inv, Apply, AllKeys;
    OthersOnList(cfg, s, e, h);
    PastSoftDelete(cfg, s, h);
  }

  // ---------- histories ----------

  /** A job completes the row while the delete handler has read it and not yet soft-deleted it. */
  predicate Races(s: State, t: State, h: nat, id: Id) {
    && h in s.deleters && s.deleters[h].id == id && s.deleters[h].pc == SoftDeleting
    && h in t.deleters && t.deleters[h] == s.deleters[h]
    && Completes(s.rows, t.rows, id)
  }

  ghost predicate RacedHere(s: State, t: State, id: Id) {
    exists h :: Races(s, t, h, id)
  }

  ghost predicate Raced(ss: seq<State>, id: Id) {
    exists c :: 0 <= c < |ss| - 1 && RacedHere(ss[c], ss[c + 1], id)
  }

  /** In the next state the handler, if it has read its row and not yet soft-deleted it, has moved on. */
  ghost predicate NoPause(s: State, t: State, id: Id) {
    forall h | h in s.deleters && s.deleters[h].id == id && s.deleters[h].pc == SoftDeleting ::
      h in t.deleters ==> t.deleters[h] != s.deleters[h]
  }

  /** The read and the soft delete of every delete handler of the avatar are one step. */
  ghost predicate DeletesAtOnce(ss: seq<State>, id: Id) {
    forall c | 0 <= c < |ss| - 1 :: NoPause(ss[c], ss[c + 1], id)
  }

  lemma AtOnceNeverRaces(ss: seq<State>, id: Id)
    requires DeletesAtOnce(ss, id)
    ensures !Raced(ss, id)
  {
    hide Completes;
    forall c | 0 <= c < |ss| - 1
      ensures !RacedHere(ss[c], ss[c + 1], id)
    {
      assert NoPause(ss[c], ss[c + 1], id);
    }
  }

  /** A handler that starts lists what its row lists. */
  lemma StartIsCurrent(cfg: Config, s: State, e: Event, h: nat)
    requires h !in s.deleters && h in Apply(cfg, s, e).deleters && e.StartDelete?
    ensures Current(Apply(cfg, s, e).rows, Apply(cfg, s, e).deleters[h])
  {
    hide AllKeys, MayDelete, DeleterAt;
    DeleterGoesOn(s, e.handler);
    assert MayDelete(s, e.id, e.actor) ==> e.id in s.rows by { MayDeleteHasRow(s, e.id, e.actor); }
  }

  lemma MayDeleteHasRow(s: State, id: Id, actor: string)
    ensures MayDelete(s, id, actor) ==> id in s.rows
  {
  }

  lemma OwnEventOnList(cfg: Config, s: State, e: Event, h: nat)
    requires OwnEvent(e, h) && h in s.deleters && h in Apply(cfg, s, e).deleters
    ensures var t := Apply(cfg, s, e); var d := s.deleters[h];
      t.deleters[h].id == d.id && t.deleters[h].keys == d.keys && SameKeys(s.rows, t.rows, d.id)
  {
    hide AllKeys, MayDelete, DeleteStep, DeleterGone;
    match e
    case DeleteCall(_, ok, newId) => DeleteKeepsKeys(s, h, ok, newId, s.deleters[h].id);
    case CrashDelete(_) => DeleterGoesOn(s, h);
    case StartDelete(_, _, _) =>
  }

  /** New handlers appear by StartDelete only. */
  lemma OthersStartNone(cfg: Config, s: State, e: Event, h: nat)
    requires Inv(cfg, s) && h !in s.deleters && h in Apply(cfg, s, e).deleters
    ensures e.StartDelete?
  {
    hide Inv, UploadStep, DeleteStep, JobStep, CleanStep, OriginalKeyFor, AllKeys, MayDelete, JobDied,
      JobCrashNotes, UploadDelivered, UploadRedelivered, UploadExpired, DeleteDelivered, CleanerDied,
      DeleteRedelivered, DeleteExpired, DeleterAt, DeleterGone, UploaderGone, Conceived;
    match e
    case DeleteCall(g, ok, newId) =>
      if g in s.deleters { DeleteKeepsKeys(s, g, ok, newId, s.deleters[g].id); }
    case CleanCall(m, ok, pick, newId) =>
      if m in s.cleaners && m in s.deletes { CleanupLeavesDeleters(cfg, s, m, ok, pick, newId); }
    case CrashDelete(g) => DeleterGoesOn(s, g);
    case _ =>
  }

  /** One step of a handler's list: a list that was current and is not any more has been raced. */
  lemma ListStep(cfg: Config, s: State, t: State, h: nat)
    requires Inv(cfg, s) && Follows(cfg, s, t) && h in t.deleters && !Current(t.rows, t.deleters[h])
    ensures h in s.deleters && s.deleters[h].id == t.deleters[h].id
    ensures Current(s.rows, s.deleters[h]) ==> Races(s, t, h, t.deleters[h].id)
  {
    hide Inv, Apply, AllKeys;
    var e: Event :| t == Apply(cfg, s, e);
    if h !in s.deleters {
      OthersStartNone(cfg, s, e, h);
      StartIsCurrent(cfg, s, e, h);
    } else if OwnEvent(e, h) {
      OwnEventOnList(cfg, s, e, h);
    } else {
      OthersOnList(cfg, s, e, h);
      if s.deleters[h].pc != SoftDeleting { PastSoftDelete(cfg, s, h); }
    }
  }

  /** The handler's row was completed while the handler had read it and not yet soft-deleted it. */
  ghost predicate RacedBy(ss: seq<State>, h: nat, id: Id) {
    exists c :: 0 <= c < |ss| - 1 && Races(ss[c], ss[c + 1], h, id) && HeldSince(ss, h, c)
  }

  /** The handler has been at work ever since. */
  ghost predicate HeldSince(ss: seq<State>, h: nat, c: int) {
    forall i | 0 <= i < |ss| && c <= i :: h in ss[i].deleters
  }

  lemma HeldLonger(ss: seq<State>, n: nat, h: nat, id: Id)
    requires n + 1 == |ss| && RacedBy(ss[..n], h, id) && h in ss[n].deleters
    ensures RacedBy(ss, h, id)
  {
    hide Races;
    var c :| 0 <= c < n - 1 && Races(ss[..n][c], ss[..n][c + 1], h, id) && HeldSince(ss[..n], h, c);
    assert ss[..n][c] == ss[c] && ss[..n][c + 1] == ss[c + 1];
    forall i | 0 <= i < |ss| && c <= i
      ensures h in ss[i].deleters
    {
      if i < n { assert ss[..n][i] == ss[i]; }
    }
  }

  lemma {:induction false} StaleListWasRaced(cfg: Config, ss: seq<State>, h: nat)
    requires Chain(cfg, EMPTY, ss)
    requires h in ss[|ss| - 1].deleters && !Current(ss[|ss| - 1].rows, ss[|ss| - 1].deleters[h])
    ensures RacedBy(ss, h, ss[|ss| - 1].deleters[h].id)
    decreases |ss|
  {
    hide Inv, Follows, Reachable, Current, Races;
    var n := |ss| - 1;
    if n > 0 {
      var id := ss[n].deleters[h].id;
      ChainInv(cfg, ss, n - 1);
      var front := ss[..n];
      assert front == ss[..n - 1 + 1];
      assert Follows(cfg, ss[n - 1], ss[n - 1 + 1]);
      ListStep(cfg, ss[n - 1], ss[n], h);
      if Current(ss[n - 1].rows, ss[n - 1].deleters[h]) {
        assert Races(ss[n - 1], ss[n - 1 + 1], h, id) && HeldSince(ss, h, n - 1);
      } else {
        StaleListWasRaced(cfg, front, h);
        HeldLonger(ss, n, h, id);
      }
    }
  }

  /** A row without a key map is listed in full. */
  lemma ReadBeforeCompletion(cfg: Config, s: State, h: nat)
    requires Inv(cfg, s) && h in s.deleters && s.deleters[h].id in s.rows
    requires s.rows[s.deleters[h].id].thumbs == None
    ensures s.deleters[h].keys == {s.rows[s.deleters[h].id].key}
  {
    hide KeysOf;
    assert Sat(DeletersClause, cfg, s);
    assert Sat(RowsClause, cfg, s);
    NoThumbKeys();
  }

  lemma RaceMakesStale(cfg: Config, s: State, t: State, h: nat, id: Id)
    requires Inv(cfg, s) && Inv(cfg, t) && Races(s, t, h, id) && |ThePlan(cfg)| > 0
    ensures !Current(t.rows, t.deleters[h])
  {
    hide Inv, Plan, FullMap, ThumbKeys;
    ReadBeforeCompletion(cfg, s, h);
    RowKeyMap(cfg, s, id);
    RowKeyMap(cfg, t, id);
    FullMapKeys(cfg.catalog.sizes, id);
    assert PlanKey(cfg, id, 0) in PlanKeys(ThePlan(cfg), id, |ThePlan(cfg)|);
  }

  lemma RowKeyMap(cfg: Config, s: State, id: Id)
    requires Inv(cfg, s) && id in s.rows
    ensures s.rows[id].key.Original?
    ensures s.rows[id].thumbs == None || s.rows[id].thumbs == Some(FullMap(cfg.catalog.sizes, id))
  {
    hide FullMap, SanitizePathSegment;
    assert Sat(RowsClause, cfg, s);
    assert Sat(BornClause, cfg, s);
  }

  lemma StaleStays(cfg: Config, s: State, t: State, h: nat)
    requires Inv(cfg, s) && Follows(cfg, s, t)
    requires h in s.deleters && h in t.deleters
    requires s.deleters[h].id in s.rows ==> !Current(s.rows, s.deleters[h])
    ensures t.deleters[h].id == s.deleters[h].id
    ensures s.deleters[h].id in t.rows ==> !Current(t.rows, t.deleters[h])
  {
    hide Inv, Apply, AllKeys;
    var e: Event :| t == Apply(cfg, s, e);
    if OwnEvent(e, h) {
      OwnEventOnList(cfg, s, e, h);
    } else {
      OthersOnList(cfg, s, e, h);
      if Completes(s.rows, t.rows, s.deleters[h].id) {
        ReadBeforeCompletion(cfg, s, h);
        UncompletedKeys(s.rows[s.deleters[h].id]);
      }
    }
  }

  lemma UncompletedKeys(row: Avatar)
    requires row.thumbs == None
    ensures AllKeys(row) == {row.key}
  {
  }

  lemma {:induction false} RacedListIsStale(cfg: Config, ss: seq<State>, c: nat, h: nat, id: Id)
    requires Chain(cfg, EMPTY, ss) && |ThePlan(cfg)| > 0
    requires c < |ss| - 1 && Races(ss[c], ss[c + 1], h, id) && HeldSince(ss, h, c)
    ensures ss[|ss| - 1].deleters[h].id == id
    ensures id in ss[|ss| - 1].rows ==> !Current(ss[|ss| - 1].rows, ss[|ss| - 1].deleters[h])
    decreases |ss|
  {
    hide Inv, Follows, Reachable, Current, Plan, Races;
    var n := |ss| - 1;
    ChainInv(cfg, ss, n);
    ChainInv(cfg, ss, n - 1);
    if c == n - 1 {
      RaceMakesStale(cfg, ss[c], ss[c + 1], h, id);
      RacedHandler(ss[c], ss[c + 1], h, id);
    } else {
      var front := ss[..n];
      assert front == ss[..n - 1 + 1];
      assert front[c] == ss[c] && front[c + 1] == ss[c + 1];
      assert Follows(cfg, ss[n - 1], ss[n - 1 + 1]);
      RacedListIsStale(cfg, front, c, h, id);
      StaleStays(cfg, ss[n - 1], ss[n], h);
    }
  }

  lemma RacedHandler(s: State, t: State, h: nat, id: Id)
    requires Races(s, t, h, id)
    ensures h in s.deleters && h in t.deleters && t.deleters[h].id == id
  {
    hide Completes;
  }
  /**
   What a delete handler is going to list differs from what its row lists exactly when a job completed the row after
   the handler read it and before it soft-deleted it.
   */
  lemma StaleListIff(cfg: Config, ss: seq<State>, h: nat)
    requires Chain(cfg, EMPTY, ss) && |ThePlan(cfg)| > 0
    requires h in ss[|ss| - 1].deleters && ss[|ss| - 1].deleters[h].id in ss[|ss| - 1].rows
    ensures var s := ss[|ss| - 1]; var d := s.deleters[h];
      AllKeys(s.rows[d.id]) != d.keys <==> RacedBy(ss, h, d.id)
  {
    hide Follows, Plan, Races, AllKeys;
    var s := ss[|ss| - 1];
    var d := s.deleters[h];
    if AllKeys(s.rows[d.id]) != d.keys { StaleListWasRaced(cfg, ss, h); }
    if c :| 0 <= c < |ss| - 1 && Races(ss[c], ss[c + 1], h, d.id) && HeldSince(ss, h, c) {
      RacedListIsStale(cfg, ss, c, h, d.id);
    }
  }

  lemma RacedByIsRaced(ss: seq<State>, h: nat, id: Id)
    requires RacedBy(ss, h, id)
    ensures Raced(ss, id)
  {
    hide Races;
    var c :| 0 <= c < |ss| - 1 && Races(ss[c], ss[c + 1], h, id) && HeldSince(ss, h, c);
    assert RacedHere(ss[c], ss[c + 1], id);
  }

  lemma RacedEarlier(ss: seq<State>, n: nat, id: Id)
    requires n < |ss| && Raced(ss[..n], id)
    ensures Raced(ss, id)
  {
    hide RacedHere;
    var c :| 0 <= c < n - 1 && RacedHere(ss[..n][c], ss[..n][c + 1], id);
    assert ss[..n][c] == ss[c] && ss[..n][c + 1] == ss[c + 1];
  }

  lemma AnnouncementRecords(s: State, h: nat, d: Deleter, newId: MsgId, id: Id)
    ensures StaleKeyList(id) in DeleteAnnounced(s, h, d, newId).incidents ==>
      StaleKeyList(id) in s.incidents || (d.id == id && !Current(s.rows, d))
  {
    hide AllKeys;
  }

  lemma RestoreRecordsNone(s: State, h: nat, d: Deleter)
    requires d.id in s.rows
    ensures Quiet(s.incidents, RowRestored(s, h, d).incidents)
  {
  }

  lemma DeleteCallRecords(s: State, h: nat, ok: bool, newId: MsgId, id: Id)
    requires h in s.deleters
    ensures StaleKeyList(id) in DeleteStep(s, h, ok, newId).incidents ==>
      StaleKeyList(id) in s.incidents || (s.deleters[h].id == id && !Current(s.rows, s.deleters[h]))
  {
    hide DeleterGone, DeleterAt, DeleteAnnounced, SoftDeleted, RowRestored, Current;
    DeleterEndNotes(s, h);
    if s.deleters[h].id in s.rows { RestoreRecordsNone(s, h, s.deleters[h]); }
    if s.deleters[h].pc == Announcing && ok && newId !in s.deletes {
      AnnouncementRecords(s, h, s.deleters[h], newId, id);
    }
  }

  lemma DeliveryRecordsNone(s: State, m: MsgId, id: Id)
    requires m in s.uploads && StaleKeyList(id) in UploadDelivered(s, m).incidents
    ensures StaleKeyList(id) in s.incidents
  {
    hide Busy;
  }

  /** A stale key list is recorded by a handler of the avatar whose list is not current. */
  lemma RecordedByHolder(cfg: Config, s: State, t: State, id: Id) returns (h: nat)
    requires Follows(cfg, s, t) && StaleKeyList(id) in t.incidents && StaleKeyList(id) !in s.incidents
    ensures h in s.deleters && s.deleters[h].id == id && !Current(s.rows, s.deleters[h])
  {
    hide Apply, UploadDelivered, DeleteStep, Current;
    var e: Event :| t == Apply(cfg, s, e);
    if e.DeleteCall? {
      DeleteCallApplies(cfg, s, e.handler, e.ok, e.newId);
      h := e.handler;
      DeleteCallRecords(s, h, e.ok, e.newId, id);
    } else if e.DeliverUpload? {
      DeliveryApplies(cfg, s, e.m);
      if m: MsgId :| m == e.m && m in s.uploads && s.uploads[m].place == Main { DeliveryRecordsNone(s, m, id); }
      assert false;
    } else {
      OthersAreQuiet(cfg, s, e);
      assert false;
    }
  }

  /**
   A delete event leaves out keys of its row only if a job completed that row between the read of the row by a delete
   handler of the avatar and that handler's soft delete.
   */
  lemma {:induction false} StaleKeyListWasRaced(cfg: Config, ss: seq<State>, id: Id)
    requires Chain(cfg, EMPTY, ss) && StaleKeyList(id) in ss[|ss| - 1].incidents
    ensures Raced(ss, id)
    decreases |ss|
  {
    hide Inv, Follows, Reachable, Current, RacedHere;
    var n := |ss| - 1;
    if n > 0 {
      ChainInv(cfg, ss, n - 1);
      var front := ss[..n];
      assert front == ss[..n - 1 + 1];
      assert Follows(cfg, ss[n - 1], ss[n - 1 + 1]);
      if StaleKeyList(id) in ss[n - 1].incidents {
        StaleKeyListWasRaced(cfg, front, id);
      } else {
        var h := RecordedByHolder(cfg, ss[n - 1], ss[n], id);
        StaleListWasRaced(cfg, front, h);
        RacedByIsRaced(front, h, id);
      }
      RacedEarlier(ss, n, id);
    }
  }

  /**
   No object is orphaned by a deletion whose handler reads and soft-deletes the row in one step: if that is so of
   every delete handler of the avatar, an object of an avatar with a row is answered for unless one of the failures
   besides a stale key list struck it.
   */
  lemma NoOrphansWhenAtOnce(cfg: Config, ss: seq<State>, k: ObjectKey)
    requires Chain(cfg, EMPTY, ss) && k in ss[|ss| - 1].objects && k.Avatar?() && k.id in ss[|ss| - 1].rows
    requires DeletesAtOnce(ss, k.id)
    ensures Claimed(cfg, ss[|ss| - 1], k) || OtherwiseExcused(ss[|ss| - 1].incidents, k)
  {
    hide Follows, Inv, Reachable, Claimed, Raced, DeletesAtOnce, Genuine, UploaderClaims;
    var s := ss[|ss| - 1];
    ChainInv(cfg, ss, |ss| - 1);
    NoOrphans(cfg, s, k);
    AtOnceNeverRaces(ss, k.id);
    if StaleKeyList(k.id) in s.incidents {
      StaleKeyListWasRaced(cfg, ss, k.id);
    } else {
      assert s.incidents - {StaleKeyList(k.id)} == s.incidents;
    }
  }
}
