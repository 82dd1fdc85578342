/**
 The queue jobs as the worker writes them: nested loops of puts with a deferred rollback, and a loop of removals.
 Each is proved against what it leaves behind for every outcome of every call.
 */
module Jobs {
  import opened Wrappers
  import opened Keys
  import opened Catalogs
  import opened Rendering
  import opened Avatars
  import opened Lifecycle
  import opened Invariants
  import opened Stores

  /** The outcome of every call one thumbnail job may make: put and remove by the position of the thumbnail. */
  datatype JobCalls = JobCalls(read: bool, load: bool, put: nat -> bool, update: bool, remove: nat -> bool, mark: bool)

  datatype JobError = RowUnreadable | OriginalUnreadable | NotAnImage | NotEncoded | NotStored | NotCompleted

  /** How a job ends: nothing to do, done, or failed after n puts, with or without a row to mark as failed. */
  datatype Ending = Skipped | Done(img: Image) | FailedAfter(n: nat, source: Option<Image>, tracked: bool)

  /** The position of the first thumbnail that cannot be encoded or stored. */
  function FirstFailure(cfg: Config, img: Image, calls: JobCalls, n: nat): (first: Option<nat>)
    requires n <= |ThePlan(cfg)|
    ensures first.Some? ==> n <= first.value < |ThePlan(cfg)|
    ensures first.Some? ==> NextThumbnail(cfg, first.value, img) == None || !calls.put(first.value)
    ensures forall i | n <= i < (if first.Some? then first.value else |ThePlan(cfg)|) ::
      NextThumbnail(cfg, i, img).Some? && calls.put(i)
    decreases |ThePlan(cfg)| - n
  {
    if n == |ThePlan(cfg)| then None
    else if NextThumbnail(cfg, n, img) == None || !calls.put(n) then Some(n)
    else FirstFailure(cfg, img, calls, n + 1)
  }

  function EndingOf(cfg: Config, rows: map<Id, Avatar>, objects: map<ObjectKey, Bytes>, id: Id, key: ObjectKey,
                    calls: JobCalls): Ending {
    if !calls.read then FailedAfter(0, None, false)
    else if id !in rows || rows[id].deleted || rows[id].status == Completed then Skipped
    else if !calls.load || key !in objects then FailedAfter(0, None, true)
    else match cfg.codec.decode(objects[key])
      case None => FailedAfter(0, None, true)
      case Some(img) =>
        match FirstFailure(cfg, img, calls, 0)
        case Some(n) => FailedAfter(n, Some(img), true)
        case None => if calls.update then Done(img) else FailedAfter(|ThePlan(cfg)|, Some(img), true)
  }

  /** The store after the first n thumbnails of an avatar have been put. */
  function WithThumbnails(cfg: Config, id: Id, img: Image, objects: map<ObjectKey, Bytes>,
                          n: nat): map<ObjectKey, Bytes>
    requires n <= |ThePlan(cfg)|
  {
    if n == 0 then objects
    else
      var before := WithThumbnails(cfg, id, img, objects, n - 1);
      match NextThumbnail(cfg, n - 1, img)
      case None => before
      case Some(data) => before[PlanKey(cfg, id, n - 1) := data]
  }

  /** The store after the rollback has been through the first n uploaded keys. */
  function RolledBack(cfg: Config, id: Id, objects: map<ObjectKey, Bytes>, n: nat,
                      calls: JobCalls): map<ObjectKey, Bytes>
    requires n <= |ThePlan(cfg)|
  {
    if n == 0 then objects
    else
      var before := RolledBack(cfg, id, objects, n - 1, calls);
      if calls.remove(n - 1) then before - {PlanKey(cfg, id, n - 1)} else before
  }

  function ObjectsAfter(cfg: Config, objects: map<ObjectKey, Bytes>, id: Id, e: Ending,
                        calls: JobCalls): map<ObjectKey, Bytes>
    requires e.FailedAfter? ==> e.n <= |ThePlan(cfg)|
  {
    match e
    case Skipped => objects
    case Done(img) => WithThumbnails(cfg, id, img, objects, |ThePlan(cfg)|)
    case FailedAfter(n, source, _) =>
      if source.None? then objects else RolledBack(cfg, id, WithThumbnails(cfg, id, source.value, objects, n), n, calls)
  }

  function RowsAfter(cfg: Config, rows: map<Id, Avatar>, id: Id, e: Ending, calls: JobCalls): map<Id, Avatar> {
    match e
    case Skipped => rows
    case Done(img) => if id in rows then rows[id := CompletedRow(cfg, rows[id], id, img)] else rows
    case FailedAfter(_, _, tracked) =>
      if tracked && calls.mark && id in rows && !rows[id].deleted then rows[id := rows[id].(status := Failed)] else rows
  }

  /** The error a failed job reports names the call that failed. */
  predicate Explains(cfg: Config, error: JobError, e: Ending, objects: map<ObjectKey, Bytes>, key: ObjectKey,
                     calls: JobCalls)
    requires e.FailedAfter?
  {
    match error
    case RowUnreadable => !calls.read
    case OriginalUnreadable => calls.read && (!calls.load || key !in objects)
    case NotAnImage => calls.read && calls.load && key in objects && cfg.codec.decode(objects[key]) == None
    case NotEncoded => e.source.Some? && e.n < |ThePlan(cfg)| && NextThumbnail(cfg, e.n, e.source.value) == None
    case NotStored =>
      e.source.Some? && e.n < |ThePlan(cfg)| && NextThumbnail(cfg, e.n, e.source.value).Some? && !calls.put(e.n)
    case NotCompleted => e.source.Some? && e.n == |ThePlan(cfg)| && !calls.update
  }

  class AvatarQueueJobs {
    const repo: AvatarTable
    const s3: ObjectStore

    constructor (repo: AvatarTable, s3: ObjectStore)
      ensures this.repo == repo && this.s3 == s3
    {
      this.repo, this.s3 := repo, s3;
    }

    /**
     ProcessAvatarUpload. Whatever fails, the rows and objects left behind are those of the job's Ending, and the
     job reports an error exactly when it ends as FailedAfter.
     */
    method ProcessAvatarUpload(cfg: Config, id: Id, key: ObjectKey, calls: JobCalls) returns (r: Result<(), JobError>)
      modifies repo, s3
      ensures var e := EndingOf(cfg, old(repo.rows), old(s3.objects), id, key, calls);
        && (e.FailedAfter? ==> e.n <= |ThePlan(cfg)|)
        && (r.Failure? <==> e.FailedAfter?)
        && (r.Failure? ==> Explains(cfg, r.error, e, old(s3.objects), key, calls))
        && repo.rows == RowsAfter(cfg, old(repo.rows), id, e, calls)
        && s3.objects == ObjectsAfter(cfg, old(s3.objects), id, e, calls)
    {
      hide Plan, Explains;
      var uploadedKeys, trackFailure;
      r, uploadedKeys, trackFailure := Attempt(cfg, id, key, calls);
      if r.Failure? {
        ghost var put := s3.objects;
        for i := 0 to |uploadedKeys|
          invariant repo.rows == old(repo.rows)
          invariant s3.objects == RolledBack(cfg, id, put, i, calls)
        {
          var _ := s3.RemoveObject(uploadedKeys[i], calls.remove(i));
        }
        if trackFailure {
          var _ := repo.SetProcessingStatus(id, Failed, calls.mark);
        }
      }
    }

    /** The body up to its return; the caller runs the deferred rollback over uploadedKeys. */
    method Attempt(cfg: Config, id: Id, key: ObjectKey, calls: JobCalls)
      returns (r: Result<(), JobError>, uploadedKeys: seq<ObjectKey>, trackFailure: bool)
      modifies repo, s3
      ensures var e := EndingOf(cfg, old(repo.rows), old(s3.objects), id, key, calls);
        && (r.Failure? <==> e.FailedAfter?)
        && (r.Failure? ==> Explains(cfg, r.error, e, old(s3.objects), key, calls))
        && (e.FailedAfter? ==>
              && e.n <= |ThePlan(cfg)| && trackFailure == e.tracked && repo.rows == old(repo.rows)
              && (e.tracked ==> id in old(repo.rows) && !old(repo.rows)[id].deleted)
              && |uploadedKeys| == e.n && (forall i | 0 <= i < e.n :: uploadedKeys[i] == PlanKey(cfg, id, i))
              && (e.source.None? ==> e.n == 0)
              && s3.objects
                == (if e.source.None? then old(s3.objects)
                  else WithThumbnails(cfg, id, e.source.value, old(s3.objects), e.n)))
        && (!e.FailedAfter? ==>
              && repo.rows == RowsAfter(cfg, old(repo.rows), id, e, calls)
              && s3.objects == ObjectsAfter(cfg, old(s3.objects), id, e, calls))
    {
      hide Plan, PlanKey, NextThumbnail, FirstFailure, FullMap, WithThumbnails;
      uploadedKeys, trackFailure := [], false;
      var got := repo.GetByIDIncludingDeleted(id, calls.read);
      if got.Failure? {
        if got.error == NotFound { return Success(()), uploadedKeys, trackFailure; }
        return Failure(RowUnreadable), uploadedKeys, trackFailure;
      }
      if got.value.deleted { return Success(()), uploadedKeys, trackFailure; }
      if got.value.status == Completed { return Success(()), uploadedKeys, trackFailure; }
      trackFailure := true;

      var data := s3.GetObject(key, calls.load);
      if data.None? { return Failure(OriginalUnreadable), uploadedKeys, trackFailure; }
      var decoded := cfg.codec.decode(data.value);
      if decoded.None? { return Failure(NotAnImage), uploadedKeys, trackFailure; }
      var img := decoded.value;

      var failure, thumbs;
      failure, uploadedKeys, thumbs := PutThumbnails(cfg, id, img, calls);
      if failure.Some? { return Failure(failure.value), uploadedKeys, trackFailure; }
      var updated := repo.UpdateProcessingResult(id, img.width, img.height, thumbs, Completed, calls.update);
      if updated.Failure? { return Failure(NotCompleted), uploadedKeys, trackFailure; }
      return Success(()), uploadedKeys, trackFailure;
    }

    /** The nested loops over labels and formats: render, put, note the key. */
    method PutThumbnails(cfg: Config, id: Id, img: Image, calls: JobCalls)
      returns (failure: Option<JobError>, uploadedKeys: seq<ObjectKey>, thumbs: ThumbMap)
      modifies s3
      ensures Progressed(cfg, id, img, calls, old(s3.objects), s3.objects, uploadedKeys)
      ensures FirstFailure(cfg, img, calls, 0) == if failure.Some? then Some(|uploadedKeys|) else None
      ensures failure.Some? && |uploadedKeys| < |ThePlan(cfg)| ==>
        failure == Some(if NextThumbnail(cfg, |uploadedKeys|, img) == None then NotEncoded else NotStored)
      ensures failure.None? ==> |uploadedKeys| == |ThePlan(cfg)| && thumbs == FullMap(cfg.catalog.sizes, id)
    {
      hide Plan, Progressed, NextThumbnail, PlanKey, FullMap, FirstFailure;
      uploadedKeys, thumbs := [], map[];
      Unstarted(cfg, id, img, calls, s3.objects);
      for i := 0 to |cfg.catalog.sizes|
        invariant |uploadedKeys| == 3 * i
        invariant Progressed(cfg, id, img, calls, old(s3.objects), s3.objects, uploadedKeys)
        invariant thumbs == FullMap(cfg.catalog.sizes[..i], id)
      {
        var size := cfg.catalog.sizes[i];
        var side := Side(cfg.catalog, size);
        var filled := cfg.codec.fill(img, side);
        var byFormat: map<Format, ObjectKey> := map[];
        for j := 0 to |FORMATS|
          invariant |uploadedKeys| == 3 * i + j
          invariant Progressed(cfg, id, img, calls, old(s3.objects), s3.objects, uploadedKeys)
          invariant byFormat == FirstFormats(id, size, j)
        {
          PlanStep(cfg, id, img, i, j);
          var encoded := cfg.codec.encode(filled, FORMATS[j]);
          if encoded.None? {
            Stopped(cfg, id, img, calls, old(s3.objects), s3.objects, uploadedKeys);
            return Some(NotEncoded), uploadedKeys, thumbs;
          }
          var k := Thumbnail(id, size, FORMATS[j]);
          ghost var before := s3.objects;
          var put := s3.PutObject(k, encoded.value, calls.put(|uploadedKeys|));
          if !put {
            Stopped(cfg, id, img, calls, old(s3.objects), s3.objects, uploadedKeys);
            return Some(NotStored), uploadedKeys, thumbs;
          }
          Progress(cfg, id, img, calls, old(s3.objects), before, uploadedKeys, encoded.value);
          uploadedKeys := uploadedKeys + [k];
          byFormat := byFormat[FORMATS[j] := k];
        }
        FullMapGrows(cfg.catalog.sizes, i, id);
        thumbs := thumbs[size := byFormat];
      }
      assert cfg.catalog.sizes[..|cfg.catalog.sizes|] == cfg.catalog.sizes;
      Stopped(cfg, id, img, calls, old(s3.objects), s3.objects, uploadedKeys);
      return None, uploadedKeys, thumbs;
    }

    /**
     ProcessAvatarDelete: every listed key is tried, an empty one (None) is skipped; the event fails when any removal
     does, and the objects left are those not listed and those whose every removal failed.
     */
    method ProcessAvatarDelete(keys: seq<Option<ObjectKey>>, remove: nat -> bool) returns (ok: bool)
      modifies s3
      ensures ok <==> forall i | 0 <= i < |keys| && keys[i].Some? :: remove(i)
      ensures forall k ::
        k in s3.objects <==> k in old(s3.objects) && (forall i | 0 <= i < |keys| && keys[i] == Some(k) :: !remove(i))
      ensures forall k | k in s3.objects :: s3.objects[k] == old(s3.objects)[k]
      ensures ok ==> forall k | Some(k) in keys :: k !in s3.objects
    {
      ok := true;
      for i := 0 to |keys|
        invariant ok <==> forall j | 0 <= j < i && keys[j].Some? :: remove(j)
        invariant forall k ::
          k in s3.objects <==> k in old(s3.objects) && (forall j | 0 <= j < i && keys[j] == Some(k) :: !remove(j))
        invariant forall k | k in s3.objects :: s3.objects[k] == old(s3.objects)[k]
      {
        if keys[i].None? { continue; }
        var removed := s3.RemoveObject(keys[i].value, remove(i));
        if !removed { ok := false; }
      }
    }
  }

  /** What the put loop has done after |uploaded| puts. */
  ghost predicate Progressed(cfg: Config, id: Id, img: Image, calls: JobCalls, was: map<ObjectKey, Bytes>,
                             now: map<ObjectKey, Bytes>, uploaded: seq<ObjectKey>) {
    && |uploaded| <= |ThePlan(cfg)|
    && now == WithThumbnails(cfg, id, img, was, |uploaded|)
    && (forall i | 0 <= i < |uploaded| :: uploaded[i] == PlanKey(cfg, id, i))
    && (forall i | 0 <= i < |uploaded| :: NextThumbnail(cfg, i, img).Some? && calls.put(i))
  }

  lemma Unstarted(cfg: Config, id: Id, img: Image, calls: JobCalls, was: map<ObjectKey, Bytes>)
    ensures Progressed(cfg, id, img, calls, was, was, [])
    ensures FullMap(cfg.catalog.sizes[..0], id) == map[]
  {
  }

  /** The loops' position (i, j) is position 3i + j of the plan. */
  lemma PlanStep(cfg: Config, id: Id, img: Image, i: nat, j: nat)
    requires i < |cfg.catalog.sizes| && j < 3
    ensures 3 * i + j < |ThePlan(cfg)|
    ensures NextThumbnail(cfg, 3 * i + j, img)
      == cfg.codec.encode(cfg.codec.fill(img, Side(cfg.catalog, cfg.catalog.sizes[i])), FORMATS[j])
    ensures PlanKey(cfg, id, 3 * i + j) == Thumbnail(id, cfg.catalog.sizes[i], FORMATS[j])
  {
    PlanAt(cfg.catalog.sizes, i, j);
  }

  lemma Progress(cfg: Config, id: Id, img: Image, calls: JobCalls, was: map<ObjectKey, Bytes>,
                 now: map<ObjectKey, Bytes>, uploaded: seq<ObjectKey>, data: Bytes)
    requires |uploaded| < |ThePlan(cfg)| && NextThumbnail(cfg, |uploaded|, img) == Some(data) && calls.put(|uploaded|)
    requires Progressed(cfg, id, img, calls, was, now, uploaded)
    ensures Progressed(cfg, id, img, calls, was, now[PlanKey(cfg, id, |uploaded|) := data],
      uploaded + [PlanKey(cfg, id, |uploaded|)])
  {
    hide ThePlan, NextThumbnail, PlanKey;
  }

  /** Where the loops stop is the first failure, if there is one. */
  lemma Stopped(cfg: Config, id: Id, img: Image, calls: JobCalls, was: map<ObjectKey, Bytes>,
                now: map<ObjectKey, Bytes>, uploaded: seq<ObjectKey>)
    requires Progressed(cfg, id, img, calls, was, now, uploaded)
    requires |uploaded| < |ThePlan(cfg)| ==> NextThumbnail(cfg, |uploaded|, img) == None || !calls.put(|uploaded|)
    ensures FirstFailure(cfg, img, calls, 0) == if |uploaded| < |ThePlan(cfg)| then Some(|uploaded|) else None
  {
    hide NextThumbnail, PlanKey, FirstFailure;
    if |uploaded| < |ThePlan(cfg)| {
      FailureAt(cfg, img, calls, 0, |uploaded|);
    } else {
      NoFailure(cfg, img, calls, 0);
    }
  }

  /** The inner map after the first j formats. */
  function FirstFormats(id: Id, size: string, j: nat): map<Format, ObjectKey>
    requires j <= |FORMATS|
  {
    map f | f in FORMATS[..j] :: Thumbnail(id, size, f)
  }

  lemma FullMapGrows(sizes: seq<string>, i: nat, id: Id)
    requires i < |sizes|
    ensures FullMap(sizes[..i + 1], id) == FullMap(sizes[..i], id)[sizes[i] := FirstFormats(id, sizes[i], |FORMATS|)]
  {
    assert sizes[..i + 1] == sizes[..i] + [sizes[i]];
    AllFormats(id, sizes[i]);
  }

  lemma AllFormats(id: Id, size: string)
    ensures FirstFormats(id, size, |FORMATS|) == map f | f in ALL_FORMATS :: Thumbnail(id, size, f)
  {
    assert FORMATS[..3] == [Jpeg, Png, Webp];
    forall f
      ensures f in FORMATS[..3]
    {
      assert f == FORMATS[..3][if f.Jpeg? then 0 else if f.Png? then 1 else 2];
    }
  }

  lemma {:induction false} FailureAt(cfg: Config, img: Image, calls: JobCalls, from: nat, n: nat)
    requires from <= n < |ThePlan(cfg)|
    requires forall i | from <= i < n :: NextThumbnail(cfg, i, img).Some? && calls.put(i)
    requires NextThumbnail(cfg, n, img) == None || !calls.put(n)
    ensures FirstFailure(cfg, img, calls, from) == Some(n)
    decreases n - from
  {
    if from == n {
    } else {
      FailureAt(cfg, img, calls, from + 1, n);
    }
  }

  lemma {:induction false} NoFailure(cfg: Config, img: Image, calls: JobCalls, from: nat)
    requires from <= |ThePlan(cfg)|
    requires forall i | from <= i < |ThePlan(cfg)| :: NextThumbnail(cfg, i, img).Some? && calls.put(i)
    ensures FirstFailure(cfg, img, calls, from) == None
    decreases |ThePlan(cfg)| - from
  {
    if from == |ThePlan(cfg)| {
    } else {
      NoFailure(cfg, img, calls, from + 1);
    }
  }

  // ---------- the thumbnail job under any schedule of faults ----------

  /** k is among the first n keys the job puts. */
  predicate PutKey(cfg: Config, id: Id, n: nat, k: ObjectKey)
    requires n <= |ThePlan(cfg)|
  {
    exists i | 0 <= i < n :: PlanKey(cfg, id, i) == k
  }

  /** After n puts the store holds the n thumbnails, each the render of the image, and is unchanged elsewhere. */
  lemma {:induction false} WithThumbnailsAt(cfg: Config, id: Id, img: Image, objects: map<ObjectKey, Bytes>, n: nat,
                                            k: ObjectKey)
    requires n <= |ThePlan(cfg)|
    requires forall i | 0 <= i < n :: NextThumbnail(cfg, i, img).Some?
    ensures var after := WithThumbnails(cfg, id, img, objects, n);
      if PutKey(cfg, id, n, k)
      then k in after && k.Thumbnail?
        && Some(after[k]) == cfg.codec.encode(cfg.codec.fill(img, Side(cfg.catalog, k.size)), k.format)
      else (k in after <==> k in objects) && (k in objects ==> after[k] == objects[k])
  {
    hide ThePlan;
    if n == 0 {
    } else {
      WithThumbnailsAt(cfg, id, img, objects, n - 1, k);
      assert NextThumbnail(cfg, n - 1, img).Some?;
      assert PutKey(cfg, id, n, k) <==> PutKey(cfg, id, n - 1, k) || k == PlanKey(cfg, id, n - 1);
    }
  }

  /** A rollback over n keys leaves, of these, the ones whose every removal failed. */
  lemma {:induction false} RolledBackAt(cfg: Config, id: Id, objects: map<ObjectKey, Bytes>, n: nat, calls: JobCalls,
                                        k: ObjectKey)
    requires n <= |ThePlan(cfg)|
    ensures var after := RolledBack(cfg, id, objects, n, calls);
      && (k in after <==> k in objects && forall i | 0 <= i < n && PlanKey(cfg, id, i) == k :: !calls.remove(i))
      && (k in after ==> after[k] == objects[k])
  {
    hide ThePlan, PlanKey;
    if n == 0 {
    } else {
      RolledBackAt(cfg, id, objects, n - 1, calls, k);
    }
  }

  /** The job found its row live and unfinished. */
  predicate Taken(rows: map<Id, Avatar>, id: Id) {
    id in rows && !rows[id].deleted && rows[id].status != Completed
  }

  /** Every thumbnail of the plan can be made of the image. */
  ghost predicate AllEncode(cfg: Config, img: Image) {
    forall size, f | size in cfg.catalog.sizes ::
      cfg.codec.encode(cfg.codec.fill(img, Side(cfg.catalog, size)), f).Some?
  }

  lemma PlanEncodesIff(cfg: Config, img: Image)
    ensures AllEncode(cfg, img) <==> forall i | 0 <= i < |ThePlan(cfg)| :: NextThumbnail(cfg, i, img).Some?
  {
    hide Plan;
    var plan := ThePlan(cfg);
    if AllEncode(cfg, img) {
      forall i | 0 <= i < |plan|
        ensures NextThumbnail(cfg, i, img).Some?
      {
        PlanCovers(cfg.catalog.sizes, plan[i]);
      }
    }
    if forall i | 0 <= i < |plan| :: NextThumbnail(cfg, i, img).Some? {
      forall size, f | size in cfg.catalog.sizes
        ensures cfg.codec.encode(cfg.codec.fill(img, Side(cfg.catalog, size)), f).Some?
      {
        PlanCovers(cfg.catalog.sizes, Variant(size, f));
        var i :| 0 <= i < |plan| && plan[i] == Variant(size, f);
        assert NextThumbnail(cfg, i, img).Some?;
      }
    }
  }

  /** How a job ends: what makes it do nothing, and what has to work for it to complete its row. */
  lemma JobEndsIff(cfg: Config, rows: map<Id, Avatar>, objects: map<ObjectKey, Bytes>, id: Id, key: ObjectKey,
                   calls: JobCalls)
    ensures var e := EndingOf(cfg, rows, objects, id, key, calls);
      && (e.Skipped? <==> calls.read && !Taken(rows, id))
      && (e.Done? <==>
            && calls.read && Taken(rows, id) && calls.load && key in objects
            && cfg.codec.decode(objects[key]).Some? && AllEncode(cfg, cfg.codec.decode(objects[key]).value)
            && (forall i | 0 <= i < |ThePlan(cfg)| :: calls.put(i)) && calls.update)
      && (e.FailedAfter? ==> (e.tracked <==> calls.read && Taken(rows, id)))
  {
    hide Plan, NextThumbnail, AllEncode;
    if key in objects && cfg.codec.decode(objects[key]).Some? {
      var img := cfg.codec.decode(objects[key]).value;
      PlanEncodesIff(cfg, img);
      if forall i | 0 <= i < |ThePlan(cfg)| :: NextThumbnail(cfg, i, img).Some? && calls.put(i) {
        NoFailure(cfg, img, calls, 0);
      }
    }
  }

  /**
   A job that ends without an error either did nothing, or completed its live row: the row's key map covers
   exactly sizes x formats, its dimensions are those of the decoded original, each of these thumbnails is stored
   as the render of the original, and nothing else of the row, no other row and no other object has changed.
   */
  lemma CompletedJob(cfg: Config, rows: map<Id, Avatar>, objects: map<ObjectKey, Bytes>, id: Id, key: ObjectKey,
                     calls: JobCalls, k: ObjectKey)
    requires EndingOf(cfg, rows, objects, id, key, calls).Done?
    ensures var e := EndingOf(cfg, rows, objects, id, key, calls);
      var rows', objects' := RowsAfter(cfg, rows, id, e, calls), ObjectsAfter(cfg, objects, id, e, calls);
      && Taken(rows, id) && key in objects
      && id in rows' && rows' == rows[id := rows'[id]]
      && rows'[id].status == Completed && !rows'[id].deleted && rows'[id].thumbs.Some?
      && cfg.codec.decode(objects[key]).Some?
      && rows'[id].dimensions
        == Some((cfg.codec.decode(objects[key]).value.width, cfg.codec.decode(objects[key]).value.height))
      && rows'[id].user == rows[id].user && rows'[id].mime == rows[id].mime && rows'[id].key == rows[id].key
      && rows'[id].created == rows[id].created
      && (k in ThumbKeys(rows'[id].thumbs) <==> k.Thumbnail? && k.id == id && k.size in cfg.catalog.sizes)
      && (k in ThumbKeys(rows'[id].thumbs) ==>
            k in objects'
              && RenderThumbnail(cfg.codec, cfg.catalog, objects[key], Variant(k.size, k.format)) == Some(objects'[k]))
      && (k !in ThumbKeys(rows'[id].thumbs)
        ==> (k in objects' <==> k in objects) && (k in objects ==> objects'[k] == objects[k]))
  {
    hide FullMap, ThumbKeys, WithThumbnails, PlanKeys, Plan;
    var img := EndingOf(cfg, rows, objects, id, key, calls).img;
    WithThumbnailsAt(cfg, id, img, objects, |ThePlan(cfg)|, k);
    FullMapKeys(cfg.catalog.sizes, id);
    PlanKeysAreThePlan(cfg, id, k);
  }

  lemma PlanKeysAreThePlan(cfg: Config, id: Id, k: ObjectKey)
    ensures PutKey(cfg, id, |ThePlan(cfg)|, k) <==> k in PlanKeys(ThePlan(cfg), id, |ThePlan(cfg)|)
    ensures PutKey(cfg, id, |ThePlan(cfg)|, k) <==> k.Thumbnail? && k.id == id && k.size in cfg.catalog.sizes
  {
    var plan := ThePlan(cfg);
    hide Plan;
    if k.Thumbnail? { PlanCovers(cfg.catalog.sizes, Variant(k.size, k.format)); }
    if k.Thumbnail? && k.id == id && Variant(k.size, k.format) in plan {
      var i :| 0 <= i < |plan| && plan[i] == Variant(k.size, k.format);
      assert PlanKey(cfg, id, i) == k;
    }
    if i :| 0 <= i < |plan| && PlanKey(cfg, id, i) == k {
      assert plan[i] == Variant(k.size, k.format);
    }
  }

  /**
   A job that fails leaves no row newly completed, and leaves the objects as they were but for the keys it had
   put: of those exactly the ones whose removal failed remain, as renders of the original.
   */
  lemma FailedJob(cfg: Config, rows: map<Id, Avatar>, objects: map<ObjectKey, Bytes>, id: Id, key: ObjectKey,
                  calls: JobCalls, k: ObjectKey)
    requires EndingOf(cfg, rows, objects, id, key, calls).FailedAfter?
    ensures var e := EndingOf(cfg, rows, objects, id, key, calls);
      && e.n <= |ThePlan(cfg)|
      && var rows', objects' := RowsAfter(cfg, rows, id, e, calls), ObjectsAfter(cfg, objects, id, e, calls);
      && rows'.Keys == rows.Keys
      && (forall x | x in rows ::
        rows'[x] == rows[x] || (x == id && Taken(rows, id) && rows'[x] == rows[x].(status := Failed)))
      && (if PutKey(cfg, id, e.n, k)
          then
            && (k in objects' <==> forall i | 0 <= i < e.n && PlanKey(cfg, id, i) == k :: !calls.remove(i))
            && (k in objects' ==> k.Thumbnail? && key in objects
                                  && RenderThumbnail(cfg.codec, cfg.catalog, objects[key], Variant(k.size, k.format))
                                    == Some(objects'[k]))
          else (k in objects' <==> k in objects) && (k in objects ==> objects'[k] == objects[k]))
  {
    hide WithThumbnails, RolledBack, Plan, ThePlan, PlanKey;
    var e := EndingOf(cfg, rows, objects, id, key, calls);
    if e.source.Some? {
      WithThumbnailsAt(cfg, id, e.source.value, objects, e.n, k);
      RolledBackAt(cfg, id, WithThumbnails(cfg, id, e.source.value, objects, e.n), e.n, calls, k);
    }
  }
}
