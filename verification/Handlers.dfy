/**
 The request handlers as the service writes them: a straight line of calls with compensation. Each is proved against
 what it leaves behind for every outcome of every call, and against the protocol: run on its own it is a run of the
 lifecycle's events.
 */
module Handlers {
  import opened Wrappers
  import opened Keys
  import opened Rendering
  import opened Avatars
  import opened Lifecycle
  import opened Stores

  const MIB := 1024 * 1024

  /** imagevalidate.MatchesDeclaredMIME on the first 512 bytes. */
  predicate MatchesDeclaredMime(mime: string, head: Bytes) {
    if mime == "image/jpeg" then |head| >= 3 && head[0] == 0xFF && head[1] == 0xD8 && head[2] == 0xFF
    else if mime == "image/png" then |head| >= 8 && head[..8] == [0x89, 0x50, 0x4E, 0x47, 0x0D, 0x0A, 0x1A, 0x0A]
    else if mime == "image/webp" then
      |head| >= 12 && head[0..4] == [0x52, 0x49, 0x46, 0x46] && head[8..12] == [0x57, 0x45, 0x42, 0x50]
    else false
  }

  datatype UploadError = BodyUnreadable | PayloadTooLarge | InvalidImage | StorageFailed | InsertFailed | NotPublished

  /** The outcome of every call one upload may make. */
  datatype UploadCalls = UploadCalls(read: bool, put: bool, insert: bool, publish: bool, deleteHard: bool, remove: bool)

  datatype DeleteError = NoSuchAvatar | Forbidden | RepoUnavailable | PublishRejected | PublishRejectedAndNotRestored

  datatype DeleteCalls = DeleteCalls(get: bool, softDelete: bool, publish: bool, restore: bool)

  /** The checks before anything is stored: size, sniffed type, magic bytes. */
  function UploadRefusal(body: Bytes, mime: string, maxUploadBytes: int): Option<UploadError> {
    var maxBytes := if maxUploadBytes <= 0 then 10 * MIB else maxUploadBytes;
    if |body| > maxBytes then Some(PayloadTooLarge)
    else if |body| == 0 then Some(InvalidImage)
    else if mime !in {"image/jpeg", "image/png", "image/webp"} then Some(InvalidImage)
    else if !MatchesDeclaredMime(mime, if |body| > 512 then body[..512] else body) then Some(InvalidImage)
    else if ExtForMime(mime) == "" then Some(InvalidImage)
    else None
  }

  const JPEG_MAGIC: Bytes := [0xFF, 0xD8, 0xFF]
  const PNG_MAGIC: Bytes := [0x89, 0x50, 0x4E, 0x47, 0x0D, 0x0A, 0x1A, 0x0A]
  const RIFF: Bytes := [0x52, 0x49, 0x46, 0x46]
  const WEBP: Bytes := [0x57, 0x45, 0x42, 0x50]

  /** The file formats an upload may have, by the bytes they begin with. */
  predicate BeginsLike(mime: string, body: Bytes) {
    || (mime == "image/jpeg" && JPEG_MAGIC <= body)
    || (mime == "image/png" && PNG_MAGIC <= body)
    || (mime == "image/webp" && RIFF <= body && |body| >= 12 && WEBP <= body[8..])
  }

  /** How many bytes an upload may have. */
  function UploadLimit(maxUploadBytes: int): int {
    if maxUploadBytes > 0 then maxUploadBytes else 10485760
  }

  /** An upload gets past the checks exactly with a body within the limit that begins as its type says. */
  lemma AcceptedIff(body: Bytes, mime: string, maxUploadBytes: int)
    ensures UploadRefusal(body, mime, maxUploadBytes) == None
      <==> 0 < |body| <= UploadLimit(maxUploadBytes) && BeginsLike(mime, body)
    ensures UploadRefusal(body, mime, maxUploadBytes) == Some(PayloadTooLarge)
      <==> |body| > UploadLimit(maxUploadBytes)
    ensures UploadRefusal(body, mime, maxUploadBytes) in {None, Some(PayloadTooLarge), Some(InvalidImage)}
  {
    var head := if |body| > 512 then body[..512] else body;
    MagicIff(mime, head);
    HeadDecides(mime, body, head);
  }

  lemma MagicIff(mime: string, head: Bytes)
    ensures MatchesDeclaredMime(mime, head) <==> BeginsLike(mime, head)
  {
    if |head| >= 3 { assert head[..3] == [head[0], head[1], head[2]]; }
    if |head| >= 12 {
      assert head[8..][..4] == head[8..12];
    }
  }

  /** The checks look at the first 512 bytes only, which decide as the whole body does. */
  lemma HeadDecides(mime: string, body: Bytes, head: Bytes)
    requires head == if |body| > 512 then body[..512] else body
    ensures BeginsLike(mime, head) <==> BeginsLike(mime, body)
  {
    if |body| > 512 {
      assert forall n: nat | n <= 12 :: head[..n] == body[..n];
      assert head[8..][..4] == head[8..12] == body[8..12] == body[8..][..4];
    }
  }

  lemma KeyForType(user: string, id: Id, mime: string, body: Bytes)
    ensures BeginsLike(mime, body) ==> OriginalKeyFor(user, id, mime) == Original(SanitizePathSegment(user), id,
      if mime == "image/jpeg" then ".jpg" else if mime == "image/png" then ".png" else ".webp")
  {
    hide SanitizePathSegment;
  }

  /** No body passes under two types. */
  lemma OneTypeOnly(body: Bytes, a: string, b: string)
    requires BeginsLike(a, body) && BeginsLike(b, body)
    ensures a == b
  {
    var first := body[0];
    assert a == "image/jpeg" || b == "image/jpeg" ==> first == JPEG_MAGIC[0];
    assert a == "image/png" || b == "image/png" ==> first == PNG_MAGIC[0];
    assert a == "image/webp" || b == "image/webp" ==> first == RIFF[0];
  }

  // ---------- what an upload leaves behind ----------

  /** The row stays when the upload succeeds, or when the DeleteHard that should undo it fails. */
  function UploadRows(rows: map<Id, Avatar>, id: Id, b: Birth, calls: UploadCalls): map<Id, Avatar> {
    if calls.put && calls.insert && (calls.publish || !calls.deleteHard) then rows[id := NewRow(b)] else rows
  }

  /** The original stays when the upload succeeds, or when the RemoveObject that should undo it fails. */
  function UploadObjects(objects: map<ObjectKey, Bytes>, b: Birth, calls: UploadCalls): map<ObjectKey, Bytes> {
    if calls.put && ((calls.insert && calls.publish) || !calls.remove) then objects[b.key := b.body] else objects
  }

  function UploadMessages(uploads: map<MsgId, UploadMsg>, id: Id, b: Birth, newId: MsgId,
                          calls: UploadCalls): map<MsgId, UploadMsg> {
    if calls.put && calls.insert && calls.publish then uploads[newId := UploadMsg(id, b.key, 0, Main)] else uploads
  }

  /** A delete takes effect on a live row; the mark stays when the event is sent, or when it cannot be restored. */
  function DeleteRows(rows: map<Id, Avatar>, id: Id, calls: DeleteCalls): map<Id, Avatar> {
    if id in rows && !rows[id].deleted && calls.softDelete && (calls.publish || !calls.restore)
    then rows[id := rows[id].(deleted := true)] else rows
  }

  function DeleteMessages(deletes: map<MsgId, DeleteMsg>, id: Id, a: Avatar, newId: MsgId,
                          calls: DeleteCalls): map<MsgId, DeleteMsg> {
    if calls.softDelete && calls.publish then deletes[newId := DeleteMsg(id, AllKeys(a), 0, Main)] else deletes
  }

  class AvatarService {
    const repo: AvatarTable
    const s3: ObjectStore
    const pub: EventPublisher
    const maxUploadBytes: int

    constructor (repo: AvatarTable, s3: ObjectStore, pub: EventPublisher, maxUploadBytes: int)
      ensures this.repo == repo && this.s3 == s3 && this.pub == pub && this.maxUploadBytes == maxUploadBytes
    {
      this.repo, this.s3, this.pub, this.maxUploadBytes := repo, s3, pub, maxUploadBytes;
    }

    /**
     AvatarService.Upload, for a fresh id. A body that cannot be read or is refused leaves no trace. Otherwise
     what stays behind is exactly what UploadRows, UploadObjects and UploadMessages say, for every outcome of
     every call; after a success that is a pending row, the body under the key of its user, id and type, and a message
     that names both and has not been retried.
     */
    method Upload(id: Id, user: string, mime: string, body: Bytes, created: int, newId: MsgId, calls: UploadCalls)
      returns (r: Result<Id, UploadError>)
      requires id !in repo.rows && OriginalKeyFor(user, id, mime) !in s3.objects && newId !in pub.uploads
      modifies repo, s3, pub
      ensures pub.deletes == old(pub.deletes)
      ensures !calls.read ==>
        r == Failure(BodyUnreadable) && repo.rows == old(repo.rows) && s3.objects == old(s3.objects)
          && pub.uploads == old(pub.uploads)
      ensures calls.read && UploadRefusal(body, mime, maxUploadBytes).Some? ==>
        && r == Failure(UploadRefusal(body, mime, maxUploadBytes).value)
        && repo.rows == old(repo.rows) && s3.objects == old(s3.objects) && pub.uploads == old(pub.uploads)
      ensures calls.read && UploadRefusal(body, mime, maxUploadBytes).None? ==>
        var b := Birth(user, mime, OriginalKeyFor(user, id, mime), body, created);
        && r == (if !calls.put then Failure(StorageFailed)
                 else if !calls.insert then Failure(InsertFailed)
                 else if !calls.publish then Failure(NotPublished)
                 else Success(id))
        && repo.rows == UploadRows(old(repo.rows), id, b, calls)
        && s3.objects == UploadObjects(old(s3.objects), b, calls)
        && pub.uploads == UploadMessages(old(pub.uploads), id, b, newId, calls)
      ensures r == Failure(BodyUnreadable) <==> !calls.read
      ensures r == Failure(PayloadTooLarge) <==> calls.read && |body| > UploadLimit(maxUploadBytes)
      ensures r == Failure(InvalidImage) <==>
        calls.read && |body| <= UploadLimit(maxUploadBytes) && (|body| == 0 || !BeginsLike(mime, body))
      ensures r.Success? <==>
        && calls.read && 0 < |body| <= UploadLimit(maxUploadBytes) && BeginsLike(mime, body)
        && calls.put && calls.insert && calls.publish
      ensures r.Success? ==>
        var ext := if mime == "image/jpeg" then ".jpg" else if mime == "image/png" then ".png" else ".webp";
        var key := Original(SanitizePathSegment(user), id, ext);
        && r.value == id
        && repo.rows == old(repo.rows)[id := Avatar(user, mime, key, None, None, Pending, false, created)]
        && s3.objects == old(s3.objects)[key := body]
        && pub.uploads == old(pub.uploads)[newId := UploadMsg(id, key, 0, Main)]
    {
      hide SanitizePathSegment, OriginalKeyFor, MatchesDeclaredMime, BeginsLike, UploadLimit;
      AcceptedIff(body, mime, maxUploadBytes);
      KeyForType(user, id, mime, body);
      if !calls.read { return Failure(BodyUnreadable); }
      var maxBytes := if maxUploadBytes <= 0 then 10 * MIB else maxUploadBytes;
      if |body| > maxBytes { return Failure(PayloadTooLarge); }
      if |body| == 0 { return Failure(InvalidImage); }
      if mime !in {"image/jpeg", "image/png", "image/webp"} { return Failure(InvalidImage); }
      if !MatchesDeclaredMime(mime, if |body| > 512 then body[..512] else body) { return Failure(InvalidImage); }
      if ExtForMime(mime) == "" { return Failure(InvalidImage); }

      r := Persist(id, Birth(user, mime, OriginalKeyFor(user, id, mime), body, created), newId, calls);
    }

    /** Put, insert, publish, each undone by what follows its failure. */
    method Persist(id: Id, b: Birth, newId: MsgId, calls: UploadCalls) returns (r: Result<Id, UploadError>)
      requires id !in repo.rows && b.key !in s3.objects && newId !in pub.uploads
      modifies repo, s3, pub
      ensures pub.deletes == old(pub.deletes)
      ensures r == (if !calls.put then Failure(StorageFailed)
                    else if !calls.insert then Failure(InsertFailed)
                    else if !calls.publish then Failure(NotPublished)
                    else Success(id))
      ensures repo.rows == UploadRows(old(repo.rows), id, b, calls)
      ensures s3.objects == UploadObjects(old(s3.objects), b, calls)
      ensures pub.uploads == UploadMessages(old(pub.uploads), id, b, newId, calls)
    {
      var put := s3.PutObject(b.key, b.body, calls.put);
      if !put { return Failure(StorageFailed); }

      var row := NewRow(b);
      var inserted := repo.Insert(id, row, calls.insert);
      if inserted.Failure? {
        var _ := s3.RemoveObject(b.key, calls.remove);
        assert old(s3.objects)[b.key := b.body] - {b.key} == old(s3.objects);
        return Failure(InsertFailed);
      }

      var published := pub.PublishUpload(id, b.key, newId, calls.publish);
      if !published {
        var _ := repo.DeleteHard(id, calls.deleteHard);
        var _ := s3.RemoveObject(b.key, calls.remove);
        assert old(s3.objects)[b.key := b.body] - {b.key} == old(s3.objects);
        assert old(repo.rows)[id := row] - {id} == old(repo.rows);
        return Failure(NotPublished);
      }
      return Success(id);
    }

    /**
     deleteAvatarWithPublish: the key list is the one of the row as it was read, whatever the row has become. The
     row is written only under its own guard, and what stays behind is what DeleteRows and DeleteMessages say.
     */
    method DeleteAvatarWithPublish(id: Id, a: Avatar, newId: MsgId, calls: DeleteCalls)
                                   returns (r: Result<(), DeleteError>)
      requires newId !in pub.deletes
      requires id in repo.rows ==> repo.rows[id].user == a.user
      modifies repo, pub
      ensures pub.uploads == old(pub.uploads)
      ensures repo.rows == DeleteRows(old(repo.rows), id, calls)
      ensures var live := id in old(repo.rows) && !old(repo.rows)[id].deleted;
        && pub.deletes == (if live then DeleteMessages(old(pub.deletes), id, a, newId, calls) else old(pub.deletes))
        && r == (if !calls.softDelete then Failure(RepoUnavailable)
                 else if !live then Failure(NoSuchAvatar)
                 else if calls.publish then Success(())
                 else if calls.restore then Failure(PublishRejected)
                 else Failure(PublishRejectedAndNotRestored))
    {
      var keys := AllKeys(a);
      var marked := repo.SoftDelete(id, a.user, calls.softDelete);
      if marked.Failure? { return Failure(if marked.error == NotFound then NoSuchAvatar else RepoUnavailable); }
      var published := pub.PublishDelete(id, keys, newId, calls.publish);
      if !published {
        var restored := repo.RestoreSoftDeleted(id, a.user, calls.restore);
        assert calls.restore ==> repo.rows == old(repo.rows);
        return Failure(if restored.Failure? then PublishRejectedAndNotRestored else PublishRejected);
      }
      return Success(());
    }

    /** AvatarService.DeleteByID: only the owner of a live row gets past the read. */
    method DeleteByID(actor: string, id: Id, newId: MsgId, calls: DeleteCalls) returns (r: Result<(), DeleteError>)
      requires newId !in pub.deletes
      modifies repo, pub
      ensures pub.uploads == old(pub.uploads)
      ensures var allowed := calls.get && id in old(repo.rows) && !old(repo.rows)[id].deleted
        && old(repo.rows)[id].user == actor;
        && repo.rows == (if allowed then DeleteRows(old(repo.rows), id, calls) else old(repo.rows))
        && pub.deletes
          == (if allowed then DeleteMessages(old(pub.deletes), id, old(repo.rows)[id], newId, calls)
            else old(pub.deletes))
        && (r.Success? <==> allowed && calls.softDelete && calls.publish)
        && (r == Failure(Forbidden) <==>
              calls.get && id in old(repo.rows) && !old(repo.rows)[id].deleted && old(repo.rows)[id].user != actor)
        && (r == Failure(NoSuchAvatar) <==> calls.get && (id !in old(repo.rows) || old(repo.rows)[id].deleted))
        && (r == Failure(RepoUnavailable) <==> !calls.get || (allowed && !calls.softDelete))
        && (r == Failure(PublishRejected) <==> allowed && calls.softDelete && !calls.publish && calls.restore)
        && (r == Failure(PublishRejectedAndNotRestored) <==>
              allowed && calls.softDelete && !calls.publish && !calls.restore)
      ensures r.Success? ==>
        var row := old(repo.rows)[id];
        && repo.rows == old(repo.rows)[id := row.(deleted := true)]
        && pub.deletes == old(pub.deletes)[newId := DeleteMsg(id, AllKeys(row), 0, Main)]
      ensures r.Failure? ==> pub.deletes == old(pub.deletes)
      ensures r.Failure? && r.error != PublishRejectedAndNotRestored ==> repo.rows == old(repo.rows)
    {
      var got := repo.GetByID(id, calls.get);
      if got.Failure? { return Failure(if got.error == NotFound then NoSuchAvatar else RepoUnavailable); }
      if got.value.user != actor { return Failure(Forbidden); }
      r := DeleteAvatarWithPublish(id, got.value, newId, calls);
    }

    /** AvatarService.DeleteLatestForUser: a user deletes the latest of their own live rows, or nothing happens. */
    method DeleteLatestForUser(actor: string, pathUser: string, newId: MsgId, calls: DeleteCalls)
                               returns (r: Result<(), DeleteError>)
      requires newId !in pub.deletes
      modifies repo, pub
      ensures pub.uploads == old(pub.uploads)
      ensures r == Failure(Forbidden) <==> actor != pathUser
      ensures var found := exists id | id in old(repo.rows) ::
          old(repo.rows)[id].user == pathUser && !old(repo.rows)[id].deleted;
        var allowed := actor == pathUser && calls.get && found;
        && (allowed ==>
              exists id | id in old(repo.rows) ::
                && old(repo.rows)[id].user == pathUser && !old(repo.rows)[id].deleted
                && (forall x | x in old(repo.rows) && old(repo.rows)[x].user == pathUser
                  && !old(repo.rows)[x].deleted ::
                      old(repo.rows)[x].created <= old(repo.rows)[id].created)
                && repo.rows == DeleteRows(old(repo.rows), id, calls)
                && pub.deletes == DeleteMessages(old(pub.deletes), id, old(repo.rows)[id], newId, calls))
        && (!allowed ==> repo.rows == old(repo.rows) && pub.deletes == old(pub.deletes))
        && (r.Success? <==> allowed && calls.softDelete && calls.publish)
        && (r == Failure(NoSuchAvatar) <==> actor == pathUser && calls.get && !found)
        && (r == Failure(RepoUnavailable) <==> actor == pathUser && (!calls.get || (found && !calls.softDelete)))
        && (r == Failure(PublishRejected) <==> allowed && calls.softDelete && !calls.publish && calls.restore)
        && (r == Failure(PublishRejectedAndNotRestored) <==>
              allowed && calls.softDelete && !calls.publish && !calls.restore)
    {
      if actor != pathUser { return Failure(Forbidden); }
      var got := repo.GetLatestByUser(pathUser, calls.get);
      if got.Failure? { return Failure(if got.error == NotFound then NoSuchAvatar else RepoUnavailable); }
      r := DeleteAvatarWithPublish(got.value, repo.rows[got.value], newId, calls);
    }
  }

  // ---------- compensation ----------

  /** No compensating call of a failed upload fails. */
  predicate UploadCompensated(calls: UploadCalls) {
    calls.put ==> calls.remove && (calls.insert ==> calls.deleteHard)
  }

  /**
   Compensation: a failed upload whose compensating calls work leaves rows, objects and messages as they were; one
   whose compensating calls fail leaves exactly the row, the original, or both, that those calls were to undo.
   */
  lemma UploadCompensation(rows: map<Id, Avatar>, objects: map<ObjectKey, Bytes>, uploads: map<MsgId, UploadMsg>,
                           id: Id, b: Birth, newId: MsgId, calls: UploadCalls)
    requires id !in rows && b.key !in objects && newId !in uploads
    requires !(calls.put && calls.insert && calls.publish)
    ensures UploadMessages(uploads, id, b, newId, calls) == uploads
    ensures UploadRows(rows, id, b, calls) - {id} == rows
    ensures id in UploadRows(rows, id, b, calls) <==> calls.put && calls.insert && !calls.deleteHard
    ensures UploadObjects(objects, b, calls) - {b.key} == objects
    ensures b.key in UploadObjects(objects, b, calls) <==> calls.put && !calls.remove
    ensures UploadCompensated(calls)
      ==> UploadRows(rows, id, b, calls) == rows && UploadObjects(objects, b, calls) == objects
  {
    assert rows[id := NewRow(b)] - {id} == rows && rows - {id} == rows;
    assert objects[b.key := b.body] - {b.key} == objects && objects - {b.key} == objects;
  }

  // ---------- the handlers are runs of the protocol ----------

  function UploadEvents(id: Id, user: string, mime: string, body: Bytes, created: int, newId: MsgId,
                        calls: UploadCalls): seq<Event> {
    [StartUpload(id, user, mime, body, created)] + PutEvents(id, newId, calls)
  }

  function PutEvents(id: Id, newId: MsgId, calls: UploadCalls): seq<Event> {
    [UploadCall(id, calls.put, newId)] + (if calls.put then InsertEvents(id, newId, calls) else [])
  }

  function InsertEvents(id: Id, newId: MsgId, calls: UploadCalls): seq<Event> {
    [UploadCall(id, calls.insert, newId)]
      + (if calls.insert then PublishEvents(id, newId, calls) else [UploadCall(id, calls.remove, newId)])
  }

  function PublishEvents(id: Id, newId: MsgId, calls: UploadCalls): seq<Event> {
    [UploadCall(id, calls.publish, newId)]
    + (if calls.publish then [] else [UploadCall(id, calls.deleteHard, newId)] + [UploadCall(id, calls.remove, newId)])
  }

  function DeleteEvents(h: nat, id: Id, actor: string, newId: MsgId, calls: DeleteCalls): seq<Event> {
    [StartDelete(h, id, actor)] + MarkEvents(h, newId, calls)
  }

  function MarkEvents(h: nat, newId: MsgId, calls: DeleteCalls): seq<Event> {
    [DeleteCall(h, calls.softDelete, newId)] + (if calls.softDelete then AnnounceEvents(h, newId, calls) else [])
  }

  function AnnounceEvents(h: nat, newId: MsgId, calls: DeleteCalls): seq<Event> {
    [DeleteCall(h, calls.publish, newId)] + (if calls.publish then [] else [DeleteCall(h, calls.restore, newId)])
  }

  lemma RunNone(cfg: Config, s: State)
    ensures Run(cfg, s, []) == s
  {
  }

  lemma RunFirst(cfg: Config, s: State, e: Event, es: seq<Event>)
    ensures Run(cfg, s, [e] + es) == Run(cfg, Apply(cfg, s, e), es)
  {
    hide Apply;
    RunConcat(cfg, s, [e], es);
    assert [e][..0] == [];
    RunNone(cfg, s);
    assert Run(cfg, s, [e]) == Apply(cfg, s, e);
  }

  lemma RunUpload(cfg: Config, s: State, id: Id, ok: bool, newId: MsgId, es: seq<Event>)
    requires id in s.uploaders && id in s.born
    ensures Run(cfg, s, [UploadCall(id, ok, newId)] + es) == Run(cfg, UploadStep(s, id, ok, newId), es)
  {
    hide Run, UploadStep;
    RunFirst(cfg, s, UploadCall(id, ok, newId), es);
  }

  lemma RunLastUpload(cfg: Config, s: State, id: Id, ok: bool, newId: MsgId)
    requires id in s.uploaders && id in s.born
    ensures Run(cfg, s, [UploadCall(id, ok, newId)]) == UploadStep(s, id, ok, newId)
  {
    hide Run, UploadStep;
    RunUpload(cfg, s, id, ok, newId, []);
    assert [UploadCall(id, ok, newId)] + [] == [UploadCall(id, ok, newId)];
    RunNone(cfg, UploadStep(s, id, ok, newId));
  }

  /** What a stretch of an upload handler's calls does to the stores. */
  predicate Leaves(s: State, t: State, id: Id, rows: map<Id, Avatar>, objects: map<ObjectKey, Bytes>,
                   uploads: map<MsgId, UploadMsg>) {
    && t.rows == rows && t.objects == objects && t.uploads == uploads
    && t.deletes == s.deletes && t.uploaders == s.uploaders - {id}
    && t.deleters == s.deleters && t.jobs == s.jobs && t.cleaners == s.cleaners
  }

  lemma PublishStage(cfg: Config, s: State, id: Id, newId: MsgId, calls: UploadCalls)
    requires id in s.uploaders && s.uploaders[id] == Publishing && id in s.born && id in s.rows && newId !in s.uploads
    ensures Leaves(s, Run(cfg, s, PublishEvents(id, newId, calls)), id,
                   if calls.publish || !calls.deleteHard then s.rows else s.rows - {id},
                   if calls.publish || !calls.remove then s.objects else s.objects - {s.born[id].key},
                   if calls.publish then s.uploads[newId := UploadMsg(id, s.born[id].key, 0, Main)] else s.uploads)
  {
    hide Run, Apply;
    if calls.publish {
      assert PublishEvents(id, newId, calls) == [UploadCall(id, true, newId)];
      RunLastUpload(cfg, s, id, true, newId);
    } else {
      RunUpload(cfg, s, id, false, newId,
        [UploadCall(id, calls.deleteHard, newId)] + [UploadCall(id, calls.remove, newId)]);
      RemovalStage(cfg, UploadStep(s, id, false, newId), id, newId, calls);
    }
  }

  lemma RemovalStage(cfg: Config, s: State, id: Id, newId: MsgId, calls: UploadCalls)
    requires id in s.uploaders && s.uploaders[id] == Undoing && id in s.born && id in s.rows
    ensures Leaves(s, Run(cfg, s, [UploadCall(id, calls.deleteHard, newId)] + [UploadCall(id, calls.remove, newId)]),
      id,
                   if calls.deleteHard then s.rows - {id} else s.rows,
                   if calls.remove then s.objects - {s.born[id].key} else s.objects,
                   s.uploads)
  {
    hide Run, Apply;
    var t := UploadStep(s, id, calls.deleteHard, newId);
    RunUpload(cfg, s, id, calls.deleteHard, newId, [UploadCall(id, calls.remove, newId)]);
    RunLastUpload(cfg, t, id, calls.remove, newId);
  }

  lemma InsertStage(cfg: Config, s: State, id: Id, newId: MsgId, calls: UploadCalls)
    requires id in s.uploaders && s.uploaders[id] == Inserting && id in s.born && id !in s.rows && newId !in s.uploads
    ensures Leaves(s, Run(cfg, s, InsertEvents(id, newId, calls)), id,
                   if calls.insert && (calls.publish || !calls.deleteHard) then s.rows[id := NewRow(s.born[id])]
                     else s.rows,
                   if (calls.insert && calls.publish) || !calls.remove then s.objects else s.objects - {s.born[id].key},
                   if calls.insert && calls.publish then s.uploads[newId := UploadMsg(id, s.born[id].key, 0, Main)]
                     else s.uploads)
  {
    hide Run, Apply;
    var t := UploadStep(s, id, calls.insert, newId);
    if calls.insert {
      RunUpload(cfg, s, id, true, newId, PublishEvents(id, newId, calls));
      PublishStage(cfg, t, id, newId, calls);
      assert s.rows[id := NewRow(s.born[id])] - {id} == s.rows;
    } else {
      RunUpload(cfg, s, id, false, newId, [UploadCall(id, calls.remove, newId)]);
      RunLastUpload(cfg, t, id, calls.remove, newId);
    }
  }

  /** AvatarService.Upload on its own is a run of the protocol: the same rows, objects and messages. */
  lemma UploadIsARun(cfg: Config, s: State, id: Id, user: string, mime: string, body: Bytes, created: int,
                     newId: MsgId, calls: UploadCalls)
    requires id !in s.born && id !in s.rows && id !in s.uploaders
    requires OriginalKeyFor(user, id, mime) !in s.objects && newId !in s.uploads
    ensures var b := Birth(user, mime, OriginalKeyFor(user, id, mime), body, created);
      Leaves(s, Run(cfg, s, UploadEvents(id, user, mime, body, created, newId, calls)), id,
             UploadRows(s.rows, id, b, calls), UploadObjects(s.objects, b, calls),
               UploadMessages(s.uploads, id, b, newId, calls))
  {
    hide Run, OriginalKeyFor;
    var b := Birth(user, mime, OriginalKeyFor(user, id, mime), body, created);
    var c := Conceived(s, id, b);
    RunFirst(cfg, s, StartUpload(id, user, mime, body, created), PutEvents(id, newId, calls));
    PutStage(cfg, c, id, newId, calls);
    assert s.objects[b.key := b.body] - {b.key} == s.objects;
  }

  lemma PutStage(cfg: Config, s: State, id: Id, newId: MsgId, calls: UploadCalls)
    requires id in s.uploaders && s.uploaders[id] == Putting && id in s.born && id !in s.rows && newId !in s.uploads
    ensures var b := s.born[id];
      Leaves(s, Run(cfg, s, PutEvents(id, newId, calls)), id, UploadRows(s.rows, id, b, calls),
             if !calls.put then s.objects
             else if (calls.insert && calls.publish) || !calls.remove then s.objects[b.key := b.body]
             else s.objects[b.key := b.body] - {b.key},
             UploadMessages(s.uploads, id, b, newId, calls))
  {
    hide Run, Apply;
    if calls.put {
      RunUpload(cfg, s, id, true, newId, InsertEvents(id, newId, calls));
      InsertStage(cfg, UploadStep(s, id, true, newId), id, newId, calls);
    } else {
      assert PutEvents(id, newId, calls) == [UploadCall(id, false, newId)];
      RunLastUpload(cfg, s, id, false, newId);
    }
  }

  lemma RunDelete(cfg: Config, s: State, h: nat, ok: bool, newId: MsgId, es: seq<Event>)
    requires h in s.deleters
    ensures Run(cfg, s, [DeleteCall(h, ok, newId)] + es) == Run(cfg, DeleteStep(s, h, ok, newId), es)
  {
    hide Run, DeleteStep;
    RunFirst(cfg, s, DeleteCall(h, ok, newId), es);
  }

  lemma RunLastDelete(cfg: Config, s: State, h: nat, ok: bool, newId: MsgId)
    requires h in s.deleters
    ensures Run(cfg, s, [DeleteCall(h, ok, newId)]) == DeleteStep(s, h, ok, newId)
  {
    hide Run, DeleteStep;
    RunDelete(cfg, s, h, ok, newId, []);
    assert [DeleteCall(h, ok, newId)] + [] == [DeleteCall(h, ok, newId)];
    RunNone(cfg, DeleteStep(s, h, ok, newId));
  }

  lemma AnnounceStage(cfg: Config, s: State, h: nat, newId: MsgId, calls: DeleteCalls)
    requires h in s.deleters && s.deleters[h].pc == Announcing && newId !in s.deletes
    requires s.deleters[h].id in s.rows && s.rows[s.deleters[h].id].deleted
    ensures var id := s.deleters[h].id;
      var t := Run(cfg, s, AnnounceEvents(h, newId, calls));
      && t.rows == (if calls.publish || !calls.restore then s.rows else s.rows[id := s.rows[id].(deleted := false)])
      && t.objects == s.objects && t.uploads == s.uploads
      && t.deletes
        == (if calls.publish then s.deletes[newId := DeleteMsg(id, s.deleters[h].keys, 0, Main)] else s.deletes)
      && h !in t.deleters
  {
    hide Run, Apply;
    if calls.publish {
      assert AnnounceEvents(h, newId, calls) == [DeleteCall(h, true, newId)];
      RunLastDelete(cfg, s, h, true, newId);
    } else {
      RunDelete(cfg, s, h, false, newId, [DeleteCall(h, calls.restore, newId)]);
      RunLastDelete(cfg, DeleteStep(s, h, false, newId), h, calls.restore, newId);
    }
  }

  /** A delete handler on its own is a run of the protocol: the same rows and messages, and no object touched. */
  lemma DeleteIsARun(cfg: Config, s: State, h: nat, id: Id, actor: string, newId: MsgId, calls: DeleteCalls)
    requires h !in s.deleters && newId !in s.deletes
    requires id in s.rows && !s.rows[id].deleted && s.rows[id].user == actor
    ensures var t := Run(cfg, s, DeleteEvents(h, id, actor, newId, calls));
      && t.rows == DeleteRows(s.rows, id, calls)
      && t.objects == s.objects && t.uploads == s.uploads
      && t.deletes == DeleteMessages(s.deletes, id, s.rows[id], newId, calls)
      && h !in t.deleters
  {
    hide Run, AllKeys;
    RunFirst(cfg, s, StartDelete(h, id, actor), MarkEvents(h, newId, calls));
    var c := DeleterAt(s, h, Deleter(id, AllKeys(s.rows[id]), SoftDeleting));
    MarkStage(cfg, c, h, newId, calls);
    assert s.rows[id].(deleted := true).(deleted := false) == s.rows[id];
    assert s.rows[id := s.rows[id]] == s.rows;
  }

  lemma MarkStage(cfg: Config, s: State, h: nat, newId: MsgId, calls: DeleteCalls)
    requires h in s.deleters && s.deleters[h].pc == SoftDeleting && newId !in s.deletes
    requires s.deleters[h].id in s.rows && !s.rows[s.deleters[h].id].deleted
    ensures var id := s.deleters[h].id;
      var marked := s.rows[id := s.rows[id].(deleted := true)];
      var t := Run(cfg, s, MarkEvents(h, newId, calls));
      && t.rows == (if !calls.softDelete then s.rows
                    else if calls.publish || !calls.restore then marked
                    else marked[id := marked[id].(deleted := false)])
      && t.objects == s.objects && t.uploads == s.uploads
      && t.deletes
        == (if calls.softDelete && calls.publish then s.deletes[newId := DeleteMsg(id, s.deleters[h].keys, 0, Main)]
          else s.deletes)
      && h !in t.deleters
  {
    hide Run, Apply, AllKeys;
    if calls.softDelete {
      RunDelete(cfg, s, h, true, newId, AnnounceEvents(h, newId, calls));
      AnnounceStage(cfg, DeleteStep(s, h, true, newId), h, newId, calls);
    } else {
      assert MarkEvents(h, newId, calls) == [DeleteCall(h, false, newId)];
      RunLastDelete(cfg, s, h, false, newId);
    }
  }
}
