/**
 The avatar lifecycle as a distributed protocol.

 Three stores change independently: the avatars table, the object store and the broker's queues. Four kinds of
 actor touch them, one I/O call at a time: upload handlers, delete handlers, thumbnail jobs and cleanup jobs.
 A run is any sequence of events; an event that is not enabled leaves the state as it is, so every sequence is a
 run and any property of all sequences is a property of all interleavings. Each I/O call carries its outcome
 (ok or not), and a call that fails has no effect.

 A call that the code relies on to undo or hand over work may fail as well. Such a failure is kept in
 `incidents`, which no step reads.
 */
module Lifecycle {
  import opened Wrappers
  import opened Keys
  import opened Catalogs
  import opened Rendering
  import opened Avatars
  import opened Routing

  type Id = string

  type MsgId = nat

  datatype Config = Config(catalog: Catalog, codec: Codec, uploadDelays: seq<int>, deleteDelays: seq<int>)

  /** What an upload handler was asked to store under a fresh id. */
  datatype Birth = Birth(user: string, mime: string, key: ObjectKey, body: Bytes, created: int)

  /** The next call of an upload handler (AvatarService.Upload). */
  datatype UploadPc = Putting | Inserting | Publishing | Undoing | Removing

  /** The next call of a delete handler (deleteAvatarWithPublish), after its row was read. */
  datatype DeletePc = SoftDeleting | Announcing | Restoring

  datatype Deleter = Deleter(id: Id, keys: set<ObjectKey>, pc: DeletePc)

  datatype Place = Main | InFlight | Retry(i: nat) | Dlq

  datatype UploadMsg = UploadMsg(id: Id, key: ObjectKey, count: nat, place: Place)

  datatype DeleteMsg = DeleteMsg(id: Id, keys: set<ObjectKey>, count: nat, place: Place)

  /** The next call of a thumbnail job (ProcessAvatarUpload and the worker around it). */
  datatype JobPc =
    | Reading
    | Loading
    | Filling(n: nat, img: Image)           // n thumbnails put; at the end of the plan, completes the row
    | RollingBack(todo: set<ObjectKey>)     // the deferred loop over uploadedKeys
    | MarkingFailed
    | Requeueing
    | Acking(how: Settlement)

  /** Why a worker is about to acknowledge a delivery, or to reject it without requeueing. */
  datatype Settlement =
    | Finished                    // nothing is left to do
    | Dropped                     // the row was soft-deleted when the job read it
    | Copied                      // the message has been published onwards
    | Refused(cause: LossCause)   // the job failed and the message could not be handed on

  /** The next call of a cleanup job (ProcessAvatarDelete and the worker around it). */
  datatype CleanPc = Cleaning(todo: set<ObjectKey>, failed: bool) | Forwarding | Settling(how: Settlement)

  datatype LossCause = PublishFailed | QueueMissing

  datatype Incident =
    | RemoveFailed(key: ObjectKey)                // a compensating RemoveObject failed
    | DeleteHardFailed(id: Id)                    // an upload rollback could not delete its row
    | RestoreFailed(id: Id)                       // a delete rollback could not clear deleted_at
    | StaleKeyList(id: Id)                        // a delete event was sent without all the keys its row refers to
    | UploadCrashed(id: Id)                       // the server died between the calls of an upload
    | DeleteCrashed(id: Id)                       // the server died between soft delete and delete event
    | JobCrashed(id: Id)                          // a worker died with thumbnails put and the row not completed
    | Duplicated(id: Id)                          // an upload message has a second copy
    | Overlapped(id: Id)                          // two thumbnail jobs were at work on the avatar at once
    | UploadMessageLost(id: Id, cause: LossCause) // a failed job could not hand its message on
    | DeleteMessageLost(id: Id, cause: LossCause)
    | DroppedYetLive(id: Id)                      // a message was dropped as deleted, its row lives again

  datatype State = State(
    rows: map<Id, Avatar>,
    objects: map<ObjectKey, Bytes>,
    uploads: map<MsgId, UploadMsg>,
    deletes: map<MsgId, DeleteMsg>,
    uploaders: map<Id, UploadPc>,
    deleters: map<nat, Deleter>,
    jobs: map<MsgId, JobPc>,
    cleaners: map<MsgId, CleanPc>,
    born: map<Id, Birth>,
    announced: set<Id>,     // avatars for which a delete event was enqueued
    ackedDeleted: set<Id>,  // avatars whose upload message was dropped for good because the row was soft-deleted
    incidents: set<Incident>)

  const EMPTY := State(map[], map[], map[], map[], map[], map[], map[], map[], map[], {}, {}, {})

  datatype Event =
    | StartUpload(id: Id, user: string, mime: string, body: Bytes, created: int)
    | UploadCall(id: Id, ok: bool, newId: MsgId)
    | CrashUpload(id: Id)
    | StartDelete(handler: nat, id: Id, actor: string)
    | DeleteCall(handler: nat, ok: bool, newId: MsgId)
    | CrashDelete(handler: nat)
    | DeliverUpload(m: MsgId)
    | JobCall(m: MsgId, ok: bool, pick: ObjectKey, newId: MsgId)
    | CrashJob(m: MsgId)
    | RedeliverUpload(m: MsgId, newId: MsgId)
    | ExpireUpload(m: MsgId)
    | DeliverDelete(m: MsgId)
    | CleanCall(m: MsgId, ok: bool, pick: ObjectKey, newId: MsgId)
    | CrashClean(m: MsgId)
    | RedeliverDelete(m: MsgId, newId: MsgId)
    | ExpireDelete(m: MsgId)

  // ---------- upload handler ----------

  function Conceived(s: State, id: Id, b: Birth): (t: State)
    ensures t.incidents == s.incidents && t.rows == s.rows && t.deleters == s.deleters && t.objects == s.objects
  {
    s.(born := s.born[id := b], uploaders := s.uploaders[id := Putting])
  }

  function OriginalPut(s: State, id: Id, b: Birth): (t: State)
    ensures t.incidents == s.incidents && t.born == s.born && t.rows == s.rows && t.deleters == s.deleters
  {
    s.(objects := s.objects[b.key := b.body], uploaders := s.uploaders[id := Inserting])
  }

  function NewRow(b: Birth): Avatar {
    Avatar(b.user, b.mime, b.key, None, None, Pending, false, b.created)
  }

  function RowInserted(s: State, id: Id, b: Birth): (t: State)
    ensures t.incidents == s.incidents && t.born == s.born && t.deleters == s.deleters && t.objects == s.objects
  {
    s.(rows := s.rows[id := NewRow(b)], uploaders := s.uploaders[id := Publishing])
  }

  function UploadPublished(s: State, id: Id, b: Birth, newId: MsgId): (t: State)
    ensures t.incidents == s.incidents && t.born == s.born && t.rows == s.rows && t.deleters == s.deleters
    ensures t.objects == s.objects
  {
    s.(uploads := s.uploads[newId := UploadMsg(id, b.key, 0, Main)], uploaders := s.uploaders - {id})
  }

  function RowUndone(s: State, id: Id): (t: State)
    ensures t.incidents == s.incidents && t.born == s.born && t.deleters == s.deleters && t.objects == s.objects
  {
    s.(rows := s.rows - {id}, uploaders := s.uploaders[id := Removing])
  }

  function OriginalRemoved(s: State, id: Id, b: Birth): (t: State)
    ensures t.incidents == s.incidents && t.born == s.born && t.rows == s.rows && t.deleters == s.deleters
  {
    s.(objects := s.objects - {b.key}, uploaders := s.uploaders - {id})
  }

  function UploaderAt(s: State, id: Id, pc: UploadPc, noted: set<Incident>): (t: State)
    ensures s.incidents <= t.incidents && t.born == s.born && t.rows == s.rows && t.deleters == s.deleters
    ensures t.objects == s.objects
  {
    s.(uploaders := s.uploaders[id := pc], incidents := s.incidents + noted)
  }

  function UploaderGone(s: State, id: Id, noted: set<Incident>): (t: State)
    ensures s.incidents <= t.incidents && t.born == s.born && t.rows == s.rows && t.deleters == s.deleters
    ensures t.objects == s.objects
  {
    s.(uploaders := s.uploaders - {id}, incidents := s.incidents + noted)
  }

  /**
   One call of AvatarService.Upload: put, insert, publish. A failed put ends the handler; a failed insert leads
   to the removal of the original; a failed publish leads to DeleteHard and then the removal, whatever
   DeleteHard returned.
   */
  function UploadStep(s: State, id: Id, ok: bool, newId: MsgId): (t: State)
    requires id in s.uploaders && id in s.born
    ensures s.incidents <= t.incidents && t.born == s.born && t.deleters == s.deleters
  {
    var b := s.born[id];
    match s.uploaders[id]
    case Putting => if ok then OriginalPut(s, id, b) else UploaderGone(s, id, {})
    case Inserting => if ok && id !in s.rows then RowInserted(s, id, b) else UploaderAt(s, id, Removing, {})
    case Publishing =>
      if !ok then UploaderAt(s, id, Undoing, {})
      else if newId in s.uploads then s
      else UploadPublished(s, id, b, newId)
    case Undoing =>
      if ok && id in s.rows then RowUndone(s, id) else UploaderAt(s, id, Removing, {DeleteHardFailed(id)})
    case Removing => if ok then OriginalRemoved(s, id, b) else UploaderGone(s, id, {RemoveFailed(b.key)})
  }

  // ---------- delete handler ----------

  /** GetByID or GetLatestByUser, and the ownership check. */
  predicate MayDelete(s: State, id: Id, actor: string) {
    id in s.rows && !s.rows[id].deleted && s.rows[id].user == actor
  }

  function DeleterAt(s: State, h: nat, d: Deleter): (t: State)
    ensures t.incidents == s.incidents && t.born == s.born && t.rows == s.rows && t.objects == s.objects
  {
    s.(deleters := s.deleters[h := d])
  }

  function DeleterGone(s: State, h: nat, noted: set<Incident>): (t: State)
    ensures s.incidents <= t.incidents && t.born == s.born && t.rows == s.rows && t.objects == s.objects
  {
    s.(deleters := s.deleters - {h}, incidents := s.incidents + noted)
  }

  function SoftDeleted(s: State, h: nat, d: Deleter): (t: State)
    requires d.id in s.rows
    ensures t.incidents == s.incidents && t.born == s.born && t.objects == s.objects
  {
    s.(rows := s.rows[d.id := s.rows[d.id].(deleted := true)],
       deleters := s.deleters[h := d.(pc := Announcing)])
  }

  function DeleteAnnounced(s: State, h: nat, d: Deleter, newId: MsgId): (t: State)
    ensures s.incidents <= t.incidents && t.born == s.born && t.rows == s.rows && t.objects == s.objects
  {
    s.(deletes := s.deletes[newId := DeleteMsg(d.id, d.keys, 0, Main)],
       announced := s.announced + {d.id},
       deleters := s.deleters - {h},
       incidents := s.incidents + if d.id in s.rows && AllKeys(s.rows[d.id]) != d.keys then {StaleKeyList(d.id)}
         else {})
  }

  function RowRestored(s: State, h: nat, d: Deleter): (t: State)
    requires d.id in s.rows
    ensures s.incidents <= t.incidents && t.born == s.born && t.objects == s.objects
  {
    s.(rows := s.rows[d.id := s.rows[d.id].(deleted := false)],
       deleters := s.deleters - {h},
       incidents := s.incidents
                    + if d.id in s.ackedDeleted && s.rows[d.id].status != Completed then {DroppedYetLive(d.id)} else {})
  }

  /**
   One call of deleteAvatarWithPublish: SoftDelete, which takes effect on a live row only; publish; and after a
   failed publish RestoreSoftDeleted, which takes effect on a soft-deleted row only.
   */
  function DeleteStep(s: State, h: nat, ok: bool, newId: MsgId): (t: State)
    requires h in s.deleters
    ensures s.incidents <= t.incidents && t.born == s.born && t.objects == s.objects
  {
    var d := s.deleters[h];
    match d.pc
    case SoftDeleting =>
      if ok && d.id in s.rows && !s.rows[d.id].deleted then SoftDeleted(s, h, d) else DeleterGone(s, h, {})
    case Announcing =>
      if !ok then DeleterAt(s, h, d.(pc := Restoring))
      else if newId in s.deletes then s
      else DeleteAnnounced(s, h, d, newId)
    case Restoring =>
      if ok && d.id in s.rows && s.rows[d.id].deleted then RowRestored(s, h, d)
      else DeleterGone(s, h, if ok then {} else {RestoreFailed(d.id)})
  }

  // ---------- thumbnail job ----------

  function ThePlan(cfg: Config): seq<Variant> {
    Plan(cfg.catalog.sizes)
  }

  function CompletedRow(cfg: Config, a: Avatar, id: Id, img: Image): Avatar {
    a.(thumbs := Some(FullMap(cfg.catalog.sizes, id)), dimensions := Some((img.width, img.height)), status := Completed)
  }

  function JobAt(s: State, m: MsgId, pc: JobPc): (t: State)
    ensures t.incidents == s.incidents && t.born == s.born && t.rows == s.rows && t.deleters == s.deleters
    ensures t.objects == s.objects
  {
    s.(jobs := s.jobs[m := pc])
  }

  function ThumbnailPut(s: State, m: MsgId, k: ObjectKey, data: Bytes, n: nat, img: Image): (t: State)
    ensures t.incidents == s.incidents && t.born == s.born && t.rows == s.rows && t.deleters == s.deleters
  {
    s.(objects := s.objects[k := data], jobs := s.jobs[m := Filling(n + 1, img)])
  }

  function RowCompleted(cfg: Config, s: State, m: MsgId, id: Id, img: Image): (t: State)
    requires id in s.rows
    ensures t.incidents == s.incidents && t.born == s.born && t.deleters == s.deleters && t.objects == s.objects
  {
    s.(rows := s.rows[id := CompletedRow(cfg, s.rows[id], id, img)], jobs := s.jobs[m := Acking(Finished)])
  }

  function ThumbnailRemoved(s: State, m: MsgId, todo: set<ObjectKey>, k: ObjectKey): (t: State)
    ensures t.incidents == s.incidents && t.born == s.born && t.rows == s.rows && t.deleters == s.deleters
  {
    s.(objects := s.objects - {k}, jobs := s.jobs[m := RollingBack(todo - {k})])
  }

  function ThumbnailLeft(s: State, m: MsgId, todo: set<ObjectKey>, k: ObjectKey): (t: State)
    ensures s.incidents <= t.incidents && t.born == s.born && t.rows == s.rows && t.deleters == s.deleters
    ensures t.objects == s.objects
  {
    s.(jobs := s.jobs[m := RollingBack(todo - {k})], incidents := s.incidents + {RemoveFailed(k)})
  }

  function RowFailed(s: State, m: MsgId, id: Id): (t: State)
    requires id in s.rows
    ensures t.incidents == s.incidents && t.born == s.born && t.deleters == s.deleters && t.objects == s.objects
  {
    s.(rows := s.rows[id := s.rows[id].(status := Failed)], jobs := s.jobs[m := Requeueing])
  }

  function UploadRequeued(s: State, m: MsgId, copy: UploadMsg, newId: MsgId): (t: State)
    ensures t.incidents == s.incidents && t.born == s.born && t.rows == s.rows && t.deleters == s.deleters
    ensures t.objects == s.objects
  {
    s.(uploads := s.uploads[newId := copy], jobs := s.jobs[m := Acking(Copied)])
  }

  /** GetByIDIncludingDeleted and the three early returns. */
  function JobRead(s: State, m: MsgId, id: Id, ok: bool): (t: State)
    ensures t.incidents == s.incidents && t.born == s.born && t.rows == s.rows && t.deleters == s.deleters
    ensures t.objects == s.objects
  {
    if !ok then JobAt(s, m, Requeueing)
    else if id !in s.rows then JobAt(s, m, Acking(Finished))
    else if s.rows[id].deleted then JobAt(s, m, Acking(Dropped))
    else if s.rows[id].status == Completed then JobAt(s, m, Acking(Finished))
    else JobAt(s, m, Loading)
  }

  /** GetObject, ReadAll and Decode of the original named by the message. */
  function JobLoad(cfg: Config, s: State, m: MsgId, key: ObjectKey, ok: bool): (t: State)
    ensures t.incidents == s.incidents && t.born == s.born && t.rows == s.rows && t.deleters == s.deleters
    ensures t.objects == s.objects
  {
    if !ok || key !in s.objects then JobAt(s, m, RollingBack({}))
    else match cfg.codec.decode(s.objects[key])
      case None => JobAt(s, m, RollingBack({}))
      case Some(img) => JobAt(s, m, Filling(0, img))
  }

  /** One turn of the nested loops: fill, encode, put. */
  function JobPut(cfg: Config, s: State, m: MsgId, id: Id, n: nat, img: Image, ok: bool): (t: State)
    requires n < |ThePlan(cfg)|
    ensures t.incidents == s.incidents && t.born == s.born && t.rows == s.rows && t.deleters == s.deleters
  {
    var v := ThePlan(cfg)[n];
    match cfg.codec.encode(cfg.codec.fill(img, Side(cfg.catalog, v.size)), v.format)
    case None => JobAt(s, m, RollingBack(PlanKeys(ThePlan(cfg), id, n)))
    case Some(data) =>
      if ok then ThumbnailPut(s, m, Thumbnail(id, v.size, v.format), data, n, img)
      else JobAt(s, m, RollingBack(PlanKeys(ThePlan(cfg), id, n)))
  }

  /**
   One call of ProcessAvatarUpload and of the worker around it. UpdateProcessingResult and SetProcessingStatus
   take effect on a live row only, and a failed SetProcessingStatus is ignored. The rollback may visit its keys
   in any order. A failed job publishes its message onwards before the delivery is acknowledged.
   */
  function JobStep(cfg: Config, s: State, m: MsgId, ok: bool, pick: ObjectKey, newId: MsgId): (t: State)
    requires m in s.jobs && m in s.uploads
    ensures s.incidents <= t.incidents && t.born == s.born && t.deleters == s.deleters
  {
    var msg := s.uploads[m];
    var live := msg.id in s.rows && !s.rows[msg.id].deleted;
    match s.jobs[m]
    case Reading => JobRead(s, m, msg.id, ok)
    case Loading => JobLoad(cfg, s, m, msg.key, ok)
    case Filling(n, img) =>
      if n < |ThePlan(cfg)| then JobPut(cfg, s, m, msg.id, n, img, ok)
      else if ok && live then RowCompleted(cfg, s, m, msg.id, img)
      else JobAt(s, m, RollingBack(PlanKeys(ThePlan(cfg), msg.id, |ThePlan(cfg)|)))
    case RollingBack(todo) =>
      if todo == {} then JobAt(s, m, MarkingFailed)
      else if pick !in todo then s
      else if ok then ThumbnailRemoved(s, m, todo, pick)
      else ThumbnailLeft(s, m, todo, pick)
    case MarkingFailed => if ok && live then RowFailed(s, m, msg.id) else JobAt(s, m, Requeueing)
    case Requeueing =>
      var stop := NextStop(cfg.uploadDelays, msg.count);
      if !ok then JobAt(s, m, Acking(Refused(PublishFailed)))
      else if stop == MissingQueue then JobAt(s, m, Acking(Refused(QueueMissing)))
      else if newId in s.uploads then s
      else UploadRequeued(s, m, UploadForward(msg, stop), newId)
    case Acking(how) => UploadAcked(s, m, msg.id, how)
  }

  /** The copy republishOrDLQ sends: the count goes up on the way to a retry queue only. */
  function UploadForward(msg: UploadMsg, stop: Stop): UploadMsg
    requires stop != MissingQueue
  {
    match stop
    case DeadLetter => msg.(place := Dlq)
    case RetryQueue(i) => msg.(place := Retry(i), count := msg.count + 1)
  }

  // ---------- upload messages ----------

  /** A job that has taken the row for unfinished and not yet settled its status. */
  predicate Working(pc: JobPc) {
    pc.Loading? || pc.Filling? || pc.RollingBack? || pc.MarkingFailed?
  }

  /** A job that has not yet come to what becomes of its message. */
  predicate AtWork(pc: JobPc) {
    pc.Reading? || Working(pc)
  }

  predicate Busy(uploads: map<MsgId, UploadMsg>, jobs: map<MsgId, JobPc>, id: Id) {
    exists m | m in jobs :: m in uploads && uploads[m].id == id && AtWork(jobs[m])
  }

  function DeliveryNotes(uploads: map<MsgId, UploadMsg>, jobs: map<MsgId, JobPc>, id: Id): set<Incident> {
    if Busy(uploads, jobs, id) then {Overlapped(id)} else {}
  }

  function UploadDelivered(s: State, m: MsgId): (t: State)
    requires m in s.uploads
    ensures s.incidents <= t.incidents && t.born == s.born && t.rows == s.rows && t.deleters == s.deleters
    ensures t.objects == s.objects
  {
    s.(uploads := s.uploads[m := s.uploads[m].(place := InFlight)], jobs := s.jobs[m := Reading],
       incidents := s.incidents + DeliveryNotes(s.uploads, s.jobs, s.uploads[m].id))
  }

  /** The avatars a settled message leaves without processing because their row is soft-deleted. */
  function AckDrops(rows: map<Id, Avatar>, id: Id, how: Settlement): set<Id> {
    if how == Dropped && id in rows && rows[id].deleted then {id} else {}
  }

  /**
   What the settlement of an upload message loses: it is recorded only now that no crash can bring the message
   back.
   */
  function AckNotes(rows: map<Id, Avatar>, id: Id, how: Settlement): set<Incident> {
    match how
    case Finished => {}
    case Copied => {}
    case Dropped => if id in rows && !rows[id].deleted && rows[id].status != Completed then {DroppedYetLive(id)} else {}
    case Refused(cause) => {UploadMessageLost(id, cause)}
  }

  function UploadAcked(s: State, m: MsgId, id: Id, how: Settlement): (t: State)
    ensures s.incidents <= t.incidents && t.born == s.born && t.rows == s.rows && t.deleters == s.deleters
    ensures t.objects == s.objects
  {
    s.(uploads := s.uploads - {m}, jobs := s.jobs - {m},
       ackedDeleted := s.ackedDeleted + AckDrops(s.rows, id, how),
       incidents := s.incidents + AckNotes(s.rows, id, how))
  }

  /** What a dying worker leaves behind: thumbnails nobody rolls back, or a message published twice. */
  function JobCrashNotes(id: Id, pc: JobPc): set<Incident> {
    match pc
    case Filling(n, _) => if n > 0 then {JobCrashed(id)} else {}
    case RollingBack(todo) => if todo != {} then {JobCrashed(id)} else {}
    case Acking(how) => if how == Copied then {Duplicated(id)} else {}
    case _ => {}
  }

  /** The worker dies: the broker puts the unacknowledged message back. */
  function JobDied(s: State, m: MsgId, noted: set<Incident>): (t: State)
    requires m in s.uploads
    ensures s.incidents <= t.incidents && t.born == s.born && t.rows == s.rows && t.deleters == s.deleters
    ensures t.objects == s.objects
  {
    s.(jobs := s.jobs - {m}, uploads := s.uploads[m := s.uploads[m].(place := Main)], incidents := s.incidents + noted)
  }

  /** The connection is lost while the job goes on: the broker delivers the message again. */
  function UploadRedelivered(s: State, m: MsgId, newId: MsgId): (t: State)
    requires m in s.uploads
    ensures s.incidents <= t.incidents && t.born == s.born && t.rows == s.rows && t.deleters == s.deleters
    ensures t.objects == s.objects
  {
    s.(uploads := s.uploads[newId := s.uploads[m].(place := Main)],
      incidents := s.incidents + {Duplicated(s.uploads[m].id)})
  }

  /** The message's time to live in a retry queue runs out. */
  function UploadExpired(s: State, m: MsgId): (t: State)
    requires m in s.uploads
    ensures t.incidents == s.incidents && t.born == s.born && t.rows == s.rows && t.deleters == s.deleters
    ensures t.objects == s.objects
  {
    s.(uploads := s.uploads[m := s.uploads[m].(place := Main)])
  }

  // ---------- cleanup job and delete messages ----------

  function CleanerAt(s: State, m: MsgId, pc: CleanPc): (t: State)
    ensures t.incidents == s.incidents && t.born == s.born && t.rows == s.rows && t.deleters == s.deleters
    ensures t.objects == s.objects
  {
    s.(cleaners := s.cleaners[m := pc])
  }

  function KeyCleaned(s: State, m: MsgId, todo: set<ObjectKey>, failed: bool, k: ObjectKey): (t: State)
    ensures t.incidents == s.incidents && t.born == s.born && t.rows == s.rows && t.deleters == s.deleters
  {
    s.(objects := s.objects - {k}, cleaners := s.cleaners[m := Cleaning(todo - {k}, failed)])
  }

  function DeleteForwarded(s: State, m: MsgId, copy: DeleteMsg, newId: MsgId): (t: State)
    ensures t.incidents == s.incidents && t.born == s.born && t.rows == s.rows && t.deleters == s.deleters
    ensures t.objects == s.objects
  {
    s.(deletes := s.deletes[newId := copy], cleaners := s.cleaners[m := Settling(Copied)])
  }

  function DeleteNotes(id: Id, how: Settlement): set<Incident> {
    if how.Refused? then {DeleteMessageLost(id, how.cause)} else {}
  }

  function DeleteSettled(s: State, m: MsgId, id: Id, how: Settlement): (t: State)
    ensures s.incidents <= t.incidents && t.born == s.born && t.rows == s.rows && t.deleters == s.deleters
    ensures t.objects == s.objects
  {
    s.(deletes := s.deletes - {m}, cleaners := s.cleaners - {m}, incidents := s.incidents + DeleteNotes(id, how))
  }

  function DeleteForward(msg: DeleteMsg, stop: Stop): DeleteMsg
    requires stop != MissingQueue
  {
    match stop
    case DeadLetter => msg.(place := Dlq)
    case RetryQueue(i) => msg.(place := Retry(i), count := msg.count + 1)
  }

  /**
   One call of ProcessAvatarDelete and of the worker around it: every listed key is tried, in any order, and a
   failure of any of them sends the whole list round again.
   */
  function CleanStep(cfg: Config, s: State, m: MsgId, ok: bool, pick: ObjectKey, newId: MsgId): (t: State)
    requires m in s.cleaners && m in s.deletes
    ensures s.incidents <= t.incidents && t.born == s.born && t.rows == s.rows
  {
    var msg := s.deletes[m];
    match s.cleaners[m]
    case Cleaning(todo, failed) =>
      if todo == {} then CleanerAt(s, m, if failed then Forwarding else Settling(Finished))
      else if pick !in todo then s
      else if ok then KeyCleaned(s, m, todo, failed, pick)
      else CleanerAt(s, m, Cleaning(todo - {pick}, true))
    case Forwarding =>
      var stop := NextStop(cfg.deleteDelays, msg.count);
      if !ok then CleanerAt(s, m, Settling(Refused(PublishFailed)))
      else if stop == MissingQueue then CleanerAt(s, m, Settling(Refused(QueueMissing)))
      else if newId in s.deletes then s
      else DeleteForwarded(s, m, DeleteForward(msg, stop), newId)
    case Settling(how) => DeleteSettled(s, m, msg.id, how)
  }

  function DeleteDelivered(s: State, m: MsgId): (t: State)
    requires m in s.deletes
    ensures t.incidents == s.incidents && t.born == s.born && t.rows == s.rows && t.deleters == s.deleters
    ensures t.objects == s.objects
  {
    s.(deletes := s.deletes[m := s.deletes[m].(place := InFlight)],
      cleaners := s.cleaners[m := Cleaning(s.deletes[m].keys, false)])
  }

  function CleanerDied(s: State, m: MsgId): (t: State)
    requires m in s.deletes
    ensures t.incidents == s.incidents && t.born == s.born && t.rows == s.rows && t.deleters == s.deleters
    ensures t.objects == s.objects
  {
    s.(cleaners := s.cleaners - {m}, deletes := s.deletes[m := s.deletes[m].(place := Main)])
  }

  function DeleteRedelivered(s: State, m: MsgId, newId: MsgId): (t: State)
    requires m in s.deletes
    ensures t.incidents == s.incidents && t.born == s.born && t.rows == s.rows && t.deleters == s.deleters
    ensures t.objects == s.objects
  {
    s.(deletes := s.deletes[newId := s.deletes[m].(place := Main)])
  }

  function DeleteExpired(s: State, m: MsgId): (t: State)
    requires m in s.deletes
    ensures t.incidents == s.incidents && t.born == s.born && t.rows == s.rows && t.deleters == s.deleters
    ensures t.objects == s.objects
  {
    s.(deletes := s.deletes[m := s.deletes[m].(place := Main)])
  }

  // ---------- the whole system ----------

  function Apply(cfg: Config, s: State, e: Event): (t: State)
    ensures s.incidents <= t.incidents
  {
    match e
    case StartUpload(id, user, mime, body, created) =>
      if id in s.born then s else Conceived(s, id, Birth(user, mime, OriginalKeyFor(user, id, mime), body, created))
    case UploadCall(id, ok, newId) => if id in s.uploaders && id in s.born then UploadStep(s, id, ok, newId) else s
    case CrashUpload(id) =>
      if id !in s.uploaders then s
      else UploaderGone(s, id, if s.uploaders[id] == Putting then {} else {UploadCrashed(id)})
    case StartDelete(h, id, actor) =>
      if h in s.deleters || !MayDelete(s, id, actor) then s
      else DeleterAt(s, h, Deleter(id, AllKeys(s.rows[id]), SoftDeleting))
    case DeleteCall(h, ok, newId) => if h in s.deleters then DeleteStep(s, h, ok, newId) else s
    case CrashDelete(h) =>
      if h !in s.deleters then s
      else DeleterGone(s, h, if s.deleters[h].pc == SoftDeleting then {} else {DeleteCrashed(s.deleters[h].id)})
    case DeliverUpload(m) => if m in s.uploads && s.uploads[m].place == Main then UploadDelivered(s, m) else s
    case JobCall(m, ok, pick, newId) => if m in s.jobs && m in s.uploads then JobStep(cfg, s, m, ok, pick, newId) else s
    case CrashJob(m) =>
      if m in s.jobs && m in s.uploads then JobDied(s, m, JobCrashNotes(s.uploads[m].id, s.jobs[m])) else s
    case RedeliverUpload(m, newId) =>
      if m in s.jobs && m in s.uploads && newId !in s.uploads then UploadRedelivered(s, m, newId) else s
    case ExpireUpload(m) => if m in s.uploads && s.uploads[m].place.Retry? then UploadExpired(s, m) else s
    case DeliverDelete(m) => if m in s.deletes && s.deletes[m].place == Main then DeleteDelivered(s, m) else s
    case CleanCall(m, ok, pick, newId) =>
      if m in s.cleaners && m in s.deletes then CleanStep(cfg, s, m, ok, pick, newId) else s
    case CrashClean(m) => if m in s.cleaners && m in s.deletes then CleanerDied(s, m) else s
    case RedeliverDelete(m, newId) =>
      if m in s.cleaners && m in s.deletes && newId !in s.deletes then DeleteRedelivered(s, m, newId) else s
    case ExpireDelete(m) => if m in s.deletes && s.deletes[m].place.Retry? then DeleteExpired(s, m) else s
  }

  function Run(cfg: Config, s: State, es: seq<Event>): State
    decreases |es|
  {
    if es == [] then s else Apply(cfg, Run(cfg, s, es[..|es| - 1]), es[|es| - 1])
  }

  /** What can happen from the start. */
  function History(cfg: Config, es: seq<Event>): State {
    Run(cfg, EMPTY, es)
  }

  lemma {:induction false} RunConcat(cfg: Config, s: State, es: seq<Event>, fs: seq<Event>)
    ensures Run(cfg, s, es + fs) == Run(cfg, Run(cfg, s, es), fs)
    decreases |fs|
  {
    hide Apply;
    if fs == [] {
      assert es + fs == es;
    } else {
      assert (es + fs)[..|es + fs| - 1] == es + fs[..|fs| - 1];
      RunConcat(cfg, s, es, fs[..|fs| - 1]);
    }
  }
}
