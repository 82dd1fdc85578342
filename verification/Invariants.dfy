/**
 The inductive invariant of the avatar lifecycle. Each clause reads only the components it is about, so a step
 that leaves those components alone keeps the clause.
 */
module Invariants {
  import opened Wrappers
  import opened Keys
  import opened Catalogs
  import opened Rendering
  import opened Avatars
  import opened Routing
  import opened Lifecycle

  // ---------- who answers for an object ----------

  predicate RowClaims(rows: map<Id, Avatar>, k: ObjectKey) {
    k.Avatar?() && k.id in rows && !rows[k.id].deleted && k in AllKeys(rows[k.id])
  }

  predicate UploaderClaims(uploaders: map<Id, UploadPc>, born: map<Id, Birth>, k: ObjectKey) {
    k.Avatar?() && k.id in uploaders && uploaders[k.id] != Putting && k.id in born && born[k.id].key == k
  }

  /**
   Past its soft delete a handler answers for the keys it will list, and for those its row would list again if
   restored.
   */
  predicate Holds(d: Deleter, rows: map<Id, Avatar>, k: ObjectKey) {
    d.pc != SoftDeleting && (k in d.keys || (d.id in rows && k in AllKeys(rows[d.id])))
  }

  predicate DeleterClaims(deleters: map<nat, Deleter>, rows: map<Id, Avatar>, k: ObjectKey) {
    exists h | h in deleters :: Holds(deleters[h], rows, k)
  }

  /** A delete message answers for the keys it lists, less those its cleanup job has already removed. */
  predicate Outstanding(msg: DeleteMsg, pc: Option<CleanPc>, k: ObjectKey) {
    && k in msg.keys
    && match pc
       case None => true
       case Some(Cleaning(todo, failed)) => failed || k in todo
       case Some(Forwarding) => true
       case Some(Settling(how)) => how.Refused?
  }

  function CleanerOf(cleaners: map<MsgId, CleanPc>, m: MsgId): Option<CleanPc> {
    if m in cleaners then Some(cleaners[m]) else None
  }

  predicate MessageClaims(deletes: map<MsgId, DeleteMsg>, cleaners: map<MsgId, CleanPc>, k: ObjectKey) {
    exists m | m in deletes :: Outstanding(deletes[m], CleanerOf(cleaners, m), k)
  }

  /** What a thumbnail job has put and not taken back: its uploadedKeys. */
  function UploadedKeys(cfg: Config, id: Id, pc: JobPc): set<ObjectKey> {
    match pc
    case Filling(n, _) => if n <= |ThePlan(cfg)| then PlanKeys(ThePlan(cfg), id, n) else {}
    case RollingBack(todo) => todo
    case _ => {}
  }

  predicate JobClaims(cfg: Config, uploads: map<MsgId, UploadMsg>, jobs: map<MsgId, JobPc>, k: ObjectKey) {
    exists m | m in jobs :: m in uploads && k in UploadedKeys(cfg, uploads[m].id, jobs[m])
  }

  /** Who answers for an object of an avatar that has a row. */
  predicate Claimed(cfg: Config, s: State, k: ObjectKey) {
    || RowClaims(s.rows, k)
    || DeleterClaims(s.deleters, s.rows, k)
    || MessageClaims(s.deletes, s.cleaners, k)
    || JobClaims(cfg, s.uploads, s.jobs, k)
  }

  /** The failures that can leave an object of an avatar with a row with nobody to answer for it. */
  predicate Excused(incidents: set<Incident>, k: ObjectKey) {
    && k.Avatar?()
    && (|| RemoveFailed(k) in incidents
        || RestoreFailed(k.id) in incidents
        || DeleteCrashed(k.id) in incidents
        || DeleteMessageLost(k.id, PublishFailed) in incidents
        || DeleteMessageLost(k.id, QueueMissing) in incidents
        || (k.Thumbnail? && (StaleKeyList(k.id) in incidents || JobCrashed(k.id) in incidents)))
  }

  // ---------- well-formedness ----------

  ghost predicate BornOk(born: map<Id, Birth>) {
    forall id | id in born :: born[id].key == OriginalKeyFor(born[id].user, id, born[id].mime)
  }

  /** What the decoder says of the size of an uploaded image. */
  function DimensionsOf(cfg: Config, body: Bytes): Option<(nat, nat)> {
    match cfg.codec.decode(body)
    case None => None
    case Some(img) => Some((img.width, img.height))
  }

  predicate RowOk(cfg: Config, id: Id, row: Avatar, b: Birth) {
    && row.user == b.user && row.mime == b.mime && row.key == b.key && row.created == b.created
    && (row.status == Completed ==> row.thumbs != None)
    && (row.thumbs == None || row.thumbs == Some(FullMap(cfg.catalog.sizes, id)))
    && row.dimensions == (if row.thumbs == None then None else DimensionsOf(cfg, b.body))
    && (row.thumbs != None ==> row.dimensions != None)
  }

  ghost predicate RowsOk(cfg: Config, rows: map<Id, Avatar>, born: map<Id, Birth>) {
    forall id | id in rows :: id in born && RowOk(cfg, id, rows[id], born[id])
  }

  ghost predicate UploadersOk(uploaders: map<Id, UploadPc>, rows: map<Id, Avatar>, born: map<Id, Birth>,
                              incidents: set<Incident>) {
    forall id | id in uploaders ::
      && id in born
      && match uploaders[id]
         case Putting => id !in rows
         case Inserting => id !in rows
         case Publishing => id in rows && rows[id].status == Pending && rows[id].thumbs == None
         case Undoing => id in rows && rows[id].status == Pending && rows[id].thumbs == None
         case Removing =>
           id in rows ==> rows[id].status == Pending && rows[id].thumbs == None && DeleteHardFailed(id) in incidents
  }

  /** Until its row is inserted an avatar has no delete handler, and once put its original is there. */
  ghost predicate EarlyOk(uploaders: map<Id, UploadPc>, deleters: map<nat, Deleter>, announced: set<Id>,
                          objects: map<ObjectKey, Bytes>, born: map<Id, Birth>) {
    forall id | id in uploaders && (uploaders[id] == Putting || uploaders[id] == Inserting) ::
      && id !in announced
      && (forall h | h in deleters :: deleters[h].id != id)
      && (uploaders[id] == Inserting && id in born ==> born[id].key in objects)
  }

  /** Every object is what it should be: the uploaded bytes, or the render of them. */
  predicate Genuine(cfg: Config, k: ObjectKey, data: Bytes, b: Birth) {
    match k
    case Original(_, _, _) => k == b.key && data == b.body
    case Thumbnail(_, size, format) =>
      RenderThumbnail(cfg.codec, cfg.catalog, b.body, Variant(size, format)) == Some(data)
    case _ => false
  }

  ghost predicate ObjectsOk(cfg: Config, objects: map<ObjectKey, Bytes>, born: map<Id, Birth>) {
    forall k | k in objects :: k.Avatar?() && k.id in born && Genuine(cfg, k, objects[k], born[k.id])
  }

  ghost predicate NoEarlyThumbnails(objects: map<ObjectKey, Bytes>, uploaders: map<Id, UploadPc>) {
    forall k | k in objects :: k.Thumbnail? ==> k.id !in uploaders
  }

  ghost predicate UploadsOk(uploads: map<MsgId, UploadMsg>, rows: map<Id, Avatar>, born: map<Id, Birth>,
                            uploaders: map<Id, UploadPc>) {
    forall m | m in uploads ::
      && uploads[m].id in rows && uploads[m].id in born && uploads[m].key == born[uploads[m].id].key
      && uploads[m].id !in uploaders
  }

  ghost predicate JobsOk(cfg: Config, jobs: map<MsgId, JobPc>, uploads: map<MsgId, UploadMsg>, born: map<Id, Birth>) {
    && (forall m | m in jobs :: m in uploads && uploads[m].place == InFlight)
    && (forall m | m in uploads && uploads[m].place == InFlight :: m in jobs)
    && (forall m | m in jobs && m in uploads && uploads[m].id in born ::
      JobOk(cfg, jobs[m], uploads[m].id, born[uploads[m].id]))
  }

  predicate JobOk(cfg: Config, pc: JobPc, id: Id, b: Birth) {
    match pc
    case Filling(n, img) => n <= |ThePlan(cfg)| && cfg.codec.decode(b.body) == Some(img)
    case RollingBack(todo) => todo <= PlanKeys(ThePlan(cfg), id, |ThePlan(cfg)|)
    case _ => true
  }

  function KeysOf(cfg: Config, id: Id, b: Birth): set<ObjectKey> {
    {b.key} + PlanKeys(ThePlan(cfg), id, |ThePlan(cfg)|)
  }

  lemma KeysNameTheirAvatar(cfg: Config, id: Id, b: Birth, k: ObjectKey)
    requires b.key == OriginalKeyFor(b.user, id, b.mime)
    requires k in KeysOf(cfg, id, b)
    ensures k.Avatar?() && k.id == id
  {
    hide Plan, SanitizePathSegment;
  }

  ghost predicate DeletersOk(cfg: Config, deleters: map<nat, Deleter>, rows: map<Id, Avatar>, born: map<Id, Birth>,
                             announced: set<Id>) {
    && (forall h | h in deleters ::
          && deleters[h].id in born
          && born[deleters[h].id].key in deleters[h].keys
          && (deleters[h].keys == {born[deleters[h].id].key}
            || deleters[h].keys == KeysOf(cfg, deleters[h].id, born[deleters[h].id]))
          && (deleters[h].id in rows ==> deleters[h].keys <= AllKeys(rows[deleters[h].id])))
    && (forall h | h in deleters && deleters[h].pc != SoftDeleting ::
          && (deleters[h].id in rows ==> rows[deleters[h].id].deleted)
          && deleters[h].id !in announced)
    && (forall h, h' | h in deleters && h' in deleters && h != h' && deleters[h].pc != SoftDeleting
      && deleters[h'].pc != SoftDeleting ::
          deleters[h].id != deleters[h'].id)
  }

  /** An avatar with a delete event is never live again. */
  ghost predicate AnnouncedOk(announced: set<Id>, rows: map<Id, Avatar>, born: map<Id, Birth>) {
    forall id | id in announced :: id in born && (id in rows ==> rows[id].deleted)
  }

  ghost predicate DeletesOk(cfg: Config, deletes: map<MsgId, DeleteMsg>, cleaners: map<MsgId, CleanPc>,
                            announced: set<Id>, born: map<Id, Birth>) {
    && (forall m | m in deletes ::
          && deletes[m].id in announced && deletes[m].id in born
          && deletes[m].keys <= KeysOf(cfg, deletes[m].id, born[deletes[m].id]))
    && (forall m | m in cleaners :: m in deletes && deletes[m].place == InFlight)
    && (forall m | m in deletes && deletes[m].place == InFlight :: m in cleaners)
    && (forall m | m in cleaners && m in deletes && cleaners[m].Cleaning? :: cleaners[m].todo <= deletes[m].keys)
  }

  /** What a delete handler holds are its avatar's keys. */
  lemma HeldKeysNameTheirAvatar(cfg: Config, s: State, h: nat, k: ObjectKey)
    requires BornOk(s.born) && RowsOk(cfg, s.rows, s.born)
    requires DeletersOk(cfg, s.deleters, s.rows, s.born, s.announced)
    requires h in s.deleters && Holds(s.deleters[h], s.rows, k)
    ensures k.Avatar?() && k.id == s.deleters[h].id
  {
    hide Plan, SanitizePathSegment, FullMap, OriginalKeyFor, ThumbKeys, PlanKeys;
    var d := s.deleters[h];
    FullMapKeys(cfg.catalog.sizes, d.id);
    NoThumbKeys();
    assert k in KeysOf(cfg, d.id, s.born[d.id]);
    KeysNameTheirAvatar(cfg, d.id, s.born[d.id], k);
  }

  lemma NoThumbKeys()
    ensures ThumbKeys(None) == {}
  {
  }

  /** What the row of a soft-deleted avatar lists and its delete event does not are thumbnails. */
  lemma AnnouncedOrStale(cfg: Config, s: State, h: nat, k: ObjectKey)
    requires BornOk(s.born) && RowsOk(cfg, s.rows, s.born)
    requires DeletersOk(cfg, s.deleters, s.rows, s.born, s.announced)
    requires h in s.deleters && Holds(s.deleters[h], s.rows, k) && k !in s.deleters[h].keys
    ensures k.Thumbnail? && k.id == s.deleters[h].id
    ensures s.deleters[h].id in s.rows && AllKeys(s.rows[s.deleters[h].id]) != s.deleters[h].keys
  {
    hide Plan, SanitizePathSegment, FullMap, OriginalKeyFor, PlanKeys;
    HeldKeysNameTheirAvatar(cfg, s, h, k);
    FullMapKeys(cfg.catalog.sizes, s.deleters[h].id);
    if k in PlanKeys(ThePlan(cfg), s.deleters[h].id, |ThePlan(cfg)|) { ThumbnailsOnly(cfg, s.deleters[h].id, k); }
  }

  /** A delete handler whose list is not its row's lists the original alone, and the row has a key map. */
  lemma StaleMeansOriginalOnly(cfg: Config, s: State, h: nat)
    requires BornOk(s.born) && RowsOk(cfg, s.rows, s.born)
    requires DeletersOk(cfg, s.deleters, s.rows, s.born, s.announced)
    requires h in s.deleters && s.deleters[h].id in s.rows && AllKeys(s.rows[s.deleters[h].id]) != s.deleters[h].keys
    ensures s.rows[s.deleters[h].id].thumbs.Some? && s.deleters[h].keys == {s.rows[s.deleters[h].id].key}
  {
    hide Plan, SanitizePathSegment, FullMap, OriginalKeyFor, PlanKeys;
    FullMapKeys(cfg.catalog.sizes, s.deleters[h].id);
  }

  /** Before a handler announces a deletion there is no delete event of the avatar. */
  lemma NoEarlierEvent(cfg: Config, s: State, h: nat)
    requires DeletersOk(cfg, s.deleters, s.rows, s.born, s.announced)
    requires DeletesOk(cfg, s.deletes, s.cleaners, s.announced, s.born)
    requires h in s.deleters && s.deleters[h].pc != SoftDeleting
    ensures s.deleters[h].id !in s.announced
    ensures forall m | m in s.deletes :: s.deletes[m].id != s.deleters[h].id
  {
    hide KeysOf;
  }

  /** A delete handler lists keys of its avatar. */
  lemma ListedKeys(cfg: Config, s: State, h: nat)
    requires DeletersOk(cfg, s.deleters, s.rows, s.born, s.announced)
    requires h in s.deleters
    ensures s.deleters[h].id in s.born
    ensures s.deleters[h].keys <= KeysOf(cfg, s.deleters[h].id, s.born[s.deleters[h].id])
  {
  }

  /** A message that is not there has no cleanup job. */
  lemma NoCleanerYet(cfg: Config, s: State, m: MsgId)
    requires DeletesOk(cfg, s.deletes, s.cleaners, s.announced, s.born)
    requires m !in s.deletes
    ensures m !in s.cleaners
  {
    hide KeysOf;
  }

  /** Completing a row gives it the dimensions and the key map its upload asks for. */
  lemma CompletedRowOk(cfg: Config, id: Id, row: Avatar, b: Birth, img: Image)
    requires RowOk(cfg, id, row, b) && cfg.codec.decode(b.body) == Some(img)
    ensures RowOk(cfg, id, CompletedRow(cfg, row, id, img), b)
  {
    hide FullMap;
  }

  /** Completing a row takes no key out of its list. */
  lemma CompletionAddsKeys(cfg: Config, row: Avatar, id: Id, b: Birth, img: Image)
    requires RowOk(cfg, id, row, b)
    ensures AllKeys(row) <= AllKeys(CompletedRow(cfg, row, id, img))
    ensures PlanKeys(ThePlan(cfg), id, |ThePlan(cfg)|) <= AllKeys(CompletedRow(cfg, row, id, img))
  {
    hide Plan, FullMap, PlanKeys;
    FullMapKeys(cfg.catalog.sizes, id);
  }

  /** A first delete event of an avatar, with a list that is stale or not. */
  lemma StaleGrows(rows: map<Id, Avatar>, deletes: map<MsgId, DeleteMsg>, announced: set<Id>, incidents: set<Incident>,
                   noted: set<Incident>, newId: MsgId, msg: DeleteMsg)
    requires StaleOk(rows, deletes, announced, incidents)
    requires newId !in deletes && msg.id !in announced && forall m | m in deletes :: deletes[m].id != msg.id
    requires noted == {} || noted == {StaleKeyList(msg.id)}
    requires noted != {} ==> msg.id in rows && rows[msg.id].thumbs.Some? && msg.keys == {rows[msg.id].key}
    ensures StaleOk(rows, deletes[newId := msg], announced + {msg.id}, incidents + noted)
  {
  }

  lemma ThumbnailsOnly(cfg: Config, id: Id, k: ObjectKey)
    requires k in PlanKeys(ThePlan(cfg), id, |ThePlan(cfg)|)
    ensures k.Thumbnail?
  {
    hide Plan;
  }

  // ---------- the properties ----------

  ghost predicate OriginalsOk(objects: map<ObjectKey, Bytes>, rows: map<Id, Avatar>, announced: set<Id>,
                              incidents: set<Incident>) {
    forall id | id in rows && id !in announced :: rows[id].key in objects || DeleteHardFailed(id) in incidents
  }

  ghost predicate Covered(cfg: Config, s: State) {
    forall k | k in s.objects && k.Avatar?() && k.id in s.rows :: Claimed(cfg, s, k) || Excused(s.incidents, k)
  }

  /** An avatar without a row has at most objects its upload handler answers for. */
  ghost predicate Rowless(objects: map<ObjectKey, Bytes>, rows: map<Id, Avatar>, uploaders: map<Id, UploadPc>,
                          born: map<Id, Birth>, incidents: set<Incident>) {
    forall k | k in objects && k.Avatar?() && k.id !in rows ::
      UploaderClaims(uploaders, born, k) || RemoveFailed(k) in incidents || UploadCrashed(k.id) in incidents
  }

  /**
   An upload message that is still going to be handled, is parked in the dead-letter queue, or is not yet lost for
   good.
   */
  predicate Waiting(uploads: map<MsgId, UploadMsg>, jobs: map<MsgId, JobPc>, m: MsgId, id: Id) {
    m in uploads && uploads[m].id == id && (m in jobs ==> jobs[m] != Acking(Finished) && jobs[m] != Acking(Copied))
  }

  predicate Carried(uploads: map<MsgId, UploadMsg>, jobs: map<MsgId, JobPc>, id: Id) {
    exists m | m in uploads :: Waiting(uploads, jobs, m, id)
  }

  /** The failures that can leave a live row unprocessed with no message. */
  predicate Abandoned(incidents: set<Incident>, id: Id) {
    || UploadCrashed(id) in incidents
    || DeleteHardFailed(id) in incidents
    || UploadMessageLost(id, PublishFailed) in incidents
    || UploadMessageLost(id, QueueMissing) in incidents
    || DroppedYetLive(id) in incidents
  }

  predicate Attended(id: Id, row: Avatar, uploaders: map<Id, UploadPc>, uploads: map<MsgId, UploadMsg>,
                     jobs: map<MsgId, JobPc>, ackedDeleted: set<Id>, incidents: set<Incident>) {
    || row.status == Completed
    || id in uploaders
    || Carried(uploads, jobs, id)
    || Abandoned(incidents, id)
    || (row.deleted && id in ackedDeleted)
  }

  ghost predicate AllAttended(rows: map<Id, Avatar>, uploaders: map<Id, UploadPc>, uploads: map<MsgId, UploadMsg>,
                              jobs: map<MsgId, JobPc>, ackedDeleted: set<Id>, incidents: set<Incident>) {
    forall id | id in rows :: Attended(id, rows[id], uploaders, uploads, jobs, ackedDeleted, incidents)
  }

  /** A message whose handling is still its avatar's own: not one already published onwards. */
  predicate Carrier(uploads: map<MsgId, UploadMsg>, jobs: map<MsgId, JobPc>, m: MsgId) {
    m in uploads && (m in jobs ==> jobs[m] != Acking(Copied))
  }

  ghost predicate SingleCarrier(uploads: map<MsgId, UploadMsg>, jobs: map<MsgId, JobPc>, incidents: set<Incident>) {
    forall m, m' | m != m' && Carrier(uploads, jobs, m) && Carrier(uploads, jobs, m')
      && uploads[m].id == uploads[m'].id ::
      Duplicated(uploads[m].id) in incidents
  }

  /** The message of an avatar has been handled for the last time without completing it, or will never be sent. */
  predicate Over(ackedDeleted: set<Id>, incidents: set<Incident>, id: Id) {
    id in ackedDeleted || Abandoned(incidents, id)
  }

  /** An avatar that is over has no message left, unless it was delivered twice. */
  ghost predicate OverOk(uploads: map<MsgId, UploadMsg>, jobs: map<MsgId, JobPc>, ackedDeleted: set<Id>,
                         incidents: set<Incident>) {
    forall m | Carrier(uploads, jobs, m) ::
      Over(ackedDeleted, incidents, uploads[m].id) ==> Duplicated(uploads[m].id) in incidents
  }

  /** And it has no handler that will send one. */
  ghost predicate NoLateUploader(uploaders: map<Id, UploadPc>, ackedDeleted: set<Id>, incidents: set<Incident>) {
    forall id | id in uploaders :: Over(ackedDeleted, incidents, id) ==> uploaders[id] == Removing
  }

  /** What is recorded is about avatars that were uploaded. */
  ghost predicate RecordsOk(born: map<Id, Birth>, ackedDeleted: set<Id>, incidents: set<Incident>) {
    && (forall id | id in ackedDeleted :: id in born)
    && (forall i | i in incidents
      && (i.UploadCrashed? || i.DeleteHardFailed? || i.UploadMessageLost? || i.DroppedYetLive?) :: i.id in born)
  }

  /** A key map on a row means the row is completed, unless a second job has undone that. */
  ghost predicate ThumbsOk(rows: map<Id, Avatar>, incidents: set<Incident>) {
    forall id | id in rows && rows[id].thumbs.Some? :: rows[id].status == Completed || Overlapped(id) in incidents
  }

  /** After a delete event with a stale key list the row lists its thumbnails, and no delete event does. */
  ghost predicate StaleOk(rows: map<Id, Avatar>, deletes: map<MsgId, DeleteMsg>, announced: set<Id>,
                          incidents: set<Incident>) {
    forall id | StaleKeyList(id) in incidents ::
      && id in announced && id in rows && rows[id].thumbs.Some?
      && (forall m | m in deletes && deletes[m].id == id :: deletes[m].keys == {rows[id].key})
  }

  /** These thumbnails are in the store. */
  ghost predicate StaleStored(cfg: Config, objects: map<ObjectKey, Bytes>, incidents: set<Incident>) {
    forall id | StaleKeyList(id) in incidents && Overlapped(id) !in incidents ::
      PlanKeys(ThePlan(cfg), id, |ThePlan(cfg)|) <= objects.Keys
  }

  /** Jobs at work on the same avatar overlap. */
  ghost predicate AloneOk(uploads: map<MsgId, UploadMsg>, jobs: map<MsgId, JobPc>, incidents: set<Incident>) {
    forall m, m' | m in jobs && m' in jobs && m in uploads && m' in uploads && m != m'
      && uploads[m].id == uploads[m'].id && AtWork(jobs[m]) && AtWork(jobs[m']) ::
      Overlapped(uploads[m].id) in incidents
  }

  /** Jobs overlap only on a message that has a second copy. */
  ghost predicate OverlapsOk(incidents: set<Incident>) {
    forall id | Overlapped(id) in incidents :: Duplicated(id) in incidents
  }

  ghost predicate WorkingOk(jobs: map<MsgId, JobPc>, uploads: map<MsgId, UploadMsg>, rows: map<Id, Avatar>,
                            incidents: set<Incident>) {
    forall m | m in jobs && m in uploads && Working(jobs[m]) && uploads[m].id in rows ::
      rows[uploads[m].id].status != Completed || Overlapped(uploads[m].id) in incidents
  }

  /** The thumbnails of a completed row, and those of a job under way, are in the store. */
  ghost predicate RowsStored(cfg: Config, rows: map<Id, Avatar>, objects: map<ObjectKey, Bytes>, announced: set<Id>,
                             incidents: set<Incident>) {
    forall id | id in rows && rows[id].status == Completed && id !in announced && Overlapped(id) !in incidents ::
      PlanKeys(ThePlan(cfg), id, |ThePlan(cfg)|) <= objects.Keys
  }

  ghost predicate JobsStored(cfg: Config, jobs: map<MsgId, JobPc>, uploads: map<MsgId, UploadMsg>,
                             objects: map<ObjectKey, Bytes>, announced: set<Id>, incidents: set<Incident>) {
    forall m | m in jobs && m in uploads && jobs[m].Filling? && uploads[m].id !in announced
      && Overlapped(uploads[m].id) !in incidents ::
      UploadedKeys(cfg, uploads[m].id, jobs[m]) <= objects.Keys
  }

  predicate Missed(i: Incident) {
    (i.UploadMessageLost? || i.DeleteMessageLost?) && i.cause == QueueMissing
  }

  /** With every retry delay declared, no message fails into a queue that is not there. */
  ghost predicate QueuesOk(cfg: Config, jobs: map<MsgId, JobPc>, cleaners: map<MsgId, CleanPc>,
                           incidents: set<Incident>) {
    AllDeclared(cfg.uploadDelays) && AllDeclared(cfg.deleteDelays) ==>
      && (forall m | m in jobs :: jobs[m] != Acking(Refused(QueueMissing)))
      && (forall m | m in cleaners :: cleaners[m] != Settling(Refused(QueueMissing)))
      && (forall i | i in incidents :: !Missed(i))
  }

  // ---------- all together ----------

  /** The clauses of the invariant. */
  datatype Clause =
    | BornClause | RowsClause | UploadersClause | EarlyClause | DeletersClause
    | AnnouncedClause | UploadsClause | JobsClause | DeletesClause | ObjectsClause
    | NoEarlyClause | OriginalsClause | RowlessClause | CoveredClause | AttendedClause
    | SingleClause | WorkingClause | RowsStoredClause | JobsStoredClause | OverClause
    | LateClause | RecordsClause | ThumbsClause | StaleClause | StaleStoredClause
    | QueuesClause | AloneClause | OverlapsClause

  ghost predicate Sat(c: Clause, cfg: Config, s: State) {
    match c
    case BornClause => BornOk(s.born)
    case RowsClause => RowsOk(cfg, s.rows, s.born)
    case UploadersClause => UploadersOk(s.uploaders, s.rows, s.born, s.incidents)
    case EarlyClause => EarlyOk(s.uploaders, s.deleters, s.announced, s.objects, s.born)
    case DeletersClause => DeletersOk(cfg, s.deleters, s.rows, s.born, s.announced)
    case AnnouncedClause => AnnouncedOk(s.announced, s.rows, s.born)
    case UploadsClause => UploadsOk(s.uploads, s.rows, s.born, s.uploaders)
    case JobsClause => JobsOk(cfg, s.jobs, s.uploads, s.born)
    case DeletesClause => DeletesOk(cfg, s.deletes, s.cleaners, s.announced, s.born)
    case ObjectsClause => ObjectsOk(cfg, s.objects, s.born)
    case NoEarlyClause => NoEarlyThumbnails(s.objects, s.uploaders)
    case OriginalsClause => OriginalsOk(s.objects, s.rows, s.announced, s.incidents)
    case RowlessClause => Rowless(s.objects, s.rows, s.uploaders, s.born, s.incidents)
    case CoveredClause => Covered(cfg, s)
    case AttendedClause => AllAttended(s.rows, s.uploaders, s.uploads, s.jobs, s.ackedDeleted, s.incidents)
    case SingleClause => SingleCarrier(s.uploads, s.jobs, s.incidents)
    case WorkingClause => WorkingOk(s.jobs, s.uploads, s.rows, s.incidents)
    case RowsStoredClause => RowsStored(cfg, s.rows, s.objects, s.announced, s.incidents)
    case JobsStoredClause => JobsStored(cfg, s.jobs, s.uploads, s.objects, s.announced, s.incidents)
    case OverClause => OverOk(s.uploads, s.jobs, s.ackedDeleted, s.incidents)
    case LateClause => NoLateUploader(s.uploaders, s.ackedDeleted, s.incidents)
    case RecordsClause => RecordsOk(s.born, s.ackedDeleted, s.incidents)
    case ThumbsClause => ThumbsOk(s.rows, s.incidents)
    case StaleClause => StaleOk(s.rows, s.deletes, s.announced, s.incidents)
    case StaleStoredClause => StaleStored(cfg, s.objects, s.incidents)
    case QueuesClause => QueuesOk(cfg, s.jobs, s.cleaners, s.incidents)
    case AloneClause => AloneOk(s.uploads, s.jobs, s.incidents)
    case OverlapsClause => OverlapsOk(s.incidents)
  }

  ghost predicate Inv(cfg: Config, s: State) {
    forall c: Clause :: Sat(c, cfg, s)
  }

  lemma FirstClauses(cfg: Config, s: State)
    requires Inv(cfg, s)
    ensures BornOk(s.born)
    ensures RowsOk(cfg, s.rows, s.born)
    ensures UploadersOk(s.uploaders, s.rows, s.born, s.incidents)
    ensures EarlyOk(s.uploaders, s.deleters, s.announced, s.objects, s.born)
    ensures DeletersOk(cfg, s.deleters, s.rows, s.born, s.announced)
    ensures AnnouncedOk(s.announced, s.rows, s.born)
    ensures UploadsOk(s.uploads, s.rows, s.born, s.uploaders)
  {
    hide BornOk, RowsOk, UploadersOk, EarlyOk, DeletersOk, AnnouncedOk, UploadsOk;
    assert Sat(BornClause, cfg, s);
    assert Sat(RowsClause, cfg, s);
    assert Sat(UploadersClause, cfg, s);
    assert Sat(EarlyClause, cfg, s);
    assert Sat(DeletersClause, cfg, s);
    assert Sat(AnnouncedClause, cfg, s);
    assert Sat(UploadsClause, cfg, s);
  }

  lemma SecondClauses(cfg: Config, s: State)
    requires Inv(cfg, s)
    ensures JobsOk(cfg, s.jobs, s.uploads, s.born)
    ensures DeletesOk(cfg, s.deletes, s.cleaners, s.announced, s.born)
    ensures ObjectsOk(cfg, s.objects, s.born)
    ensures NoEarlyThumbnails(s.objects, s.uploaders)
    ensures OriginalsOk(s.objects, s.rows, s.announced, s.incidents)
    ensures Rowless(s.objects, s.rows, s.uploaders, s.born, s.incidents)
    ensures Covered(cfg, s)
  {
    hide JobsOk, DeletesOk, ObjectsOk, NoEarlyThumbnails, OriginalsOk, Rowless, Covered;
    assert Sat(JobsClause, cfg, s);
    assert Sat(DeletesClause, cfg, s);
    assert Sat(ObjectsClause, cfg, s);
    assert Sat(NoEarlyClause, cfg, s);
    assert Sat(OriginalsClause, cfg, s);
    assert Sat(RowlessClause, cfg, s);
    assert Sat(CoveredClause, cfg, s);
  }

  lemma ThirdClauses(cfg: Config, s: State)
    requires Inv(cfg, s)
    ensures AllAttended(s.rows, s.uploaders, s.uploads, s.jobs, s.ackedDeleted, s.incidents)
    ensures SingleCarrier(s.uploads, s.jobs, s.incidents)
    ensures WorkingOk(s.jobs, s.uploads, s.rows, s.incidents)
    ensures RowsStored(cfg, s.rows, s.objects, s.announced, s.incidents)
    ensures JobsStored(cfg, s.jobs, s.uploads, s.objects, s.announced, s.incidents)
    ensures OverOk(s.uploads, s.jobs, s.ackedDeleted, s.incidents)
    ensures NoLateUploader(s.uploaders, s.ackedDeleted, s.incidents)
  {
    hide AllAttended, SingleCarrier, WorkingOk, RowsStored, JobsStored, OverOk, NoLateUploader;
    assert Sat(AttendedClause, cfg, s);
    assert Sat(SingleClause, cfg, s);
    assert Sat(WorkingClause, cfg, s);
    assert Sat(RowsStoredClause, cfg, s);
    assert Sat(JobsStoredClause, cfg, s);
    assert Sat(OverClause, cfg, s);
    assert Sat(LateClause, cfg, s);
  }

  lemma FourthClauses(cfg: Config, s: State)
    requires Inv(cfg, s)
    ensures RecordsOk(s.born, s.ackedDeleted, s.incidents)
    ensures ThumbsOk(s.rows, s.incidents)
    ensures StaleOk(s.rows, s.deletes, s.announced, s.incidents)
    ensures StaleStored(cfg, s.objects, s.incidents)
  {
    hide RecordsOk, ThumbsOk, StaleOk, StaleStored;
    assert Sat(RecordsClause, cfg, s);
    assert Sat(ThumbsClause, cfg, s);
    assert Sat(StaleClause, cfg, s);
    assert Sat(StaleStoredClause, cfg, s);
  }

  lemma FifthClauses(cfg: Config, s: State)
    requires Inv(cfg, s)
    ensures QueuesOk(cfg, s.jobs, s.cleaners, s.incidents)
    ensures AloneOk(s.uploads, s.jobs, s.incidents)
    ensures OverlapsOk(s.incidents)
  {
    hide QueuesOk, AloneOk, OverlapsOk;
    assert Sat(QueuesClause, cfg, s);
    assert Sat(AloneClause, cfg, s);
    assert Sat(OverlapsClause, cfg, s);
  }

  /** The invariant, clause by clause. */
  lemma Clauses(cfg: Config, s: State)
    requires Inv(cfg, s)
    ensures BornOk(s.born)
    ensures RowsOk(cfg, s.rows, s.born)
    ensures UploadersOk(s.uploaders, s.rows, s.born, s.incidents)
    ensures EarlyOk(s.uploaders, s.deleters, s.announced, s.objects, s.born)
    ensures DeletersOk(cfg, s.deleters, s.rows, s.born, s.announced)
    ensures AnnouncedOk(s.announced, s.rows, s.born)
    ensures UploadsOk(s.uploads, s.rows, s.born, s.uploaders)
    ensures JobsOk(cfg, s.jobs, s.uploads, s.born)
    ensures DeletesOk(cfg, s.deletes, s.cleaners, s.announced, s.born)
    ensures ObjectsOk(cfg, s.objects, s.born)
    ensures NoEarlyThumbnails(s.objects, s.uploaders)
    ensures OriginalsOk(s.objects, s.rows, s.announced, s.incidents)
    ensures Rowless(s.objects, s.rows, s.uploaders, s.born, s.incidents)
    ensures Covered(cfg, s)
    ensures AllAttended(s.rows, s.uploaders, s.uploads, s.jobs, s.ackedDeleted, s.incidents)
    ensures SingleCarrier(s.uploads, s.jobs, s.incidents)
    ensures WorkingOk(s.jobs, s.uploads, s.rows, s.incidents)
    ensures RowsStored(cfg, s.rows, s.objects, s.announced, s.incidents)
    ensures JobsStored(cfg, s.jobs, s.uploads, s.objects, s.announced, s.incidents)
    ensures OverOk(s.uploads, s.jobs, s.ackedDeleted, s.incidents)
    ensures NoLateUploader(s.uploaders, s.ackedDeleted, s.incidents)
    ensures RecordsOk(s.born, s.ackedDeleted, s.incidents)
    ensures ThumbsOk(s.rows, s.incidents)
    ensures StaleOk(s.rows, s.deletes, s.announced, s.incidents)
    ensures StaleStored(cfg, s.objects, s.incidents)
    ensures QueuesOk(cfg, s.jobs, s.cleaners, s.incidents)
    ensures AloneOk(s.uploads, s.jobs, s.incidents)
    ensures OverlapsOk(s.incidents)
  {
    hide Inv, Sat, BornOk, RowsOk, UploadersOk, EarlyOk, DeletersOk, AnnouncedOk, UploadsOk, JobsOk, DeletesOk,
      ObjectsOk, NoEarlyThumbnails, OriginalsOk, Rowless, Covered, AllAttended, SingleCarrier, WorkingOk, RowsStored,
      JobsStored, OverOk, NoLateUploader, RecordsOk, ThumbsOk, StaleOk, StaleStored, QueuesOk, AloneOk, OverlapsOk;
    FirstClauses(cfg, s);
    SecondClauses(cfg, s);
    ThirdClauses(cfg, s);
    FourthClauses(cfg, s);
    FifthClauses(cfg, s);
  }

  lemma FromClauses(cfg: Config, s: State)
    requires BornOk(s.born)
    requires RowsOk(cfg, s.rows, s.born)
    requires UploadersOk(s.uploaders, s.rows, s.born, s.incidents)
    requires EarlyOk(s.uploaders, s.deleters, s.announced, s.objects, s.born)
    requires DeletersOk(cfg, s.deleters, s.rows, s.born, s.announced)
    requires AnnouncedOk(s.announced, s.rows, s.born)
    requires UploadsOk(s.uploads, s.rows, s.born, s.uploaders)
    requires JobsOk(cfg, s.jobs, s.uploads, s.born)
    requires DeletesOk(cfg, s.deletes, s.cleaners, s.announced, s.born)
    requires ObjectsOk(cfg, s.objects, s.born)
    requires NoEarlyThumbnails(s.objects, s.uploaders)
    requires OriginalsOk(s.objects, s.rows, s.announced, s.incidents)
    requires Rowless(s.objects, s.rows, s.uploaders, s.born, s.incidents)
    requires Covered(cfg, s)
    requires AllAttended(s.rows, s.uploaders, s.uploads, s.jobs, s.ackedDeleted, s.incidents)
    requires SingleCarrier(s.uploads, s.jobs, s.incidents)
    requires WorkingOk(s.jobs, s.uploads, s.rows, s.incidents)
    requires RowsStored(cfg, s.rows, s.objects, s.announced, s.incidents)
    requires JobsStored(cfg, s.jobs, s.uploads, s.objects, s.announced, s.incidents)
    requires OverOk(s.uploads, s.jobs, s.ackedDeleted, s.incidents)
    requires NoLateUploader(s.uploaders, s.ackedDeleted, s.incidents)
    requires RecordsOk(s.born, s.ackedDeleted, s.incidents)
    requires ThumbsOk(s.rows, s.incidents)
    requires StaleOk(s.rows, s.deletes, s.announced, s.incidents)
    requires StaleStored(cfg, s.objects, s.incidents)
    requires QueuesOk(cfg, s.jobs, s.cleaners, s.incidents)
    requires AloneOk(s.uploads, s.jobs, s.incidents)
    requires OverlapsOk(s.incidents)
    ensures Inv(cfg, s)
  {
    hide BornOk, RowsOk, UploadersOk, EarlyOk, DeletersOk, AnnouncedOk, UploadsOk, JobsOk, DeletesOk, ObjectsOk,
      NoEarlyThumbnails, OriginalsOk, Rowless, Covered, AllAttended, SingleCarrier, WorkingOk, RowsStored, JobsStored,
      OverOk, NoLateUploader, RecordsOk, ThumbsOk, StaleOk, StaleStored, QueuesOk, AloneOk, OverlapsOk;
  }

  // ---------- when the moves of one actor are in order ----------

  predicate UploaderMayMove(s: State, id: Id, pc: UploadPc, noted: set<Incident>)
    requires id in s.uploaders
  {
    || (s.uploaders[id] == Inserting && pc == Removing && id !in s.rows && noted == {})
    || (s.uploaders[id] == Publishing && pc == Undoing && noted == {})
    || (s.uploaders[id] == Undoing && pc == Removing && noted == {DeleteHardFailed(id)})
  }

  predicate UploaderMayGo(s: State, id: Id, noted: set<Incident>)
    requires id in s.uploaders && id in s.born
  {
    || (s.uploaders[id] == Putting && noted == {})
    || noted == {UploadCrashed(id)}
    || (s.uploaders[id] == Removing && noted == {RemoveFailed(s.born[id].key)})
  }

  predicate DeleterMayGo(s: State, d: Deleter, noted: set<Incident>) {
    || (d.pc == SoftDeleting && noted == {})
    || noted == {DeleteCrashed(d.id)}
    || noted == {RestoreFailed(d.id)}
    || (d.id !in s.rows && noted == {})
  }

  predicate JobMayMove(cfg: Config, s: State, m: MsgId, pc: JobPc)
    requires m in s.jobs && m in s.uploads
  {
    var id := s.uploads[m].id;
    && !s.jobs[m].Acking? && pc != Acking(Copied)
    && (pc == Acking(Refused(QueueMissing)) ==> !AllDeclared(cfg.uploadDelays))
    && (pc == Acking(Finished) ==> id in s.rows ==> s.rows[id].status == Completed)
    && id in s.born && JobOk(cfg, pc, id, s.born[id])
    && (AtWork(pc) ==> AtWork(s.jobs[m]))
    && (Working(pc) ==> Working(s.jobs[m]) || (id in s.rows ==> s.rows[id].status != Completed))
    && UploadedKeys(cfg, id, s.jobs[m]) <= UploadedKeys(cfg, id, pc)
    && (pc.Filling? ==> UploadedKeys(cfg, id, pc) == {})
  }

  /** What a job puts next, if the encoder gives it anything. */
  function NextThumbnail(cfg: Config, n: nat, img: Image): Option<Bytes> {
    if n < |ThePlan(cfg)| then
      cfg.codec.encode(cfg.codec.fill(img, Side(cfg.catalog, ThePlan(cfg)[n].size)), ThePlan(cfg)[n].format)
    else None
  }

  function PlanKey(cfg: Config, id: Id, n: nat): ObjectKey
    requires n < |ThePlan(cfg)|
  {
    Thumbnail(id, ThePlan(cfg)[n].size, ThePlan(cfg)[n].format)
  }

  ghost predicate CleanerMayMove(cfg: Config, msg: DeleteMsg, was: CleanPc, pc: CleanPc) {
    && (pc.Cleaning? ==> pc.todo <= msg.keys)
    && (pc == Settling(Refused(QueueMissing)) ==> !AllDeclared(cfg.deleteDelays))
    && forall k :: Outstanding(msg, Some(was), k) ==> Outstanding(msg, Some(pc), k)
  }

  lemma EmptyInv(cfg: Config)
    ensures Inv(cfg, EMPTY)
  {
    hide AllDeclared;
    FromClauses(cfg, EMPTY);
  }
}
