/**
 The three stores as the handlers use them. Each call takes the outcome of its I/O (`ok`): a call that fails has no
 effect. The statements of the avatars table carry their WHERE clauses.
 */
module Stores {
  import opened Wrappers
  import opened Keys
  import opened Rendering
  import opened Avatars
  import opened Lifecycle

  datatype RepoError = NotFound | Unavailable

  predicate OwnedAndLive(rows: map<Id, Avatar>, user: string, id: Id) {
    id in rows && rows[id].user == user && !rows[id].deleted
  }

  /** A live row of the user, and none of their live rows was created later. */
  predicate Latest(rows: map<Id, Avatar>, user: string, id: Id) {
    && OwnedAndLive(rows, user, id)
    && forall x | x in rows && OwnedAndLive(rows, user, x) :: rows[x].created <= rows[id].created
  }

  /** Among finitely many rows one of the latest is found by going from any row to a later one. */
  lemma {:induction false} LatestExists(rows: map<Id, Avatar>, user: string, id: Id, among: set<Id>)
    requires OwnedAndLive(rows, user, id)
    requires forall x | OwnedAndLive(rows, user, x) && rows[x].created > rows[id].created :: x in among
    ensures exists y | y in rows :: Latest(rows, user, y)
    decreases |among|
  {
    if x :| x in rows && OwnedAndLive(rows, user, x) && rows[x].created > rows[id].created {
      LatestExists(rows, user, x, among - {x});
    } else {
      assert Latest(rows, user, id);
    }
  }

  /** Rows and their guarded statements (AvatarRepository). */
  class AvatarTable {
    var rows: map<Id, Avatar>

    constructor ()
      ensures rows == map[]
    {
      rows := map[];
    }

    /** The primary key refuses an id that is already there. */
    method Insert(id: Id, a: Avatar, ok: bool) returns (r: Result<(), RepoError>)
      modifies this
      ensures r.Success? <==> ok && id !in old(rows)
      ensures rows == if r.Success? then old(rows)[id := a] else old(rows)
    {
      if !ok || id in rows { return Failure(Unavailable); }
      rows := rows[id := a];
      return Success(());
    }

    method DeleteHard(id: Id, ok: bool) returns (r: Result<(), RepoError>)
      modifies this
      ensures r.Success? <==> ok && id in old(rows)
      ensures rows == if ok then old(rows) - {id} else old(rows)
    {
      if !ok { return Failure(Unavailable); }
      var found := id in rows;
      rows := rows - {id};
      return if found then Success(()) else Failure(NotFound);
    }

    method GetByID(id: Id, ok: bool) returns (r: Result<Avatar, RepoError>)
      ensures r.Success? <==> ok && id in rows && !rows[id].deleted
      ensures r.Success? ==> r.value == rows[id]
      ensures r.Failure? ==> (r.error == Unavailable <==> !ok)
    {
      if !ok { return Failure(Unavailable); }
      if id in rows && !rows[id].deleted { return Success(rows[id]); }
      return Failure(NotFound);
    }

    method GetByIDIncludingDeleted(id: Id, ok: bool) returns (r: Result<Avatar, RepoError>)
      ensures r.Success? <==> ok && id in rows
      ensures r.Success? ==> r.value == rows[id]
      ensures r.Failure? ==> (r.error == Unavailable <==> !ok)
    {
      if !ok { return Failure(Unavailable); }
      if id in rows { return Success(rows[id]); }
      return Failure(NotFound);
    }

    /** WHERE user_id = $1 AND deleted_at IS NULL ORDER BY created_at DESC LIMIT 1; ties are broken in any way. */
    method GetLatestByUser(user: string, ok: bool) returns (r: Result<Id, RepoError>)
      ensures r.Success? <==> ok && exists id | id in rows :: OwnedAndLive(rows, user, id)
      ensures r.Success? ==> Latest(rows, user, r.value)
      ensures r.Failure? ==> (r.error == Unavailable <==> !ok)
    {
      if !ok { return Failure(Unavailable); }
      if id :| id in rows && Latest(rows, user, id) { return Success(id); }
      if id :| id in rows && OwnedAndLive(rows, user, id) { LatestExists(rows, user, id, rows.Keys); }
      return Failure(NotFound);
    }

    /** WHERE id = $1 AND user_id = $2 AND deleted_at IS NULL. */
    method SoftDelete(id: Id, user: string, ok: bool) returns (r: Result<(), RepoError>)
      modifies this
      ensures r.Success? <==> ok && id in old(rows) && old(rows)[id].user == user && !old(rows)[id].deleted
      ensures rows == if r.Success? then old(rows)[id := old(rows)[id].(deleted := true)] else old(rows)
      ensures r.Failure? ==> (r.error == Unavailable <==> !ok)
    {
      if !ok { return Failure(Unavailable); }
      if id in rows && rows[id].user == user && !rows[id].deleted {
        rows := rows[id := rows[id].(deleted := true)];
        return Success(());
      }
      return Failure(NotFound);
    }

    /** WHERE id = $1 AND user_id = $2 AND deleted_at IS NOT NULL. */
    method RestoreSoftDeleted(id: Id, user: string, ok: bool) returns (r: Result<(), RepoError>)
      modifies this
      ensures r.Success? <==> ok && id in old(rows) && old(rows)[id].user == user && old(rows)[id].deleted
      ensures rows == if r.Success? then old(rows)[id := old(rows)[id].(deleted := false)] else old(rows)
      ensures r.Failure? ==> (r.error == Unavailable <==> !ok)
    {
      if !ok { return Failure(Unavailable); }
      if id in rows && rows[id].user == user && rows[id].deleted {
        rows := rows[id := rows[id].(deleted := false)];
        return Success(());
      }
      return Failure(NotFound);
    }

    /** WHERE id = $1 AND deleted_at IS NULL. */
    method UpdateProcessingResult(id: Id, width: nat, height: nat, thumbs: ThumbMap, status: Status, ok: bool)
      returns (r: Result<(), RepoError>)
      modifies this
      ensures r.Success? <==> ok && id in old(rows) && !old(rows)[id].deleted
      ensures rows ==
        if r.Success?
        then old(rows)[id := old(rows)[id].(thumbs := Some(thumbs), dimensions := Some((width, height)),
          status := status)]
        else old(rows)
    {
      if !ok { return Failure(Unavailable); }
      if id in rows && !rows[id].deleted {
        rows := rows[id := rows[id].(thumbs := Some(thumbs), dimensions := Some((width, height)), status := status)];
        return Success(());
      }
      return Failure(NotFound);
    }

    /** WHERE id = $1 AND deleted_at IS NULL. */
    method SetProcessingStatus(id: Id, status: Status, ok: bool) returns (r: Result<(), RepoError>)
      modifies this
      ensures r.Success? <==> ok && id in old(rows) && !old(rows)[id].deleted
      ensures rows == if r.Success? then old(rows)[id := old(rows)[id].(status := status)] else old(rows)
    {
      if !ok { return Failure(Unavailable); }
      if id in rows && !rows[id].deleted {
        rows := rows[id := rows[id].(status := status)];
        return Success(());
      }
      return Failure(NotFound);
    }
  }

  /** The object store (ObjectStorage). */
  class ObjectStore {
    var objects: map<ObjectKey, Bytes>

    constructor ()
      ensures objects == map[]
    {
      objects := map[];
    }

    method PutObject(k: ObjectKey, body: Bytes, ok: bool) returns (done: bool)
      modifies this
      ensures done == ok
      ensures objects == if ok then old(objects)[k := body] else old(objects)
    {
      if ok { objects := objects[k := body]; }
      return ok;
    }

    method GetObject(k: ObjectKey, ok: bool) returns (r: Option<Bytes>)
      ensures r == if ok && k in objects then Some(objects[k]) else None
    {
      return if ok && k in objects then Some(objects[k]) else None;
    }

    /** Removing a missing object succeeds. */
    method RemoveObject(k: ObjectKey, ok: bool) returns (done: bool)
      modifies this
      ensures done == ok
      ensures objects == if ok then old(objects) - {k} else old(objects)
    {
      if ok { objects := objects - {k}; }
      return ok;
    }
  }

  /** The publishing side of the broker: the messages in the main queues and everywhere behind them. */
  class EventPublisher {
    var uploads: map<MsgId, UploadMsg>
    var deletes: map<MsgId, DeleteMsg>

    constructor ()
      ensures uploads == map[] && deletes == map[]
    {
      uploads, deletes := map[], map[];
    }

    method PublishUpload(id: Id, key: ObjectKey, newId: MsgId, ok: bool) returns (done: bool)
      requires newId !in uploads
      modifies this
      ensures done == ok && deletes == old(deletes)
      ensures uploads == if ok then old(uploads)[newId := UploadMsg(id, key, 0, Main)] else old(uploads)
    {
      if ok { uploads := uploads[newId := UploadMsg(id, key, 0, Main)]; }
      return ok;
    }

    method PublishDelete(id: Id, keys: set<ObjectKey>, newId: MsgId, ok: bool) returns (done: bool)
      requires newId !in deletes
      modifies this
      ensures done == ok && uploads == old(uploads)
      ensures deletes == if ok then old(deletes)[newId := DeleteMsg(id, keys, 0, Main)] else old(deletes)
    {
      if ok { deletes := deletes[newId := DeleteMsg(id, keys, 0, Main)]; }
      return ok;
    }
  }
}
