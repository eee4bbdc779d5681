/**
  Session storage.  A DynamoDB table of session records keyed by session id is
  modelled as a map; the clock (`time.time()`), the id generator (`uuid4`) and
  the success or failure of each backend call are supplied by the caller.
  `NoOpSessionStore` keeps no state at all.
 */
module Session {
  import opened Wrappers
  import opened Values

  /** Session data: the free-form dict a session carries. */
  type Data = map<string, Json>

  /**
    One item of the table.  `expires_at`, `created_at` and `data` are optional
    because an update of an id with no item creates an item holding only `data`.
   */
  datatype Record = Record(expiresAt: Option<int>, createdAt: Option<int>, data: Option<Data>)

  type Table = map<string, Record>

  /** Sessions live for 24 hours. */
  const SessionLifetime: int := 24 * 60 * 60

  /** Python's `int()` of a float: truncation toward zero. */
  function Trunc(x: real): (n: int)
    ensures x >= 0.0 ==> n as real <= x < n as real + 1.0
    ensures x < 0.0 ==> n as real - 1.0 < x <= n as real
  {
    if x >= 0.0 then x.Floor else -((-x).Floor)
  }

  /** `item.get('expires_at', 0) < time.time()`: a record without an expiry counts as expired at 0. */
  predicate Expired(r: Record, now: real) {
    (r.expiresAt.GetOr(0) as real) < now
  }

  /** The item `create_session` writes at time `now`. */
  function NewRecord(sessionData: Option<Data>, now: real): (r: Record)
    ensures r.createdAt == Some(Trunc(now))
    ensures r.expiresAt == Some(Trunc(now) + SessionLifetime)
    ensures r.data.Some? && (sessionData.Some? ==> r.data.value == sessionData.value)
    ensures sessionData.None? ==> r.data == Some(map[])
  {
    Record(Some(Trunc(now) + SessionLifetime), Some(Trunc(now)), Some(sessionData.GetOr(map[])))
  }

  /** A freshly created session is live for the next 24 hours (up to the second it was created in) and expired after. */
  lemma NewSessionLifetime(sessionData: Option<Data>, created: real, later: real)
    requires created >= 0.0
    ensures created <= later <= (Trunc(created) + SessionLifetime) as real ==> !Expired(NewRecord(sessionData, created), later)
    ensures later > (Trunc(created) + SessionLifetime) as real ==> Expired(NewRecord(sessionData, created), later)
    ensures !Expired(NewRecord(sessionData, created), created)
  {
  }

  /** The table after `create_session` stores its item under `freshId`; a failed put raises and stores nothing. */
  function CreateSpec(t: Table, freshId: string, sessionData: Option<Data>, now: real, putOk: bool): (r: (Option<string>, Table))
    ensures putOk ==> r.0 == Some(freshId) && freshId in r.1 && r.1[freshId] == NewRecord(sessionData, now)
    ensures putOk ==> forall id :: id in t && id != freshId ==> id in r.1 && r.1[id] == t[id]
    ensures putOk ==> r.1.Keys == t.Keys + {freshId}
    ensures !putOk ==> r == (None, t)
  {
    if putOk then (Some(freshId), t[freshId := NewRecord(sessionData, now)]) else (None, t)
  }

  /** Creating a session under an id not yet in the table adds exactly one session. */
  lemma CreateAddsOneSession(t: Table, freshId: string, sessionData: Option<Data>, now: real)
    requires freshId !in t
    ensures |CreateSpec(t, freshId, sessionData, now, true).1.Keys| == |t.Keys| + 1
  {
    assert CreateSpec(t, freshId, sessionData, now, true).1.Keys == t.Keys + {freshId};
  }

  /** What `get_session` returns, and the table it leaves behind. */
  datatype Fetched = Fetched(data: Option<Data>, table: Table)

  /**
    `get_session`: a failing read gives `None`; an absent id gives `None`; an
    expired item is deleted (when the delete succeeds) and gives `None`; a live
    item gives its data, `{}` when it has none.
   */
  function GetSpec(t: Table, id: string, now: real, readOk: bool, deleteOk: bool): (r: Fetched)
    ensures r.data.Some? <==> readOk && id in t && !Expired(t[id], now)
    ensures r.data.Some? ==> r.data.value == t[id].data.GetOr(map[]) && r.table == t
    ensures readOk && id in t && Expired(t[id], now) && deleteOk ==> r.table == t - {id}
    ensures !(readOk && id in t && Expired(t[id], now) && deleteOk) ==> r.table == t
  {
    if !readOk || id !in t then Fetched(None, t)
    else if Expired(t[id], now) then Fetched(None, DeleteSpec(t, id, deleteOk).1)
    else Fetched(Some(t[id].data.GetOr(map[])), t)
  }

  /** A get never adds an item or changes one; at most it removes the item it looked up. */
  lemma GetOnlyRemovesItsOwnItem(t: Table, id: string, now: real, readOk: bool, deleteOk: bool)
    ensures var t' := GetSpec(t, id, now, readOk, deleteOk).table;
            t'.Keys <= t.Keys && t.Keys - t'.Keys <= {id} && forall k :: k in t' ==> t'[k] == t[k]
  {
  }

  /** Reading the same live session twice gives the same data, and the second read sees the table the first left. */
  lemma GetIsRepeatable(t: Table, id: string, now: real)
    requires id in t && !Expired(t[id], now)
    ensures var first := GetSpec(t, id, now, true, true);
            GetSpec(first.table, id, now, true, true) == first
  {
  }

  /** `update_session`: an upsert that replaces only `data`; a failing backend gives `False` and changes nothing. */
  function UpdateSpec(t: Table, id: string, sessionData: Data, ok: bool): (r: (bool, Table))
    ensures r.0 == ok
    ensures ok ==> id in r.1 && r.1[id].data == Some(sessionData)
    ensures ok && id in t ==> r.1[id].expiresAt == t[id].expiresAt && r.1[id].createdAt == t[id].createdAt
    ensures ok && id !in t ==> r.1[id].expiresAt.None? && r.1[id].createdAt.None?
    ensures forall k :: k in t && k != id ==> k in r.1 && r.1[k] == t[k]
    ensures r.1.Keys == if ok then t.Keys + {id} else t.Keys
  {
    if !ok then (false, t)
    else if id in t then (true, t[id := t[id].(data := Some(sessionData))])
    else (true, t[id := Record(None, None, Some(sessionData))])
  }

  /** An update of an id that had no item leaves an item that the next read treats as expired. */
  lemma UpdateOfMissingSessionDoesNotRevive(t: Table, id: string, sessionData: Data, now: real)
    requires id !in t && now > 0.0
    ensures GetSpec(UpdateSpec(t, id, sessionData, true).1, id, now, true, true).data.None?
  {
  }

  /** An update followed by a read of a live session returns the new data. */
  lemma UpdateThenGet(t: Table, id: string, sessionData: Data, now: real)
    requires id in t && !Expired(t[id], now)
    ensures GetSpec(UpdateSpec(t, id, sessionData, true).1, id, now, true, true).data == Some(sessionData)
  {
  }

  /** `delete_session`: no item is left under `id`; a failing backend gives `False` and changes nothing. */
  function DeleteSpec(t: Table, id: string, ok: bool): (r: (bool, Table))
    ensures r.0 == ok
    ensures ok ==> id !in r.1
    ensures forall k :: k in t && k != id ==> k in r.1 && r.1[k] == t[k]
    ensures r.1.Keys <= t.Keys
    ensures !ok ==> r.1 == t
  {
    if ok then (true, t - {id}) else (false, t)
  }

  /** Deleting twice is deleting once. */
  lemma DeleteIdempotent(t: Table, id: string)
    ensures DeleteSpec(DeleteSpec(t, id, true).1, id, true) == DeleteSpec(t, id, true)
  {
    assert (t - {id}) - {id} == t - {id};
  }

  /** After a delete, a read of that id finds nothing. */
  lemma DeleteThenGet(t: Table, id: string, now: real, deleteOk: bool)
    ensures GetSpec(DeleteSpec(t, id, true).1, id, now, true, deleteOk).data.None?
  {
  }

  /** The session store backed by a DynamoDB table. */
  class DynamoDBSessionStore {
    var table: Table

    constructor(initial: Table)
      ensures table == initial
    {
      table := initial;
    }

    /**
      `create_session`.  `freshId` stands for `str(uuid.uuid4())` and is not yet
      in the table; `now` is the clock; `putOk` says whether the put succeeds
      (when it does not, the exception propagates: the result is `None`).
     */
    method CreateSession(sessionData: Option<Data>, freshId: string, now: real, putOk: bool) returns (id: Option<string>)
      requires freshId !in table
      modifies this
      ensures (id, table) == CreateSpec(old(table), freshId, sessionData, now, putOk)
      ensures id.Some? ==> id.value !in old(table)
    {
      if !putOk {
        return None;
      }
      var item := NewRecord(sessionData, now);
      table := table[freshId := item];
      id := Some(freshId);
    }

    /** `get_session`, which deletes an item it finds expired. */
    method GetSession(id: string, now: real, readOk: bool, deleteOk: bool) returns (data: Option<Data>)
      modifies this
      ensures Fetched(data, table) == GetSpec(old(table), id, now, readOk, deleteOk)
    {
      if !readOk || id !in table {
        return None;
      }
      var item := table[id];
      if Expired(item, now) {
        var _ := DeleteSession(id, deleteOk);
        return None;
      }
      data := Some(item.data.GetOr(map[]));
    }

    /** `update_session`: `SET #data = :data` on the item, creating it if missing. */
    method UpdateSession(id: string, sessionData: Data, ok: bool) returns (updated: bool)
      modifies this
      ensures (updated, table) == UpdateSpec(old(table), id, sessionData, ok)
    {
      if !ok {
        return false;
      }
      if id in table {
        table := table[id := table[id].(data := Some(sessionData))];
      } else {
        table := table[id := Record(None, None, Some(sessionData))];
      }
      updated := true;
    }

    /** `delete_session`. */
    method DeleteSession(id: string, ok: bool) returns (deleted: bool)
      modifies this
      ensures (deleted, table) == DeleteSpec(old(table), id, ok)
    {
      if !ok {
        return false;
      }
      table := table - {id};
      deleted := true;
    }
  }

  /** A store that keeps nothing: every id has empty data and every write succeeds. */
  class NoOpSessionStore {

    constructor()
    {
    }

    /** `create_session`: a new id (`freshId` stands for `str(uuid.uuid4())`); nothing is stored. */
    method CreateSession(sessionData: Option<Data>, freshId: string) returns (id: string)
      ensures id == freshId
    {
      id := freshId;
    }

    /** `get_session`: `{}` for every id, so every id passes session validation. */
    method GetSession(id: string) returns (data: Option<Data>)
      ensures data == Some(map[])
    {
      data := Some(map[]);
    }

    method UpdateSession(id: string, sessionData: Data) returns (updated: bool)
      ensures updated
    {
      updated := true;
    }

    method DeleteSession(id: string) returns (deleted: bool)
      ensures deleted
    {
      deleted := true;
    }
  }
}
