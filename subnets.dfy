/**
 * The remote-subnet routes (server/src/routes/remote_subnets.py) over the `remote_subnets`
 * table: each user lists, adds, edits and removes only their own subnets to scan.
 */
module Subnets {
  import opened Wrappers
  import opened Http
  import opened Tables

  datatype RemoteSubnet = RemoteSubnet(
    id: int, userId: int, deviceId: Option<int>, subnet: string, description: Option<string>,
    enabled: bool, createdAt: int, lastScannedAt: Option<int>)

  /** The create body, already validated as CIDR notation by its schema. */
  datatype SubnetCreate = SubnetCreate(subnet: string, description: Option<string>, deviceId: Option<int>)

  /** The patch body: `None` means "leave this field alone". */
  datatype SubnetUpdate = SubnetUpdate(description: Option<string>, enabled: Option<bool>, deviceId: Option<int>)

  const AlreadyRegistered := "This subnet is already registered"
  const SubnetNotFound := "Subnet not found"

  function OwnedByUser(userId: int): RemoteSubnet -> bool
  {
    (s: RemoteSubnet) => s.userId == userId
  }

  function SameSubnet(userId: int, subnet: string): RemoteSubnet -> bool
  {
    (s: RemoteSubnet) => s.userId == userId && s.subnet == subnet
  }

  function Target(id: int, userId: int): RemoteSubnet -> bool
  {
    (s: RemoteSubnet) => s.id == id && s.userId == userId
  }

  predicate UniqueIds(rows: seq<RemoteSubnet>)
  {
    forall i, j :: 0 <= i < j < |rows| ==> rows[i].id != rows[j].id
  }

  /** No user holds the same subnet string twice: the rule `create` enforces. */
  predicate NoDuplicateSubnets(rows: seq<RemoteSubnet>)
  {
    forall i, j :: 0 <= i < j < |rows| ==> !(rows[i].userId == rows[j].userId && rows[i].subnet == rows[j].subnet)
  }

  /**
   * The patch: each field given a value takes it; `subnet`, `user_id`, the id and the
   * timestamps never change, and a device once set is never cleared.
   */
  function ApplyUpdate(s: RemoteSubnet, u: SubnetUpdate): (t: RemoteSubnet)
    ensures t.id == s.id && t.userId == s.userId && t.subnet == s.subnet
    ensures t.createdAt == s.createdAt && t.lastScannedAt == s.lastScannedAt
    ensures u.description.Some? ==> t.description == u.description
    ensures u.description.None? ==> t.description == s.description
    ensures u.enabled.Some? ==> t.enabled == u.enabled.value
    ensures u.enabled.None? ==> t.enabled == s.enabled
    ensures u.deviceId.Some? ==> t.deviceId == u.deviceId
    ensures u.deviceId.None? ==> t.deviceId == s.deviceId
    ensures s.deviceId.Some? ==> t.deviceId.Some?
  {
    var withDescription := if u.description.Some? then s.(description := u.description) else s;
    var withEnabled := if u.enabled.Some? then withDescription.(enabled := u.enabled.value) else withDescription;
    if u.deviceId.Some? then withEnabled.(deviceId := u.deviceId) else withEnabled
  }

  /** An empty patch changes nothing; patching twice with the same body is patching once. */
  lemma ApplyUpdateIdempotent(s: RemoteSubnet, u: SubnetUpdate)
    ensures ApplyUpdate(s, SubnetUpdate(None, None, None)) == s
    ensures ApplyUpdate(ApplyUpdate(s, u), u) == ApplyUpdate(s, u)
  {
  }

  class SubnetTable {
    var rows: seq<RemoteSubnet>
    /** The id the database assigns to the next row. */
    var nextId: int

    ghost predicate Valid()
      reads this
    {
      UniqueIds(rows) && forall i :: 0 <= i < |rows| ==> rows[i].id < nextId
    }

    constructor ()
      ensures Valid() && rows == []
    {
      rows, nextId := [], 1;
    }

    /** `list_remote_subnets`: exactly the caller's rows, in table order. */
    method List(userId: int) returns (r: seq<RemoteSubnet>)
      ensures forall s :: s in r <==> s in rows && s.userId == userId
      ensures r == Where(rows, OwnedByUser(userId))
    {
      r := Where(rows, OwnedByUser(userId));
    }

    /**
     * `create_remote_subnet`: refused with 400 when the caller already has this subnet
     * string (another user's identical subnet does not count); otherwise one enabled row
     * owned by the caller is appended.
     */
    method Create(userId: int, data: SubnetCreate, now: int) returns (r: Result<RemoteSubnet, HttpError>)
      requires Valid()
      modifies this
      ensures Valid()
      ensures First(old(rows), SameSubnet(userId, data.subnet)).Some? ==>
        r == Err(Raise(BadRequest, AlreadyRegistered)) && rows == old(rows) && nextId == old(nextId)
      ensures First(old(rows), SameSubnet(userId, data.subnet)).None? ==>
        && r == Ok(RemoteSubnet(old(nextId), userId, data.deviceId, data.subnet, data.description, true, now, None))
        && rows == old(rows) + [r.value] && nextId == old(nextId) + 1
      ensures NoDuplicateSubnets(old(rows)) ==> NoDuplicateSubnets(rows)
    {
      var existing := First(rows, SameSubnet(userId, data.subnet));
      if existing.Some? {
        return Err(Raise(BadRequest, AlreadyRegistered));
      }
      var subnet := RemoteSubnet(nextId, userId, data.deviceId, data.subnet, data.description, true, now, None);
      rows := rows + [subnet];
      nextId := nextId + 1;
      r := Ok(subnet);
    }

    /**
     * `update_remote_subnet`: 404 unless the id names one of the caller's rows; otherwise
     * that row alone is patched.
     */
    method Update(userId: int, id: int, patch: SubnetUpdate) returns (r: Result<RemoteSubnet, HttpError>)
      requires Valid()
      modifies this
      ensures Valid() && nextId == old(nextId)
      ensures First(old(rows), Target(id, userId)).None? ==>
        r == Err(Raise(NotFound, SubnetNotFound)) && rows == old(rows)
      ensures First(old(rows), Target(id, userId)).Some? ==>
        var k := First(old(rows), Target(id, userId)).value;
        rows == old(rows)[k := ApplyUpdate(old(rows)[k], patch)] && r == Ok(rows[k])
      ensures NoDuplicateSubnets(old(rows)) ==> NoDuplicateSubnets(rows)
    {
      var found := First(rows, Target(id, userId));
      if found.None? {
        return Err(Raise(NotFound, SubnetNotFound));
      }
      var k := found.value;
      var updated := ApplyUpdate(rows[k], patch);
      rows := rows[k := updated];
      r := Ok(updated);
    }

    /** `delete_remote_subnet`: 404 unless the id names one of the caller's rows; otherwise that row alone goes. */
    method Delete(userId: int, id: int) returns (r: Result<(), HttpError>)
      requires Valid()
      modifies this
      ensures Valid() && nextId == old(nextId)
      ensures First(old(rows), Target(id, userId)).None? ==>
        r == Err(Raise(NotFound, SubnetNotFound)) && rows == old(rows)
      ensures First(old(rows), Target(id, userId)).Some? ==>
        && r == Ok(())
        && rows == RemoveAt(old(rows), First(old(rows), Target(id, userId)).value)
        && forall s :: s in rows <==> s in old(rows) && s.id != id
      ensures NoDuplicateSubnets(old(rows)) ==> NoDuplicateSubnets(rows)
    {
      var found := First(rows, Target(id, userId));
      if found.None? {
        return Err(Raise(NotFound, SubnetNotFound));
      }
      var k := found.value;
      ghost var before := rows;
      rows := RemoveAt(rows, k);
      RemoveAtMembers(before, k);
      forall s | s in before && s.id != id ensures s != before[k] { }
      forall s | s in before && s != before[k] ensures s.id != id {
        var j :| 0 <= j < |before| && before[j] == s;
        assert j != k;
      }
      r := Ok(());
    }
  }
}
