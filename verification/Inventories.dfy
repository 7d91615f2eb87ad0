/** The immutable inventory: the first body of a key stays, and a listing is the sorted
    keys after a cursor, cut at a limit (internal/adapters/inventory/filesystem.go). */
module Inventories {
  import opened Values
  import opened Records
  import Recovery

  class Inventory {
    var objects: map<Key, Object>

    constructor ()
      ensures objects == map[]
    {
      objects := map[];
    }

    /** The same body again is accepted, another one refused
        (internal/adapters/inventory/filesystem.go:121-204). */
    method Put(k: Key, body: Body, now: Time) returns (r: Check)
      modifies this
      ensures r == if Recovery.Accepts(old(objects), k, body) then Pass else Fail(IdempotencyConflict)
      ensures objects == if r.Pass? then Recovery.PutObject(old(objects), k, body, now) else old(objects)
    {
      if k in objects {
        if objects[k].body != body { return Fail(IdempotencyConflict); }
        return Pass;
      }
      objects := objects[k := Object(body, now)];
      return Pass;
    }

    /** The identities of a class after the cursor, in order
        (internal/adapters/inventory/filesystem.go:291-311). */
    method Walk(category: Class, cursor: Option<Id>) returns (ids: seq<Id>)
      ensures Recovery.Follows(objects, category, cursor, ids)
    {
      ids := [];
      var rest := objects.Keys;
      while rest != {}
        invariant rest <= objects.Keys
        invariant Ascending(ids)
        invariant forall x | x in ids ::
            Key(category, x) in objects && Key(category, x) !in rest && (cursor.Some? ==> cursor.value < x)
        invariant forall k | k in objects && k !in rest && k.category == category && (cursor.Some? ==>
            cursor.value < k.id) :: k.id in ids
        decreases rest
      {
        var k :| k in rest;
        if k.category == category && (cursor.Some? ==> cursor.value < k.id) {
          assert k == Key(category, k.id);
          ids := Insert(ids, k.id);
        }
        rest := rest - {k};
      }
    }

    /** internal/adapters/inventory/filesystem.go:265-331. */
    method List(category: Class, cursor: Option<Id>, limit: nat)
      returns (listed: seq<Id>, next: Option<Id>, complete: bool, ghost following: seq<Id>)
      ensures Recovery.Follows(objects, category, cursor, following)
      ensures listed == Recovery.Listed(following, limit) && complete == (|listed| == |following|)
      ensures next == if complete || listed == [] then None else Some(listed[|listed| - 1])
    {
      hide Recovery.Follows;
      listed := Walk(category, cursor);
      following := listed;
      complete := true;
      next := None;
      if |listed| > Recovery.Limit(limit) {
        listed, complete := listed[..Recovery.Limit(limit)], false;
        next := Some(listed[|listed| - 1]);
      }
    }
  }

  predicate Ascending(ids: seq<Id>) {
    forall i, j | 0 <= i < j < |ids| :: ids[i] < ids[j]
  }

  /** Keeps the order while a key is added. */
  method Insert(ids: seq<Id>, x: Id) returns (r: seq<Id>)
    requires Ascending(ids) && x !in ids
    ensures Ascending(r) && forall y :: y in r <==> y in ids || y == x
  {
    var i := |ids|;
    while i > 0 && x < ids[i - 1]
      invariant 0 <= i <= |ids| && forall j | i <= j < |ids| :: x < ids[j]
    {
      i := i - 1;
    }
    Placed(ids, x, i);
    r := ids[..i] + [x] + ids[i..];
    assert ids == ids[..i] + ids[i..];
  }

  lemma Placed(ids: seq<Id>, x: Id, i: nat)
    requires Ascending(ids) && i <= |ids| && (i > 0 ==> ids[i - 1] < x) && forall j | i <= j < |ids| :: x < ids[j]
    ensures Ascending(ids[..i] + [x] + ids[i..])
  {
    hide Ascending;
    var left, right := ids[..i], ids[i..];
    Parts(ids, x, i);
    Joined(left, [x]);
    Joined(left + [x], right);
  }

  lemma Parts(ids: seq<Id>, x: Id, i: nat)
    requires Ascending(ids) && i <= |ids| && (i > 0 ==> ids[i - 1] < x) && forall j | i <= j < |ids| :: x < ids[j]
    ensures Ascending(ids[..i]) && Ascending(ids[i..]) && Ascending([x])
    ensures forall j | 0 <= j < i :: ids[..i][j] < x
    ensures forall j, k | 0 <= j < |ids[..i] + [x]| && 0 <= k < |ids[i..]| :: (ids[..i] + [x])[j] < ids[i..][k]
  {
    forall j | 0 <= j < i
      ensures ids[j] < x
    {
      if j < i - 1 { assert ids[j] < ids[i - 1]; }
    }
  }

  lemma Joined(a: seq<Id>, b: seq<Id>)
    requires Ascending(a) && Ascending(b) && forall j, k | 0 <= j < |a| && 0 <= k < |b| :: a[j] < b[k]
    ensures Ascending(a + b)
  {
  }
}
