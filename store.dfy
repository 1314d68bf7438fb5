/**
 * The backing store, as abstract state: whether it is configured at all, the
 * `users` table keyed by its serial id, and the `records` table in insertion
 * order. Each method is one request the kiosk sends; the `ok` parameters say
 * whether the request reached the store, since the network is outside the model.
 */
module Store {
  import opened Types
  import opened Text

  /** The decimal text of the `n`-th record's serial id (ids start at 1). */
  function RecordId(n: nat): string
  {
    NatToDecimal(n + 1)
  }

  /**
   * The `records` rows after `update({ is_redeemed: true }).eq('id', dbId)`:
   * the rows whose numeric id is `dbId` get the redeem patch; no other row
   * and no other field changes.
   */
  function MarkRedeemed(rs: seq<DrawRecord>, dbId: int): (r: seq<DrawRecord>)
    ensures |r| == |rs|
    ensures forall i :: 0 <= i < |rs| ==> r[i] == rs[i].(isRedeemed := r[i].isRedeemed)
    ensures forall i :: 0 <= i < |rs| ==> (r[i].isRedeemed <==> rs[i].isRedeemed || ParseInt(rs[i].id) == Some(dbId))
  {
    seq(|rs|, i requires 0 <= i < |rs| =>
      if ParseInt(rs[i].id) == Some(dbId) then ApplyRecordPatch(rs[i], RedeemPatch) else rs[i])
  }

  /** The element of a one-element set. */
  method Single(s: set<int>) returns (k: int)
    requires |s| == 1
    ensures s == {k}
  {
    if forall x :: x !in s {
      assert false;
    }
    k :| k in s;
    assert |s - {k}| == 0;
  }

  /** Records whose ids are the serial ids 1, 2, ... in order. */
  predicate SerialIds(rs: seq<DrawRecord>)
  {
    forall i :: 0 <= i < |rs| ==> rs[i].id == RecordId(i)
  }

  /**
   * With serial ids, redeeming id `k` flips the flag of the `k`-th record and
   * of no other: at most one record is touched, and none when no record has that id.
   */
  lemma MarkRedeemedOne(rs: seq<DrawRecord>, k: int)
    requires SerialIds(rs)
    ensures forall i :: 0 <= i < |rs| ==> (MarkRedeemed(rs, k)[i].isRedeemed <==> rs[i].isRedeemed || i == k - 1)
    ensures SerialIds(MarkRedeemed(rs, k))
  {
    forall i | 0 <= i < |rs| ensures ParseInt(rs[i].id) == Some(k) <==> i == k - 1 {
      DecimalRoundTrip(i + 1);
    }
  }

  /** Redeeming twice is redeeming once. */
  lemma MarkRedeemedIdempotent(rs: seq<DrawRecord>, k: int)
    ensures MarkRedeemed(MarkRedeemed(rs, k), k) == MarkRedeemed(rs, k)
  {
    var once := MarkRedeemed(rs, k);
    var twice := MarkRedeemed(once, k);
    forall i | 0 <= i < |rs| ensures twice[i] == once[i] {
      assert once[i].id == rs[i].id;
    }
  }

  class Store {
    /** Whether a store is configured; when it is not, the kiosk runs offline. */
    const configured: bool
    var users: map<int, UserRow>
    var records: seq<DrawRecord>
    /** The serial id the `users` table hands out next. */
    var nextUserId: int

    ghost predicate Valid()
      reads this
    {
      && 1 <= nextUserId
      && (forall k :: k in users ==> 1 <= k < nextUserId && users[k].id == k)
      && SerialIds(records)
    }

    constructor (configured: bool)
      ensures Valid() && this.configured == configured
      ensures users == map[] && records == [] && nextUserId == 1
    {
      this.configured := configured;
      users := map[];
      records := [];
      nextUserId := 1;
    }

    /** The ids of the users rows with a given name. */
    function Named(name: string): set<int>
      reads this
    {
      set k | k in users && users[k].name == name
    }

    /**
     * `select('*').eq('name', name).single()`: the row when exactly one row
     * has that name; no row when none or several do, or when the request
     * does not reach the store.
     */
    method FindByName(name: string, ok: bool) returns (row: Option<UserRow>)
      requires Valid()
      ensures row.Some? <==> ok && |Named(name)| == 1
      ensures row.Some? ==> Named(name) == {row.value.id} && row.value.id in users && users[row.value.id] == row.value
    {
      var matching := Named(name);
      if !ok || |matching| != 1 {
        return None;
      }
      var k := Single(matching);
      row := Some(users[k]);
    }

    /** `select('points').eq('id', id).single()`. */
    method ReadPoints(id: int, ok: bool) returns (points: Option<int>)
      ensures points.Some? <==> ok && id in users
      ensures points.Some? ==> points.value == users[id].points
    {
      if ok && id in users {
        points := Some(users[id].points);
      } else {
        points := None;
      }
    }

    /** `insert([ins]).select().single()`: the new row gets the next serial id. */
    method InsertUser(ins: UserInsert, createdAt: string, ok: bool) returns (row: Option<UserRow>)
      requires Valid()
      modifies this
      ensures Valid()
      ensures records == old(records)
      ensures ok ==> (row == Some(RowOfInsert(ins, old(nextUserId), createdAt))
        && users == old(users)[old(nextUserId) := row.value] && nextUserId == old(nextUserId) + 1)
      ensures !ok ==> row == None && users == old(users) && nextUserId == old(nextUserId)
    {
      if !ok {
        return None;
      }
      var created := RowOfInsert(ins, nextUserId, createdAt);
      users := users[nextUserId := created];
      nextUserId := nextUserId + 1;
      row := Some(created);
    }

    /** `update(upd).eq('id', id)`: no error when no row has that id, and then nothing changes. */
    method UpdateUser(id: int, upd: UserUpdate, ok: bool) returns (success: bool)
      requires Valid()
      modifies this
      ensures Valid()
      ensures success == ok
      ensures records == old(records) && nextUserId == old(nextUserId)
      ensures users == if ok && id in old(users) then old(users)[id := ApplyUserUpdate(old(users)[id], upd)] else old(users)
    {
      success := ok;
      if ok && id in users {
        users := users[id := ApplyUserUpdate(users[id], upd)];
      }
    }

    /** `insert([ins])` on `records`: the store assigns the next serial id and the creation time. */
    method InsertRecord(ins: NewRecord, createdAt: string, ok: bool) returns (success: bool)
      requires Valid()
      modifies this
      ensures Valid()
      ensures success == ok
      ensures users == old(users) && nextUserId == old(nextUserId)
      ensures records == if ok then old(records) + [Stored(ins, RecordId(|old(records)|), createdAt)] else old(records)
    {
      success := ok;
      if ok {
        records := records + [Stored(ins, RecordId(|records|), createdAt)];
      }
    }

    /** `update({ is_redeemed: true }).eq('id', dbId)` on `records`. */
    method SetRedeemed(dbId: int, ok: bool) returns (success: bool)
      requires Valid()
      modifies this
      ensures Valid()
      ensures success == ok
      ensures users == old(users) && nextUserId == old(nextUserId)
      ensures records == if ok then MarkRedeemed(old(records), dbId) else old(records)
    {
      success := ok;
      if ok {
        MarkRedeemedOne(records, dbId);
        records := MarkRedeemed(records, dbId);
      }
    }
  }
}
