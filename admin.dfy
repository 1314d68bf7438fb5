/**
 * The staff panel: which ledger entries offer a redeem action, redeeming one,
 * and the manual point adjustment. Both operations act on the store; without
 * a configured store they do nothing.
 */
module Admin {
  import opened Types
  import opened Text
  import opened Gacha
  import Store

  /**
   * The redeem action is shown for an entry that is not redeemed yet and
   * whose category string is none of EMPTY, POINT and FRAGMENT: a CASH,
   * VOUCHER or PHYSICAL entry, or one whose string names no category at all.
   */
  function RedeemOffered(rec: DrawRecord): (offered: bool)
    ensures offered <==> (!rec.isRedeemed &&
      (ParseType(rec.prizeType).None? || ParseType(rec.prizeType).value in {Cash, Voucher, Physical}))
  {
    !rec.isRedeemed && rec.prizeType != "EMPTY" && rec.prizeType != "POINT" && rec.prizeType != "FRAGMENT"
  }

  /**
   * An entry a draw wrote offers the redeem action exactly when the prize is
   * cash, a voucher or a physical item, and stops offering it once redeemed.
   */
  lemma DrawnEntryRedeemable(u: User, won: Prize, id: string, createdAt: string)
    ensures var rec := Stored(RecordOf(u, won), id, createdAt);
      && (RedeemOffered(rec) <==> won.kind in {Cash, Voucher, Physical})
      && !RedeemOffered(ApplyRecordPatch(rec, RedeemPatch))
  {
    var rec := Stored(RecordOf(u, won), id, createdAt);
    assert ParseType(rec.prizeType) == Some(won.kind);
  }

  /** What a redeem request ends in. */
  datatype RedeemOutcome = NoStore | Redeemed | RedeemFailed

  /**
   * `handleRedeem`, confirmation given: the id text is read as an integer and
   * every `records` row with that numeric id gets `is_redeemed` set, nothing
   * else. Without a store nothing happens; an id text that is not a number
   * and a request that does not reach the store change nothing either.
   */
  method Redeem(store: Store.Store, idStr: string, ok: bool) returns (outcome: RedeemOutcome)
    requires store.Valid()
    modifies store
    ensures store.Valid()
    ensures store.users == old(store.users) && store.nextUserId == old(store.nextUserId)
    ensures !store.configured ==> outcome == NoStore && store.records == old(store.records)
    ensures store.configured && ParseInt(idStr).Some? && ok ==>
      outcome == Redeemed && store.records == Store.MarkRedeemed(old(store.records), ParseInt(idStr).value)
    ensures store.configured && !(ParseInt(idStr).Some? && ok) ==>
      outcome == RedeemFailed && store.records == old(store.records)
  {
    if !store.configured {
      return NoStore;
    }
    var dbId := ParseInt(idStr);
    if dbId.None? {
      return RedeemFailed;
    }
    var success := store.SetRedeemed(dbId.value, ok);
    outcome := if success then Redeemed else RedeemFailed;
  }

  /**
   * Redeeming the entry the panel lists under the store's own id text flips
   * that entry's flag, no other entry's and no other field, and afterwards it
   * no longer offers the action.
   */
  lemma RedeemListedEntry(rs: seq<DrawRecord>, i: nat)
    requires Store.SerialIds(rs) && i < |rs|
    ensures ParseInt(rs[i].id) == Some(i + 1)
    ensures var after := Store.MarkRedeemed(rs, i + 1);
      && after[i] == rs[i].(isRedeemed := true)
      && !RedeemOffered(after[i])
      && forall j :: 0 <= j < |rs| && j != i ==> after[j] == rs[j]
  {
    DecimalRoundTrip(i + 1);
    Store.MarkRedeemedOne(rs, i + 1);
  }

  /** The `users` row once the adjustment has written `points + delta` to it. */
  function Adjusted(row: UserRow, delta: int): (r: UserRow)
    ensures r.points == row.points + delta
    ensures r == row.(points := r.points)
  {
    ApplyUserUpdate(row, UserUpdate(Some(row.points + delta), None, None))
  }

  /** Adjusting by `delta` and then by `-delta` restores the row; two adjustments add up. */
  lemma AdjustedInverse(row: UserRow, d: int, e: int)
    ensures Adjusted(Adjusted(row, d), -d) == row
    ensures Adjusted(Adjusted(row, d), e) == Adjusted(row, d + e)
    ensures Adjusted(row, 0) == row
  {
  }

  /** What a point adjustment ends in; `Applied` carries the balance written. */
  datatype AdjustOutcome = Ignored | InvalidNumber | NotConnected | FetchFailed | UpdateFailed | Applied(total: int)

  /**
   * `handleUpdatePoints`, confirmation given. No user selected or an empty
   * delta: nothing. A delta that is not a number: rejected. Otherwise the
   * user's current stored balance is read again and `balance + delta` is
   * written, with no bound either way; the balance shown in the panel plays no
   * part. A read or a write that fails leaves the store as it was.
   */
  method AdjustPoints(store: Store.Store, editing: Option<User>, deltaText: string, fetchOk: bool, updateOk: bool)
    returns (outcome: AdjustOutcome)
    requires store.Valid()
    modifies store
    ensures store.Valid()
    ensures store.records == old(store.records) && store.nextUserId == old(store.nextUserId)
    ensures editing.None? || deltaText == [] ==> outcome == Ignored
    ensures editing.Some? && deltaText != [] && ParseInt(deltaText).None? ==> outcome == InvalidNumber
    ensures editing.Some? && deltaText != [] && ParseInt(deltaText).Some? && !store.configured ==> outcome == NotConnected
    ensures editing.Some? && deltaText != [] && ParseInt(deltaText).Some? && store.configured ==>
      var id := editing.value.id;
      if id.None? || id.value !in old(store.users) || !fetchOk then outcome == FetchFailed
      else if !updateOk then outcome == UpdateFailed
      else outcome == Applied(old(store.users)[id.value].points + ParseInt(deltaText).value)
    ensures outcome.Applied? ==> (editing.value.id.Some? &&
      store.users == old(store.users)[editing.value.id.value := Adjusted(old(store.users)[editing.value.id.value], ParseInt(deltaText).value)])
    ensures !outcome.Applied? ==> store.users == old(store.users)
  {
    if editing.None? || deltaText == [] {
      return Ignored;
    }
    var delta := ParseInt(deltaText);
    if delta.None? {
      return InvalidNumber;
    }
    if !store.configured {
      return NotConnected;
    }
    var id := editing.value.id;
    if id.None? {
      return FetchFailed;
    }
    var latest := store.ReadPoints(id.value, fetchOk);
    if latest.None? {
      return FetchFailed;
    }
    var newTotal := latest.value + delta.value;
    var success := store.UpdateUser(id.value, UserUpdate(Some(newTotal), None, None), updateOk);
    if !success {
      return UpdateFailed;
    }
    outcome := Applied(newTotal);
  }
}
