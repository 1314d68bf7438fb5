/**
 * The draw screen: a state machine IDLE -> SHAKING -> OPENING -> REVEALED ->
 * IDLE around one draw, and the settlement that charges the cost up front,
 * applies the prize, writes the ledger and updates the signed-in user.
 */
module Gacha {
  import opened Types
  import opened Catalogue
  import opened Selector
  import opened Session
  import Store

  datatype Phase = Idle | Shaking | Opening | Revealed

  /** Settlement skips every prize effect without a store, or for a user with id 0 or no id. */
  predicate Offline(configured: bool, u: User)
  {
    !configured || u.id.None? || u.id == Some(OfflineId)
  }

  /** Points a prize credits on top of the balance: only POINT prizes credit anything. */
  function Credit(won: Prize): int
  {
    if won.kind == Point then won.value else 0
  }

  /** The ledger entry a draw writes: a snapshot of the user's name and the prize's name, category and value. */
  function RecordOf(u: User, won: Prize): (rec: NewRecord)
    ensures rec.userName == u.name && rec.prizeName == won.name
    ensures ParseType(rec.prizeType) == Some(won.kind) && rec.prizeValue == won.value
    ensures !rec.isRedeemed
  {
    TypeNameRoundTrip(won.kind, TypeName(won.kind));
    NewRecord(u.name, won.name, TypeName(won.kind), won.value, false)
  }

  /** The patch settlement applies to the user once the store is online. */
  function SettlementPatch(u: User, won: Prize, afterCost: int): UserPatch
  {
    UserPatch(None, None, Some(afterCost + Credit(won)),
      Some(u.fragment500 + (if won.id == Fragment500Id then 1 else 0)),
      Some(u.fragmentFree + (if won.id == FragmentFreeId then 1 else 0)))
  }

  /**
   * The user after a whole draw from balance `u.points`. The cost is always
   * charged. Online, the balance then ends at `B - 30 + value` for a POINT
   * prize and at `B - 30` otherwise, the 500 fragment counter grows by one
   * exactly for `p_frag_500` and the free fragment counter exactly for
   * `p_frag_free`; offline only the cost is charged. Neither counter ever goes down.
   */
  function DrawResult(u: User, won: Prize, configured: bool): (after: User)
    ensures after.id == u.id && after.name == u.name
    ensures Offline(configured, u) ==> after == u.(points := u.points - CostPerDraw)
    ensures !Offline(configured, u) ==>
      && after.points == u.points - CostPerDraw + (if won.kind == Point then won.value else 0)
      && after.fragment500 == u.fragment500 + (if won.id == Fragment500Id then 1 else 0)
      && after.fragmentFree == u.fragmentFree + (if won.id == FragmentFreeId then 1 else 0)
    ensures after.fragment500 >= u.fragment500 && after.fragmentFree >= u.fragmentFree
  {
    var charged := Merge(u, UserPatch(None, None, Some(u.points - CostPerDraw), None, None));
    if Offline(configured, u) then charged
    else Merge(charged, SettlementPatch(u, won, u.points - CostPerDraw))
  }

  /**
   * A whole draw is settlement applied to the charged user: the charge
   * keeps the user's id, so it does not change whether the draw is offline,
   * and it keeps the name, so the ledger entry is the same.
   */
  lemma DrawResultCharged(u: User, won: Prize, configured: bool)
    ensures var charged := u.(points := u.points - CostPerDraw);
      && (Offline(configured, charged) <==> Offline(configured, u))
      && RecordOf(charged, won) == RecordOf(u, won)
      && DrawResult(u, won, configured)
         == if Offline(configured, charged) then charged else Merge(charged, SettlementPatch(charged, won, charged.points))
  {
  }

  /**
   * For the prizes of the kiosk's table, an online draw moves the balance by
   * -30, -25, -20 or -10, never below `B - 30`; it adds one fragment in all
   * exactly when the prize is a FRAGMENT prize, and the two counters never
   * both move.
   */
  lemma PoolDrawEffects(u: User, i: nat, configured: bool)
    requires i < |PrizePool| && !Offline(configured, u)
    ensures var after := DrawResult(u, PrizePool[i], configured);
      && after.points - u.points in {-30, -25, -20, -10}
      && after.points >= u.points - CostPerDraw
      && (after.points > u.points - CostPerDraw <==> PrizePool[i].kind == Point)
      && after.fragment500 + after.fragmentFree - u.fragment500 - u.fragmentFree
         == (if PrizePool[i].kind == Fragment then 1 else 0)
      && (after.fragment500 == u.fragment500 || after.fragmentFree == u.fragmentFree)
  {
    PoolValues();
  }

  /**
   * Three draws from 300 points that land on the 5-point prize, the 20 yuan
   * cash prize and the 5 yuan cash prize leave 275, 245 and 215 points.
   */
  lemma ThreeDrawScenario(u: User, configured: bool)
    requires u.points == StartingPoints && !Offline(configured, u)
    ensures var first := DrawResult(u, PrizePool[1], configured);
      var second := DrawResult(first, PrizePool[6], configured);
      var third := DrawResult(second, PrizePool[4], configured);
      first.points == 275 && second.points == 245 && third.points == 215
      && third.fragment500 == u.fragment500 && third.fragmentFree == u.fragmentFree
  {
  }

  class Machine {
    /** The signed-in user, as the kiosk holds it in memory. */
    var user: User
    var phase: Phase
    var prize: Option<Prize>
    /** The draw screen's history, newest first. */
    var history: seq<DrawRecord>
    /** The balance after the up-front charge, handed from the start of a draw to its settlement. */
    var pointsAfterDeduction: int
    const store: Store.Store

    ghost predicate Valid()
      reads this, store
    {
      && store.Valid()
      && ((phase == Idle || phase == Shaking) <==> prize == None)
      && (phase == Shaking ==> pointsAfterDeduction == user.points)
      && (forall k :: 0 <= k < |history| ==> history[k].userName == user.name && !history[k].isRedeemed)
    }

    constructor (u: User, s: Store.Store)
      requires s.Valid()
      ensures Valid() && user == u && store == s
      ensures phase == Idle && prize == None && history == []
    {
      user := u;
      store := s;
      phase := Idle;
      prize := None;
      history := [];
      pointsAfterDeduction := u.points;
    }

    /**
     * `handleStart`, up to its timer: only from IDLE and only with at least
     * the cost in points; then the cost is charged at once and the machine shakes.
     */
    method Start() returns (started: bool)
      requires Valid()
      modifies this
      ensures Valid()
      ensures started <==> old(phase) == Idle && old(user).points >= CostPerDraw
      ensures started ==> (user == old(user).(points := old(user).points - CostPerDraw)
        && phase == Shaking && pointsAfterDeduction == user.points)
      ensures !started ==> (user == old(user) && phase == old(phase) && pointsAfterDeduction == old(pointsAfterDeduction))
      ensures prize == old(prize) && history == old(history)
    {
      if phase != Idle {
        return false;
      }
      if user.points < CostPerDraw {
        return false;
      }
      var newPoints := user.points - CostPerDraw;
      user := Merge(user, UserPatch(None, None, Some(newPoints), None, None));
      pointsAfterDeduction := newPoints;
      phase := Shaking;
      started := true;
    }

    /**
     * The first timer of a draw: select the prize with the random value `r`,
     * show it as OPENING and settle the draw.
     */
    method Open(r: real, recordOk: bool, userOk: bool, tempId: string, storedAt: string, now: string)
      requires Valid() && phase == Shaking
      modifies this, store
      ensures Valid()
      ensures phase == Opening && prize == Some(PrizePool[Pick(PrizePool, r)])
      ensures Settled(old(user), PrizePool[Pick(PrizePool, r)], old(pointsAfterDeduction), recordOk, userOk, tempId,
        storedAt, now, old(history), old(store.users), old(store.records))
      ensures store.nextUserId == old(store.nextUserId)
    {
      PoolWeights();
      var result := DrawPrize(PrizePool, r);
      var won := result.value;
      prize := Some(won);
      phase := Opening;
      ProcessDrawTransaction(won, pointsAfterDeduction, recordOk, userOk, tempId, storedAt, now);
    }

    /**
     * The state `processDrawTransaction` leaves behind. Offline: only a record
     * at the front of the history. Online: the user gets the settled balance
     * and counters whether or not the two writes succeed, the store gets the
     * record and the user update for the writes that do, and the history gets
     * the record at the front. The store stamps its copy with its own time
     * `storedAt`; the history's copy carries the kiosk's clock `now` and the
     * temporary id `tempId`.
     */
    ghost predicate Settled(u: User, won: Prize, afterCost: int, recordOk: bool, userOk: bool,
      tempId: string, storedAt: string, now: string, oldHistory: seq<DrawRecord>, oldUsers: map<int, UserRow>,
      oldRecords: seq<DrawRecord>)
      reads this`user, this`history, store
    {
      if Offline(store.configured, u) then
        && user == u
        && history == [Stored(RecordOf(u, won), tempId, now)] + oldHistory
        && store.users == oldUsers && store.records == oldRecords
      else
        var patch := SettlementPatch(u, won, afterCost);
        && user == Merge(u, patch)
        && history == [Stored(RecordOf(u, won), tempId, now)] + oldHistory
        && store.records == (if recordOk then oldRecords + [Stored(RecordOf(u, won), Store.RecordId(|oldRecords|), storedAt)] else oldRecords)
        && store.users == (if userOk && u.id.value in oldUsers
                           then oldUsers[u.id.value := ApplyUserUpdate(oldUsers[u.id.value],
                                  UserUpdate(patch.points, patch.fragment500, patch.fragmentFree))]
                           else oldUsers)
    }

    /** `processDrawTransaction`: the prize's effects, the ledger entry and the history. */
    method ProcessDrawTransaction(won: Prize, afterCost: int, recordOk: bool, userOk: bool, tempId: string,
      storedAt: string, now: string)
      requires Valid() && phase == Opening
      modifies this`user, this`history, store
      ensures Valid()
      ensures Settled(old(user), won, afterCost, recordOk, userOk, tempId, storedAt, now, old(history),
        old(store.users), old(store.records))
      ensures store.nextUserId == old(store.nextUserId)
    {
      if Offline(store.configured, user) {
        history := [Stored(RecordOf(user, won), tempId, now)] + history;
        return;
      }
      var newRecord := RecordOf(user, won);
      var currentF500 := user.fragment500;
      var currentFFree := user.fragmentFree;
      var finalPoints := afterCost;
      if won.id == Fragment500Id {
        currentF500 := currentF500 + 1;
      }
      if won.id == FragmentFreeId {
        currentFFree := currentFFree + 1;
      }
      if won.kind == Point {
        finalPoints := finalPoints + won.value;
      }
      var recordSaved := store.InsertRecord(newRecord, storedAt, recordOk);
      var userSaved := store.UpdateUser(user.id.value, UserUpdate(Some(finalPoints), Some(currentF500), Some(currentFFree)), userOk);
      user := Merge(user, UserPatch(None, None, Some(finalPoints), Some(currentF500), Some(currentFFree)));
      history := [Stored(newRecord, tempId, now)] + history;
    }

    /** The second timer of a draw: the card is revealed. */
    method Reveal()
      requires Valid() && phase == Opening
      modifies this`phase
      ensures Valid() && phase == Revealed
    {
      phase := Revealed;
    }

    /** `reset`, the revealed card's only button: back to IDLE with no prize shown. */
    method Reset()
      requires Valid() && phase == Revealed
      modifies this`phase, this`prize
      ensures Valid() && phase == Idle && prize == None
    {
      phase := Idle;
      prize := None;
    }

    /**
     * One whole draw as the kiosk runs it: the guard and charge, then after
     * the first timer the selection and settlement, then after the second the
     * reveal. A refused draw changes nothing. A draw that runs leaves the
     * user as `DrawResult` says, the new record at the front of the history,
     * and the store as settlement from the charged user says.
     */
    method HandleStart(r: real, recordOk: bool, userOk: bool, tempId: string, storedAt: string, now: string)
      returns (started: bool)
      requires Valid()
      modifies this, store
      ensures Valid()
      ensures store.nextUserId == old(store.nextUserId)
      ensures started <==> old(phase) == Idle && old(user).points >= CostPerDraw
      ensures !started ==> (user == old(user) && phase == old(phase) && prize == old(prize) && history == old(history)
        && store.users == old(store.users) && store.records == old(store.records))
      ensures started ==> (phase == Revealed && prize == Some(PrizePool[Pick(PrizePool, r)])
        && user == DrawResult(old(user), PrizePool[Pick(PrizePool, r)], store.configured)
        && history == [Stored(RecordOf(old(user), PrizePool[Pick(PrizePool, r)]), tempId, now)] + old(history))
      ensures started ==> Settled(old(user).(points := old(user).points - CostPerDraw), PrizePool[Pick(PrizePool, r)],
        old(user).points - CostPerDraw, recordOk, userOk, tempId, storedAt, now, old(history), old(store.users),
        old(store.records))
    {
      started := Start();
      if started {
        Open(r, recordOk, userOk, tempId, storedAt, now);
        Reveal();
        DrawResultCharged(old(user), PrizePool[Pick(PrizePool, r)], store.configured);
      }
    }

    /**
     * The screen's whole cycle: from IDLE with enough points, a draw passes
     * through SHAKING and OPENING to REVEALED, and the card's button brings
     * the screen back to IDLE with no prize, ready for the next draw.
     */
    method DrawCycle(r: real, recordOk: bool, userOk: bool, tempId: string, storedAt: string, now: string)
      requires Valid() && phase == Idle && user.points >= CostPerDraw
      modifies this, store
      ensures Valid() && phase == Idle && prize == None
      ensures user == DrawResult(old(user), PrizePool[Pick(PrizePool, r)], store.configured)
      ensures history == [Stored(RecordOf(old(user), PrizePool[Pick(PrizePool, r)]), tempId, now)] + old(history)
      ensures store.nextUserId == old(store.nextUserId)
      ensures Settled(old(user).(points := old(user).points - CostPerDraw), PrizePool[Pick(PrizePool, r)],
        old(user).points - CostPerDraw, recordOk, userOk, tempId, storedAt, now, old(history), old(store.users),
        old(store.records))
    {
      var started := HandleStart(r, recordOk, userOk, tempId, storedAt, now);
      Reset();
    }
  }
}
