/**
 * Data contracts of the gacha kiosk: the prize categories and rarity tiers,
 * the prize definition, the in-memory user, the draw record, and the row,
 * insert and update shapes of the two store tables (`users`, `records`).
 */
module Types {

  datatype Option<T> = None | Some(value: T)

  /** The six prize categories, in declaration order. */
  datatype PrizeType = Empty | Point | Cash | Voucher | Physical | Fragment

  const AllPrizeTypes: seq<PrizeType> := [Empty, Point, Cash, Voucher, Physical, Fragment]

  /** The string value each category carries (it is what a draw record stores). */
  function TypeName(t: PrizeType): string
  {
    match t
    case Empty => "EMPTY"
    case Point => "POINT"
    case Cash => "CASH"
    case Voucher => "VOUCHER"
    case Physical => "PHYSICAL"
    case Fragment => "FRAGMENT"
  }

  /** Reads a category back from its stored string; anything else is no category. */
  function ParseType(s: string): Option<PrizeType>
  {
    if s == "EMPTY" then Some(Empty)
    else if s == "POINT" then Some(Point)
    else if s == "CASH" then Some(Cash)
    else if s == "VOUCHER" then Some(Voucher)
    else if s == "PHYSICAL" then Some(Physical)
    else if s == "FRAGMENT" then Some(Fragment)
    else None
  }

  /** The category list is complete, its six entries are distinct, and so are their strings. */
  lemma PrizeTypesComplete(t: PrizeType)
    ensures t in AllPrizeTypes
    ensures |AllPrizeTypes| == 6
    ensures forall i, j :: 0 <= i < j < |AllPrizeTypes| ==>
      AllPrizeTypes[i] != AllPrizeTypes[j] && TypeName(AllPrizeTypes[i]) != TypeName(AllPrizeTypes[j])
  {
  }

  /** Storing a category as its string loses nothing, in both directions. */
  lemma TypeNameRoundTrip(t: PrizeType, s: string)
    ensures ParseType(TypeName(t)) == Some(t)
    ensures ParseType(s) == Some(t) <==> s == TypeName(t)
  {
  }

  /** The four rarity tiers, declared from most to least common. */
  datatype Rarity = Common | Uncommon | Rare | Legendary

  const AllRarities: seq<Rarity> := [Common, Uncommon, Rare, Legendary]

  /** Position of a tier in the declaration order. */
  function Rank(r: Rarity): (n: nat)
    ensures n < |AllRarities| && AllRarities[n] == r
  {
    match r
    case Common => 0
    case Uncommon => 1
    case Rare => 2
    case Legendary => 3
  }

  /** The style class each tier's enum value holds. */
  function StyleClass(r: Rarity): string
  {
    match r
    case Common => "bg-gray-500"
    case Uncommon => "bg-blue-500"
    case Rare => "bg-purple-600"
    case Legendary => "bg-yellow-500"
  }

  /** The tiers are ordered COMMON < UNCOMMON < RARE < LEGENDARY, and distinct tiers have distinct style values. */
  lemma RarityOrder(a: Rarity, b: Rarity)
    ensures Rank(Common) < Rank(Uncommon) < Rank(Rare) < Rank(Legendary)
    ensures a != b ==> Rank(a) != Rank(b) && StyleClass(a) != StyleClass(b)
  {
  }

  /**
   * A prize definition. The category is `kind` (`type` is a keyword here);
   * `weight` is the probability in hundredths of a percent, so 3.52 % is 352.
   */
  datatype Prize = Prize(
    id: string,
    name: string,
    kind: PrizeType,
    value: int,
    weight: nat,
    image: Option<string>,
    rarity: Rarity,
    description: string)

  /** The signed-in user. An absent `id` marks an account the store has not assigned. */
  datatype User = User(
    id: Option<int>,
    name: string,
    points: int,
    fragment500: int,
    fragmentFree: int)

  /**
   * One ledger entry. It keeps its own copy of the prize's name, category
   * (as a string) and value rather than a reference to a prize definition.
   */
  datatype DrawRecord = DrawRecord(
    id: string,
    userName: string,
    prizeName: string,
    prizeType: string,
    prizeValue: int,
    isRedeemed: bool,
    createdAt: string)

  /** A row of the `users` table. */
  datatype UserRow = UserRow(
    id: int,
    name: string,
    points: int,
    fragment500: int,
    fragmentFree: int,
    createdAt: string)

  /** What may be sent to create a `users` row: only the name is required. */
  datatype UserInsert = UserInsert(
    name: string,
    points: Option<int>,
    fragment500: Option<int>,
    fragmentFree: Option<int>)

  /** What may be sent to change a `users` row: the balance and the two counters, never the name. */
  datatype UserUpdate = UserUpdate(
    points: Option<int>,
    fragment500: Option<int>,
    fragmentFree: Option<int>)

  /** What is sent to create a `records` row: a draw record without `id` and `created_at`. */
  datatype NewRecord = NewRecord(
    userName: string,
    prizeName: string,
    prizeType: string,
    prizeValue: int,
    isRedeemed: bool)

  /** A partial draw record, the update shape of the `records` table. */
  datatype RecordPatch = RecordPatch(
    id: Option<string>,
    userName: Option<string>,
    prizeName: Option<string>,
    prizeType: Option<string>,
    prizeValue: Option<int>,
    isRedeemed: Option<bool>,
    createdAt: Option<string>)

  function OrElse<T>(o: Option<T>, default: T): T
  {
    match o
    case Some(v) => v
    case None => default
  }

  /**
   * The value the `users` table fills in for a column the insert leaves out.
   * The table's schema is not part of this model; zero is assumed.
   */
  const ColumnDefault: int := 0

  /** A `users` row made from an insert shape, the store supplying id, time and the column defaults. */
  function RowOfInsert(ins: UserInsert, id: int, createdAt: string): (row: UserRow)
    ensures row.id == id && row.name == ins.name && row.createdAt == createdAt
    ensures row.points == (if ins.points.Some? then ins.points.value else ColumnDefault)
    ensures row.fragment500 == (if ins.fragment500.Some? then ins.fragment500.value else ColumnDefault)
    ensures row.fragmentFree == (if ins.fragmentFree.Some? then ins.fragmentFree.value else ColumnDefault)
  {
    UserRow(id, ins.name, OrElse(ins.points, ColumnDefault),
      OrElse(ins.fragment500, ColumnDefault), OrElse(ins.fragmentFree, ColumnDefault), createdAt)
  }

  /** Applies an update shape to a row: id, name and creation time can never change. */
  function ApplyUserUpdate(row: UserRow, upd: UserUpdate): (r: UserRow)
    ensures r.id == row.id && r.name == row.name && r.createdAt == row.createdAt
    ensures upd == UserUpdate(None, None, None) ==> r == row
  {
    row.(points := OrElse(upd.points, row.points),
         fragment500 := OrElse(upd.fragment500, row.fragment500),
         fragmentFree := OrElse(upd.fragmentFree, row.fragmentFree))
  }

  /** The in-memory user a stored row is loaded as. */
  function UserOfRow(row: UserRow): (u: User)
    ensures u.id == Some(row.id) && u.name == row.name && u.points == row.points
    ensures u.fragment500 == row.fragment500 && u.fragmentFree == row.fragmentFree
  {
    User(Some(row.id), row.name, row.points, row.fragment500, row.fragmentFree)
  }

  /** The record the store keeps for an insert shape, once it has assigned `id` and `created_at`. */
  function Stored(ins: NewRecord, id: string, createdAt: string): DrawRecord
  {
    DrawRecord(id, ins.userName, ins.prizeName, ins.prizeType, ins.prizeValue, ins.isRedeemed, createdAt)
  }

  /** The insert shape of a record: everything but the two store-assigned fields. */
  function Unstored(rec: DrawRecord): NewRecord
  {
    NewRecord(rec.userName, rec.prizeName, rec.prizeType, rec.prizeValue, rec.isRedeemed)
  }

  /** The insert shape and the stored record carry the same fields apart from `id` and `created_at`. */
  lemma StoredRoundTrip(ins: NewRecord, rec: DrawRecord, id: string, createdAt: string)
    ensures Unstored(Stored(ins, id, createdAt)) == ins
    ensures Stored(Unstored(rec), rec.id, rec.createdAt) == rec
    ensures Stored(ins, id, createdAt).id == id && Stored(ins, id, createdAt).createdAt == createdAt
  {
  }

  /** Applies a partial record: present fields replace, absent fields stay. */
  function ApplyRecordPatch(rec: DrawRecord, p: RecordPatch): (r: DrawRecord)
    ensures p.isRedeemed.Some? ==> r.isRedeemed == p.isRedeemed.value
    ensures p.isRedeemed.None? ==> r.isRedeemed == rec.isRedeemed
    ensures p == RecordPatch(None, None, None, None, None, None, None) ==> r == rec
  {
    DrawRecord(OrElse(p.id, rec.id), OrElse(p.userName, rec.userName), OrElse(p.prizeName, rec.prizeName),
      OrElse(p.prizeType, rec.prizeType), OrElse(p.prizeValue, rec.prizeValue),
      OrElse(p.isRedeemed, rec.isRedeemed), OrElse(p.createdAt, rec.createdAt))
  }

  /** The one partial record the kiosk sends: `{ is_redeemed: true }`. */
  const RedeemPatch: RecordPatch := RecordPatch(None, None, None, None, None, Some(true), None)

  /** Applying the redeem patch sets the flag and leaves every other field as it was. */
  lemma RedeemPatchOnlyFlag(rec: DrawRecord)
    ensures ApplyRecordPatch(rec, RedeemPatch) == rec.(isRedeemed := true)
    ensures Unstored(ApplyRecordPatch(rec, RedeemPatch)) == Unstored(rec).(isRedeemed := true)
  {
  }
}
