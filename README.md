# Gacha kiosk: draw and settlement core

A model of the draw-and-settlement core of a points-based gacha kiosk, with proofs about it. A signed-in student pays 30 points per draw. A weighted selector picks one prize from an 18-entry table. Settlement credits POINT prizes and counts the two reserved fragment prizes. With a store configured and a signed-in account, it also asks the store to write one ledger entry per draw; without a store, for the offline account, or when that insert fails, the draw lands only in the screen's own history. Staff can mark cash, voucher and physical prizes as handed out ("redeem"), and can add points to or take them from an account.

Modules, one file each:

- `types.dfy`, module `Types`. The prize categories and rarity tiers, the prize, the in-memory user and the ledger entry. Also the row, insert and update shapes of the two store tables `users` and `records`.
- `text.dfy`, module `Text`. The three string built-ins the core depends on:
  - `trim`;
  - `parseInt` with no radix, which skips white space, reads an optional sign and a `0x` prefix, takes the longest digit run, and gives `NaN` (`None`) when there is no digit;
  - `String(n)` for store ids.
- `catalogue.dfy`, module `Catalogue`. `PRIZE_POOL` and `COST_PER_DRAW`. Each weight is the source's percentage times 100, so 3.52 % is 352 and the table totals 10000. Running totals and category subtotals are defined here, with the table's invariants.
- `selector.dfy`, module `Selector`. `drawPrize` as a loop over the table, specified by `Pick`, a function giving the first entry whose running total is at least `r`.
  - The random value `r` is a parameter in the weights' unit, so `Math.random() * 100` becomes a real `r` in [0, 10000).
  - The comparison is `r <= total`, as in the source.
- `store.dfy`, module `Store`. The backing store as a class holding the `users` map (keyed by serial id), the `records` sequence, and whether a store is configured at all.
  - Each method is one request the kiosk sends.
  - A boolean parameter says whether the request reached the store.
- `session.dfy`, module `Session`:
  - the `{ ...user, ...updates }` merge of `handleUpdateUser`;
  - the login form's two submit guards;
  - `handleLogin`: load, create, or go offline.
- `gacha.dfy`, module `Gacha`. The draw screen as a class `Machine`, whose fields are the user, the phase, the prize shown, the history, and the post-charge balance handed to settlement.
  - `HandleStart` runs `Start` (guard and charge), `Open` (selection and `processDrawTransaction`) and `Reveal` in order.
  - `Reset`, from REVEALED, returns the machine to IDLE, and `DrawCycle` is a whole draw followed by that reset.
  - `DrawResult` states a whole draw's effect on the user.
- `admin.dfy`, module `Admin`. The staff panel's redeem eligibility test, `handleRedeem` and `handleUpdatePoints`.

Inputs the model receives as parameters:

- the random value of a draw;
- whether each store request succeeds;
- the id and timestamp strings that `Date.now()` and `new Date()` produce on the kiosk (`tempId`, `now`);
- the time the store stamps on the ledger row it inserts (`storedAt`), which is the store's own clock and not the kiosk's.

Staff confirmation dialogs are taken as confirmed.

## Model

| member | source | states |
|---|---|---|
| Types.TypeName | types.ts:1-8 | Each category's stored string is its own name: `EMPTY`, `POINT`, `CASH`, `VOUCHER`, `PHYSICAL`, `FRAGMENT`. |
| Types.ParseType | types.ts:1-8 | Reading a stored string back gives the category of that name, and nothing for any other string. |
| Types.PrizeTypesComplete | types.ts:1-8 | There are exactly six prize categories, pairwise distinct, with distinct stored strings. |
| Types.TypeNameRoundTrip | types.ts:1-8 | A category's stored string reads back as that category, and it is the only string that does. |
| Types.Rank | types.ts:10-15 | Each rarity tier has a position in the four-tier declaration order. |
| Types.RarityOrder | types.ts:10-15 | The tiers are ordered COMMON < UNCOMMON < RARE < LEGENDARY. Distinct tiers have distinct positions and distinct style values. |
| Types.RowOfInsert | types.ts:61-66 | From a users insert, the store keeps the name and every counter the insert gives. It fills in its own id and time, and the default for each omitted counter. |
| Types.ApplyUserUpdate | types.ts:67-71 | A users update can never change id, name or creation time. An empty update changes nothing. |
| Types.UserOfRow | App.tsx:727-733 | A loaded user carries the row's id, name, points and both fragment counters. |
| Types.StoredRoundTrip | types.ts:73-75 | The records insert shape and the stored entry differ only in the store-assigned `id` and `created_at`. |
| Types.ApplyRecordPatch | types.ts:76 | In a partial record, a present flag replaces the stored one, an absent flag keeps it, and an empty patch keeps the whole entry. |
| Types.RedeemPatchOnlyFlag | App.tsx:195 | `{ is_redeemed: true }` sets the flag and leaves every other field of the entry as it was. |
| Text.LeadingSpace | App.tsx:35 | Counts the white space at the start, and the character after it is not white space. |
| Text.TrailingSpace | App.tsx:35 | Counts the white space at the end, and the character before it is not white space. |
| Text.Trim | App.tsx:35-36 | The trimmed name is a contiguous slice of the typed name, with only white space cut off either end. The result neither starts nor ends with white space. |
| Text.TrimBlank | App.tsx:35 | Trimming gives the empty string exactly when the text is all white space. |
| Text.TrimIdempotent | App.tsx:35-36 | Trimming twice is trimming once. |
| Text.DigitRun | App.tsx:208 | Gives the length of the longest leading run of digits: every character in the run is a digit and the next is not. |
| Text.IsSpace | App.tsx:35 | The characters that `trim` and `parseInt` skip: the ASCII blanks and line ends, no-break space, the Unicode space separators, the line and paragraph separators and the byte-order mark. |
| Text.Unsigned | App.tsx:208 | The text `parseInt` reads digits from: what follows the leading white space and one optional sign. |
| Text.Negative | App.tsx:208 | The first character after the leading white space is a minus sign. |
| Text.HexPrefixed | App.tsx:208 | The unsigned text starts with `0x` or `0X`, which switches to base 16. |
| Text.NoDigit | App.tsx:208 | No digit starts the number: after a `0x` prefix no hexadecimal digit follows it, otherwise the unsigned text does not start with a decimal digit. |
| Text.ParseMagnitude | App.tsx:208 | The magnitude is `NaN` exactly when no digit starts the number, and is never negative otherwise. |
| Text.ParseInt | App.tsx:208 | `parseInt` is `NaN` exactly when no digit follows the white space, the sign and the prefix. A negative result only ever follows a minus sign. |
| Text.MagnitudeDecimal | App.tsx:208 | A decimal digit run followed by a non-digit has the run's value as its magnitude, unless it is `0` followed by `x` or `X`. |
| Text.MagnitudeHex | App.tsx:208 | After `0x` or `0X`, a hexadecimal digit run followed by a non-digit has the run's base-16 value as its magnitude. |
| Text.ParseIntSigned | App.tsx:208 | White space and an optional sign in front of a text with magnitude `m` read as `m` with that sign. |
| Text.ParseIntDecimal | App.tsx:208 | For any white space `w`, optional sign, nonempty decimal digit run `d` and `rest` not continuing the run (and not `0x`), reading `w + sign + d + rest` gives the value of `d`, negated after `-`. |
| Text.ParseIntHex | App.tsx:208 | The same rule after a `0x` or `0X` prefix, with hexadecimal digits in either case and base 16. |
| Text.ParseIntExponentText | App.tsx:208 | `parseInt("1e3")` is 1: reading stops at the first non-digit. |
| Text.ParseIntFractionText | App.tsx:208 | `parseInt("12.5")` is 12: a fraction is cut off. |
| Text.ParseIntLeadingZeros | App.tsx:208 | `parseInt("007")` is 7. |
| Text.ParseIntBlankAndSign | App.tsx:208 | `parseInt(" -30")` is -30. |
| Text.ParseIntHexText | App.tsx:208 | `parseInt("0x1F")` is 31. |
| Text.ParseIntNaNTexts | App.tsx:208-209 | `.5`, the empty text and a lone `-` are `NaN`. |
| Text.ParseIntBlank | App.tsx:208-209 | All-blank text, the empty text included, is `NaN`. |
| Text.ParseIntNonDigit | App.tsx:208-209 | Text whose first non-blank character is neither a sign nor a digit is `NaN`. |
| Text.NatToDecimal | App.tsx:156 | `String(id)` is a nonempty run of decimal digits, with no leading zero unless the id is 0. |
| Text.DecimalRoundTrip | App.tsx:156 | `parseInt(String(n))` is `n`: the panel's id text leads back to the stored id. |
| Text.DecimalInjective | App.tsx:156 | Distinct ids have distinct id texts. |
| Text.SignedRoundTrip | App.tsx:208 | A delta typed with a `-` or `+` sign is read with that sign. |
| Text.ParseIntRejects | App.tsx:208-212 | Empty text, blank text, a lone sign, and text whose first non-blank character is neither a sign nor a digit are not numbers. |
| Catalogue.CostAboveRefunds | constants.ts:5-37 | A draw costs 30 points, and every POINT prize of the table gives back a positive amount below that. |
| Catalogue.CategoriesPartitionWeight | constants.ts:3 | The six category subtotals of any table add up to its total weight. |
| Catalogue.PoolWeightsListed | constants.ts:7-34 | The table's weights are, in order, its percentages times 100. |
| Catalogue.PoolRunningTotals | constants.ts:5-35 | The running totals reach 2000, 4552, 7052, 7602, 9952 and 10000 at the ends of the six category groups. |
| Catalogue.PoolWeights | constants.ts:3-35 | The weights sum to 10000, which is 100 %, and every weight is positive. |
| Catalogue.PoolCategoryWeights | constants.ts:6-32 | The category subtotals are those the comments give: EMPTY 20 %, POINT 25.52 %, CASH 25 %, VOUCHER 5.5 %, PHYSICAL 23.5 % and FRAGMENT 0.48 %. |
| Catalogue.PoolIds | constants.ts:7-34 | The ids are pairwise distinct, and `p_frag_500` and `p_frag_free` each occur exactly once. |
| Catalogue.PoolFallback | constants.ts:7 | The selector's fallback entry 0 is `p_empty`, of category EMPTY and value 0. |
| Catalogue.PoolValues | constants.ts:7-34 | EMPTY and FRAGMENT entries have value 0. The POINT values are exactly 5, 10 and 20. An entry is a FRAGMENT exactly when its id is one of the two fragment ids. |
| Selector.PrefixMonotone | App.tsx:482-483 | The running total never goes down along the table. |
| Selector.PickFrom | App.tsx:479-487 | Continuing the walk from entry `k`, the result is the first entry from `k` on that the total reaches. If no entry is reached, the result is the fallback index 0. |
| Selector.Pick | App.tsx:479-487 | The selected index is the first entry whose running total is at least `r`. If no entry's total is, it is 0. On a nonempty table it is always inside the table. |
| Selector.DrawPrize | App.tsx:479-487 | The loop returns the entry `Pick` names. It returns nothing only for an empty table. |
| Selector.PickStretch | App.tsx:481-485 | For `r` up to the total weight, entry `i` is selected exactly when `r` lies in its stretch: above the total before it (entry 0: no lower bound) and at most the total after it. |
| Selector.ZeroWeightNeverPicked | App.tsx:482-485 | An entry of weight 0 after index 0 is never selected, for any `r`. |
| Selector.PoolNeverFallsBack | App.tsx:480-486 | For `r` in [0, 10000) the walk always hits an entry of the kiosk's table. |
| Selector.PoolEntryOdds | App.tsx:480-485 | Each entry of the kiosk's table owns a stretch of the scale whose length is exactly its weight, is positive, and lies inside [0, 10000]. Every `r` in the stretch selects it. |
| Store.MarkRedeemed | App.tsx:195 | The redeem update keeps the length and every field except the flag. A row's flag becomes true exactly when its numeric id matches, and stays as it was otherwise. |
| Store.MarkRedeemedOne | App.tsx:194-195 | With serial ids, redeeming id `k` flips the flag of the `k`-th entry and of no other. |
| Store.MarkRedeemedIdempotent | App.tsx:195 | Redeeming the same id twice is the same as redeeming it once. |
| Store.Store.constructor | supabaseClient.ts:8-13 | A new store is configured exactly as given, and empty: no users, no records, and the first serial id 1. |
| Store.Store.FindByName | App.tsx:721-725 | `.single()` on a name returns a row exactly when the request succeeds and exactly one row has that name. That row is the stored one. |
| Store.Store.ReadPoints | App.tsx:219-220 | Reading points by id succeeds exactly when the request succeeds and the id is stored, and then gives the stored balance. |
| Store.Store.InsertUser | App.tsx:738-742 | A successful user insert adds one row under the next serial id, built from the insert. A failed insert changes nothing. |
| Store.Store.UpdateUser | App.tsx:556-560 | A users update changes only the row with that id, if there is one. Reaching no row is not an error. |
| Store.Store.InsertRecord | App.tsx:550 | A successful records insert appends the entry with the next serial id. A failed one changes nothing. |
| Store.Store.SetRedeemed | App.tsx:195 | A successful redeem update leaves the records as `MarkRedeemed` says, and the users untouched. |
| Session.Merge | App.tsx:769-773 | In the merged user, every field the update carries replaces the user's, and every other field stays. |
| Session.UpdateSignedIn | App.tsx:769-773 | With nobody signed in, an update is dropped. Otherwise the signed-in user is merged with it. |
| Session.MergeLaws | App.tsx:771 | The empty update changes nothing. Merging twice with the same update is merging once. Two merges are one merge of the combined update. A full update ignores the user it lands on. |
| Session.Submit | App.tsx:33-47 | A student signs in exactly when the name is not all white space, and then with the trimmed name. Staff get in exactly with the passphrase `EPE2026`. Any other nonempty password gives the wrong-password outcome. A blank name, and an empty password, which the form's required field holds back, do nothing. |
| Session.SubmitTrimStable | App.tsx:35-36 | Submitting the name a sign-in produced signs in with the same name. |
| Session.OfflineUser | App.tsx:754-762 | The offline account has id 0, the typed name, 300 points and no fragments. |
| Session.Login | App.tsx:714-767 | Offline, the session gets the offline account. Online, the one row with the name is loaded. Otherwise a row with 300 points is inserted and loaded, or, if that insert fails, nobody is signed in. Records never change, and the next serial id moves on only with a successful insert. |
| Gacha.Offline | App.tsx:518 | Settlement is skipped without a store, and for a user with no id or the offline id 0. |
| Gacha.Credit | App.tsx:547 | Only a POINT prize credits anything, its value; every other prize credits 0. |
| Gacha.SettlementPatch | App.tsx:541-547 | The online update: balance after the charge plus the credit, and each fragment counter plus one exactly for its reserved prize. |
| Gacha.RecordOf | App.tsx:533-539 | The ledger entry copies the user's name and the prize's name, category string and value, and is unredeemed. |
| Gacha.DrawResult | App.tsx:489-570 | A draw always charges 30 points. Online, the balance ends at `B - 30 + value` for a POINT prize and `B - 30` otherwise. `p_frag_500` adds exactly one to its counter, `p_frag_free` exactly one to the other, and neither counter ever goes down. Offline, only the charge applies. |
| Gacha.DrawResultCharged | App.tsx:498-547 | A whole draw is settlement applied to the charged user. The charge changes neither whether the draw is offline nor the ledger entry. |
| Gacha.PoolDrawEffects | App.tsx:541-546 | For the kiosk's table, an online draw moves the balance by -30, -25, -20 or -10, and above `B - 30` exactly for POINT prizes. It adds one fragment in all exactly for FRAGMENT prizes, and never moves both counters. |
| Gacha.ThreeDrawScenario | App.tsx:497-546 | From 300 points, draws landing on `p_pt_5`, `p_cash_20` and `p_cash_5` leave 275, 245 and 215 points, with the fragments unchanged. |
| Gacha.Machine.constructor | App.tsx:458-460 | A new draw screen is IDLE, with no prize shown and an empty history. |
| Gacha.Machine.Start | App.tsx:489-501 | The draw starts exactly when the phase is IDLE and the balance is at least 30. It then charges 30 at once and shakes. Otherwise nothing changes. |
| Gacha.Machine.Open | App.tsx:503-509 | From SHAKING: the prize `Pick` names is shown, the phase is OPENING, and the draw is settled as `Settled` says. No user row is created. |
| Gacha.Machine.Settled | App.tsx:517-575 | The state settlement leaves. Offline: only the entry at the front of the history. Online: the user merged with `SettlementPatch`; the store's records and users changed exactly by the writes that succeed, the record stamped with the store's time; the history's copy with the kiosk's id and time. |
| Gacha.Machine.ProcessDrawTransaction | App.tsx:517-575 | Offline or with id 0: only the entry at the front of the history. Online: the user gets the settled balance and counters even when either write fails. The store holds the entry and the user update for exactly the writes that succeed. The entry goes at the front of the history. No user row is created. |
| Gacha.Machine.Reveal | App.tsx:511-513 | OPENING becomes REVEALED. |
| Gacha.Machine.Reset | App.tsx:577-580 | From REVEALED, the only phase whose card shows the button, the phase returns to IDLE and the prize is cleared. |
| Gacha.Machine.HandleStart | App.tsx:489-515 | A refused draw changes nothing, the store included. A draw that runs ends REVEALED, showing the selected prize, with the user as `DrawResult` says, the new entry at the front of the history, and the store as `Settled` says for the charged user. |
| Gacha.Machine.DrawCycle | App.tsx:489-580 | From IDLE with enough points, a draw and the card's button bring the screen back to IDLE with no prize, the user as `DrawResult` says, the entry at the front of the history, the store as `Settled` says for the charged user, and no user row created. |
| Admin.RedeemOffered | App.tsx:329 | The redeem action is offered exactly for an unredeemed entry whose category is CASH, VOUCHER, PHYSICAL, or no category at all. |
| Admin.DrawnEntryRedeemable | App.tsx:329 | An entry a draw wrote offers the action exactly when the prize is cash, a voucher or a physical item. It never does once redeemed. |
| Admin.Redeem | App.tsx:189-204 | Online, with a numeric id and a successful request, the records become `MarkRedeemed` of them. Without a store, with non-numeric id text, or with a failed request, nothing changes. Users never change. |
| Admin.RedeemListedEntry | App.tsx:194-197 | Redeeming an entry through its listed id text flips that entry's flag only, after which it no longer offers the action. |
| Admin.Adjusted | App.tsx:222-225 | The adjusted row has points `stored + delta` and is otherwise the same row. |
| Admin.AdjustedInverse | App.tsx:222-225 | Adjusting by `d` and then `-d` restores the row. Two adjustments add up. A zero adjustment changes nothing. |
| Admin.AdjustPoints | App.tsx:206-236 | These cases change nothing: no selected user or an empty delta, a non-numeric delta, no store, an unknown id or failed read, or a failed write. Otherwise the freshly read stored balance plus the delta is written, with no bound either way, and only that row changes. |

## Left out

- The view layer: JSX markup, styling and the connection banner. Also the fragment "lit slots" display (`% 3`), the draw screen's `loadHistory` effect, which fills the history with the user's ten newest stored records on sign-in (App.tsx:462-477), and the staff lists' ordering, `ilike` search and debounce.
- Gacha.Machine.Valid: because `loadHistory` is left out, the history starts empty and only ever holds entries this screen wrote, so every entry is unredeemed. Loaded rows can already be redeemed, so with `loadHistory` the `!isRedeemed` part of the invariant would not hold.
- Store.SerialIds: the model numbers ledger rows 1, 2, 3, ... without gaps, in insertion order. A real serial column can skip values, for example after a failed insert. `Store.MarkRedeemedOne` and `Admin.RedeemListedEntry` only need the ids to be distinct and written in canonical decimal, but they are stated for the gap-free numbering.
- The animation timers. The model keeps the order of the phase changes (IDLE, SHAKING, OPENING, REVEALED, then IDLE through `Reset`), not their timing.
- Randomness. `Math.random` becomes the parameter `r`. Floating-point drift cannot arise with integer weights.
- Clocks. The `Date.now()` and `new Date()` id and time strings become parameters. The store's `created_at` for an inserted ledger row is a separate parameter, so the model does not assume it equals the kiosk's time on the history copy.
- Text.NatToDecimal: JavaScript numbers are IEEE doubles, and the model's integers are unbounded. `parseInt` rounds digit runs beyond 2^53 (`parseInt("9007199254740993")` is 9007199254740992), and `String(n)` switches to exponent form from 1e21. So `Text.NatToDecimal`, `Text.ParseInt`, `Text.DecimalRoundTrip`, `Text.SignedRoundTrip` and the point sums match JavaScript only below 2^53.
- The network. Each store request becomes a method of `Store.Store`, with a boolean saying whether it reached the store. Exceptions thrown while sending are folded into "failed". The client library behind `supabaseClient.ts` is not part of this model; only its `isSupabaseConfigured` flag is, as `Store.Store`'s `configured`.
- Concurrency. Two draws at once, and another client writing between the staff read and write, are not modelled.
- Alerts and confirmation dialogs. A cancelled confirmation does nothing, and so does the model when it is not called.
- Column defaults. The `users` table's schema is not part of this model, so `Types.ColumnDefault` (0) stands for the default of an omitted counter.
- Admin.Redeem: a non-numeric id text sends `eq('id', NaN)`, which the model treats as a failed request. The panel's id texts always come from `String(id)`, which `Text.DecimalRoundTrip` shows are numeric.
- Gacha.Machine.ProcessDrawTransaction: the source reads the user from the closure of the render that started the draw. The model reads the current user instead. Between the charge and settlement the two differ only in the balance, and settlement takes the balance from its parameter, as the source does.
- The prize images (`image?`) are `None` throughout; the table sets none.

## Where the code and its description differ

The model follows the code in each case below.

- Stretch boundaries:
  - Described: entry `i` owns [C(i-1), C(i)) and is picked when `r < total`.
  - The code picks when `r <= total`, so entry `i` owns (C(i-1), C(i)] (`Selector.PickStretch`).
  - Only the boundary points move, and `r = 0` still selects entry 0.
- Redeem errors:
  - Described: redeem fails with a not-found error for an unknown id and an already-redeemed error for a redeemed entry.
  - The code sends the update regardless. An unknown id changes no row, and a redeemed entry stays redeemed; neither is reported (`Store.MarkRedeemed`, `Store.MarkRedeemedIdempotent`).
- Duplicate names:
  - A name held by two rows makes `.single()` fail.
  - `handleLogin` then inserts a third row with that name rather than loading one (`Session.Login`).
- Unreachable store:
  - Described: when the store cannot be reached, the kiosk falls back to an unsaved offline account.
  - The code goes offline only when no store is configured (App.tsx:719, 754). With a configured store that cannot be reached, the lookup and the insert both fail and nobody is signed in (App.tsx:744-765; the failed-insert branch of `Session.Login`).
- Empty table: the selector returns `PRIZE_POOL[0]`, which is `undefined`, rather than raising a configuration error (`Selector.DrawPrize` returns `None`).
