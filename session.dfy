/**
 * The session around a draw: the login form's two submit guards, account
 * resolution on login, and the partial-update merge the draw screen uses to
 * change the signed-in user.
 */
module Session {
  import opened Types
  import opened Text
  import Store

  /** Points a new account starts with, in the store and offline. */
  const StartingPoints: int := 300

  /** The id an offline account is given; the draw treats it as "no id". */
  const OfflineId: int := 0

  /** The staff passphrase the login form compares against. */
  const StaffPassphrase: string := "EPE2026"

  /** A partial user: each present field replaces the user's, absent ones stay. */
  datatype UserPatch = UserPatch(
    id: Option<int>,
    name: Option<string>,
    points: Option<int>,
    fragment500: Option<int>,
    fragmentFree: Option<int>)

  const NoChange: UserPatch := UserPatch(None, None, None, None, None)

  /** `{ ...user, ...updates }`: the fields the patch carries win, the others are the user's. */
  function Merge(u: User, p: UserPatch): (r: User)
    ensures p.id.Some? ==> r.id == p.id
    ensures p.id.None? ==> r.id == u.id
    ensures r.name == OrElse(p.name, u.name)
    ensures r.points == OrElse(p.points, u.points)
    ensures r.fragment500 == OrElse(p.fragment500, u.fragment500)
    ensures r.fragmentFree == OrElse(p.fragmentFree, u.fragmentFree)
  {
    User(if p.id.Some? then p.id else u.id, OrElse(p.name, u.name), OrElse(p.points, u.points),
      OrElse(p.fragment500, u.fragment500), OrElse(p.fragmentFree, u.fragmentFree))
  }

  /** Spreading `q` after `p`: a field of `q` wins over the same field of `p`. */
  function Then(p: UserPatch, q: UserPatch): UserPatch
  {
    UserPatch(if q.id.Some? then q.id else p.id, if q.name.Some? then q.name else p.name,
      if q.points.Some? then q.points else p.points,
      if q.fragment500.Some? then q.fragment500 else p.fragment500,
      if q.fragmentFree.Some? then q.fragmentFree else p.fragmentFree)
  }

  /**
   * Merging is a right-biased override: the empty patch changes nothing,
   * merging the same patch again changes nothing more, two merges in a row
   * are one merge of the combined patch, and a patch that names every
   * field wins regardless of the user it lands on.
   */
  lemma MergeLaws(u: User, v: User, p: UserPatch, q: UserPatch)
    ensures Merge(u, NoChange) == u
    ensures Merge(Merge(u, p), p) == Merge(u, p)
    ensures Merge(Merge(u, p), q) == Merge(u, Then(p, q))
    ensures p.id.Some? && p.name.Some? && p.points.Some? && p.fragment500.Some? && p.fragmentFree.Some?
      ==> Merge(u, p) == Merge(v, p)
  {
  }

  /** `handleUpdateUser`: with nobody signed in an update is dropped; otherwise the user is merged with it. */
  function UpdateSignedIn(signedIn: Option<User>, p: UserPatch): (r: Option<User>)
    ensures r.None? <==> signedIn.None?
    ensures r.Some? ==> r.value == Merge(signedIn.value, p)
  {
    match signedIn
    case None => None
    case Some(u) => Some(Merge(u, p))
  }

  /** The two submit forms of the login screen. */
  datatype LoginAttempt = StudentLogin(name: string) | StaffLogin(password: string)

  /** What submitting leads to: a login with a name, the staff panel, nothing, or the wrong-password alert. */
  datatype LoginOutcome = SignIn(name: string) | OpenAdmin | StayOnForm | WrongPassword

  /**
   * The submit guards. Both inputs are required, so the browser refuses to
   * submit an empty text and nothing happens. A student signs in with the
   * trimmed name when that is not empty (a blank name does nothing); staff
   * get in with exactly the passphrase and see the alert otherwise.
   */
  function Submit(a: LoginAttempt): (o: LoginOutcome)
    ensures o.SignIn? <==> a.StudentLogin? && !AllSpace(a.name)
    ensures o.SignIn? ==> o.name == Trim(a.name) && o.name != [] && !IsSpace(o.name[0]) && !IsSpace(o.name[|o.name| - 1])
    ensures o == OpenAdmin <==> a == StaffLogin(StaffPassphrase)
    ensures o == StayOnForm <==> (a.StudentLogin? && AllSpace(a.name)) || a == StaffLogin([])
    ensures o == WrongPassword <==> a.StaffLogin? && a.password != [] && a.password != StaffPassphrase
  {
    match a
    case StudentLogin(name) =>
      TrimBlank(name);
      if Trim(name) != [] then SignIn(Trim(name)) else StayOnForm
    case StaffLogin(password) =>
      if password == [] then StayOnForm
      else if password == StaffPassphrase then OpenAdmin else WrongPassword
  }

  /** Signing in again with the name a sign-in produced gives the same name. */
  lemma SubmitTrimStable(name: string)
    requires Submit(StudentLogin(name)).SignIn?
    ensures Submit(StudentLogin(Submit(StudentLogin(name)).name)) == Submit(StudentLogin(name))
  {
    TrimIdempotent(name);
    TrimBlank(Trim(name));
  }

  /** The account an offline session uses. */
  function OfflineUser(name: string): (u: User)
    ensures u.id == Some(OfflineId) && u.name == name && u.points == StartingPoints
    ensures u.fragment500 == 0 && u.fragmentFree == 0
  {
    User(Some(OfflineId), name, StartingPoints, 0, 0)
  }

  /**
   * `handleLogin`. With a store: load the one row with that name; without one
   * (or when the lookup fails), insert a new row with 300 points and load it;
   * when that insert fails, nobody is signed in. Without a store: an unsaved
   * account with id 0, 300 points and no fragments.
   */
  method Login(store: Store.Store, name: string, lookupOk: bool, insertOk: bool, now: string)
    returns (u: Option<User>)
    requires store.Valid()
    modifies store
    ensures store.Valid() && store.records == old(store.records)
    ensures !store.configured ==> (u == Some(OfflineUser(name)) && store.users == old(store.users)
      && store.nextUserId == old(store.nextUserId))
    ensures store.configured && lookupOk && |old(store.Named(name))| == 1 ==>
      (exists k :: old(store.Named(name)) == {k} && u == Some(UserOfRow(old(store.users)[k])))
      && store.users == old(store.users) && store.nextUserId == old(store.nextUserId)
    ensures store.configured && !(lookupOk && |old(store.Named(name))| == 1) ==>
      (insertOk ==> u == Some(User(Some(old(store.nextUserId)), name, StartingPoints, ColumnDefault, ColumnDefault))
                    && store.users == old(store.users)[old(store.nextUserId) := UserRow(old(store.nextUserId), name, StartingPoints, ColumnDefault, ColumnDefault, now)]
                    && store.nextUserId == old(store.nextUserId) + 1)
      && (!insertOk ==> u == None && store.users == old(store.users) && store.nextUserId == old(store.nextUserId))
  {
    if !store.configured {
      return Some(OfflineUser(name));
    }
    var found := store.FindByName(name, lookupOk);
    if found.Some? {
      return Some(UserOfRow(found.value));
    }
    var created := store.InsertUser(UserInsert(name, Some(StartingPoints), None, None), now, insertOk);
    if created.Some? {
      u := Some(UserOfRow(created.value));
    } else {
      u := None;
    }
  }
}
