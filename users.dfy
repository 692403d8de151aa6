/** The user table and `GetOrCreateUser`: a login finds the first stored user
    with the caller's uid and refreshes its e-mail and display name when they
    changed, or creates the user. The table keeps record keys and uids unique
    (the uid through the table's unique index); the queries sent are logged,
    and whether each database call succeeds is an input. */
module Users {
  import opened Base
  import opened Records
  import opened Auth

  /** A stored user; `key` is the record key the database assigned, empty on
      a user not yet written. */
  datatype User = User(
    key: string,
    firebaseUid: string,
    email: string,
    displayName: string,
    provider: string,
    createdAt: string,
    updatedAt: string)

  /** The queries a login sends. */
  datatype UserQuery =
    | SelectAll
    | UpdateProfile(key: string, email: string, displayName: string, updatedAt: string)
    | CreateUser(user: User)

  const CreateFailedPrefix := "failed to create user: "

  predicate UniqueUids(rows: seq<User>) {
    forall i, j :: 0 <= i < j < |rows| ==> rows[i].firebaseUid != rows[j].firebaseUid
  }

  predicate UniqueKeys(rows: seq<User>) {
    forall i, j :: 0 <= i < j < |rows| ==> rows[i].key != rows[j].key
  }

  /** The index of the first user with `uid`, if any. */
  function FirstWithUid(rows: seq<User>, uid: string): (r: Option<nat>)
    ensures r.Some? ==> r.value < |rows| && rows[r.value].firebaseUid == uid
    ensures r.Some? ==> forall j :: 0 <= j < r.value ==> rows[j].firebaseUid != uid
    ensures r.None? <==> forall j :: 0 <= j < |rows| ==> rows[j].firebaseUid != uid
  {
    if rows == [] then None
    else if rows[0].firebaseUid == uid then Some(0)
    else
      match FirstWithUid(rows[1..], uid)
      case None =>
        assert forall j :: 1 <= j < |rows| ==> rows[j] == rows[1..][j - 1];
        None
      case Some(i) =>
        assert forall j :: 1 <= j < i + 1 ==> rows[j] == rows[1..][j - 1];
        Some(i + 1)
  }

  /** In a table with unique uids the first match is the only one. */
  lemma FirstIsOnly(rows: seq<User>, uid: string, j: nat)
    requires UniqueUids(rows) && j < |rows| && rows[j].firebaseUid == uid
    ensures FirstWithUid(rows, uid) == Some(j)
  {
  }

  /** The stored user after a successful profile update. */
  function Refreshed(u: User, claims: UserClaims, now: string): User {
    u.(email := claims.email, displayName := claims.displayName, updatedAt := now)
  }

  /** The user a first login writes: identity, profile and provider from the
      claims, both times set to now. */
  function NewUser(claims: UserClaims, now: string): User {
    User("", claims.uid, claims.email, claims.displayName, claims.provider, now, now)
  }

  /** The table accepts a new record under `key` only when neither the key nor
      the uid is taken. */
  predicate CanInsert(rows: seq<User>, u: User, key: string) {
    forall j :: 0 <= j < |rows| ==> rows[j].firebaseUid != u.firebaseUid && rows[j].key != key
  }

  /** A login's reply, the table it leaves and the queries it sends. */
  datatype Login = Login(reply: Result<User, string>, rows: seq<User>, queries: seq<UserQuery>)

  /** `GetOrCreateUser` as a step from table `rows`. `selectOk` and `updateOk`
      say whether the read and the update succeed; `createKey` is the key of a
      create the database carries out (None when it fails for a reason the
      model does not see), and `dbMessage` its error text. */
  function LoginOf(rows: seq<User>, claims: UserClaims, selectOk: bool, updateOk: bool,
                   createKey: Option<string>, dbMessage: string, now: string): (l: Login)
    ensures l.reply.Ok? ==> l.reply.value.firebaseUid == claims.uid
    ensures l.reply.Ok? ==> l.reply.value.email == claims.email && l.reply.value.displayName == claims.displayName
    ensures l.reply.Err? ==> l.rows == rows && l.reply.error == CreateFailedPrefix + dbMessage
    ensures |l.queries| >= 1 && l.queries[0] == SelectAll
  {
    var found := if selectOk then FirstWithUid(rows, claims.uid) else None;
    if found.Some? then
      var stored := rows[found.value];
      if stored.email != claims.email || stored.displayName != claims.displayName then
        Login(Ok(stored.(email := claims.email, displayName := claims.displayName)),
              if updateOk then rows[found.value := Refreshed(stored, claims, now)] else rows,
              [SelectAll, UpdateProfile(stored.key, claims.email, claims.displayName, now)])
      else
        Login(Ok(stored), rows, [SelectAll])
    else
      var newcomer := NewUser(claims, now);
      if createKey.Some? && CanInsert(rows, newcomer, createKey.value) then
        Login(Ok(newcomer.(key := createKey.value)), rows + [newcomer.(key := createKey.value)], [SelectAll, CreateUser(newcomer)])
      else
        Login(Err(CreateFailedPrefix + dbMessage), rows, [SelectAll, CreateUser(newcomer)])
  }

  /** Found case: the first stored user with the uid is returned with the
      claims' e-mail and name, keeping its key, provider and times; nothing
      is created, and only that record is rewritten: its e-mail, name and
      update time, when they changed and the update succeeds. */
  lemma LoginFindsExisting(rows: seq<User>, claims: UserClaims, updateOk: bool,
                           createKey: Option<string>, dbMessage: string, now: string, i: nat)
    requires FirstWithUid(rows, claims.uid) == Some(i)
    ensures var l := LoginOf(rows, claims, true, updateOk, createKey, dbMessage, now);
      l.reply == Ok(rows[i].(email := claims.email, displayName := claims.displayName))
      && l.rows == (if updateOk && (rows[i].email != claims.email || rows[i].displayName != claims.displayName)
                    then rows[i := Refreshed(rows[i], claims, now)] else rows)
      && CreateUser(NewUser(claims, now)) !in l.queries
  {
  }

  /** An update is sent exactly when a user was found whose e-mail or name
      differs from the claims; a failed update leaves the table as it was
      but the reply is the same. */
  lemma LoginUpdatesOnlyOnChange(rows: seq<User>, claims: UserClaims, selectOk: bool, updateOk: bool,
                                 createKey: Option<string>, dbMessage: string, now: string)
    ensures var l := LoginOf(rows, claims, selectOk, updateOk, createKey, dbMessage, now);
      var found := if selectOk then FirstWithUid(rows, claims.uid) else None;
      (|l.queries| == 2 && l.queries[1].UpdateProfile?)
        <==> found.Some? && (rows[found.value].email != claims.email || rows[found.value].displayName != claims.displayName)
    ensures var l := LoginOf(rows, claims, selectOk, updateOk, createKey, dbMessage, now);
      l.reply == LoginOf(rows, claims, selectOk, !updateOk, createKey, dbMessage, now).reply
  {
  }

  /** Not-found case (or a failed read): a user built from the claims is
      created; the reply is that user under its new key, or the create error. */
  lemma LoginCreatesNew(rows: seq<User>, claims: UserClaims, selectOk: bool, updateOk: bool,
                        createKey: Option<string>, dbMessage: string, now: string)
    requires !selectOk || FirstWithUid(rows, claims.uid).None?
    ensures var l := LoginOf(rows, claims, selectOk, updateOk, createKey, dbMessage, now);
      var newcomer := NewUser(claims, now);
      l.queries == [SelectAll, CreateUser(newcomer)]
      && newcomer.firebaseUid == claims.uid && newcomer.email == claims.email
      && newcomer.displayName == claims.displayName && newcomer.provider == claims.provider
      && (l.reply.Ok? <==> createKey.Some? && CanInsert(rows, newcomer, createKey.value))
      && (l.reply.Ok? ==> l.reply.value == newcomer.(key := createKey.value) && l.rows == rows + [l.reply.value])
  {
  }

  /** With a failed read and a user already stored, the unique index makes the
      create fail, so the login fails. */
  lemma FailedReadOfKnownUserFails(rows: seq<User>, claims: UserClaims, updateOk: bool,
                                   createKey: Option<string>, dbMessage: string, now: string, j: nat)
    requires j < |rows| && rows[j].firebaseUid == claims.uid
    ensures LoginOf(rows, claims, false, updateOk, createKey, dbMessage, now).reply == Err(CreateFailedPrefix + dbMessage)
  {
    assert !CanInsert(rows, NewUser(claims, now), createKey.GetOr(""));
  }

  /** A login keeps keys and uids unique. */
  lemma LoginKeepsTableValid(rows: seq<User>, claims: UserClaims, selectOk: bool, updateOk: bool,
                             createKey: Option<string>, dbMessage: string, now: string)
    requires UniqueUids(rows) && UniqueKeys(rows)
    ensures var l := LoginOf(rows, claims, selectOk, updateOk, createKey, dbMessage, now);
      UniqueUids(l.rows) && UniqueKeys(l.rows)
  {
    var l := LoginOf(rows, claims, selectOk, updateOk, createKey, dbMessage, now);
    var found := if selectOk then FirstWithUid(rows, claims.uid) else None;
    if found.Some? {
      assert forall k :: 0 <= k < |l.rows| ==> l.rows[k].firebaseUid == rows[k].firebaseUid && l.rows[k].key == rows[k].key;
    }
  }

  /** A second login with the same claims right after a successful one (and a
      successful update, if one was sent) sends only the read, and returns the
      same user. */
  lemma {:induction false} SecondLoginQuiet(rows: seq<User>, claims: UserClaims, selectOk: bool,
                                            createKey: Option<string>, dbMessage: string, now: string,
                                            createKey2: Option<string>, now2: string)
    requires UniqueUids(rows)
    requires LoginOf(rows, claims, selectOk, true, createKey, dbMessage, now).reply.Ok?
    ensures var first := LoginOf(rows, claims, selectOk, true, createKey, dbMessage, now);
      var second := LoginOf(first.rows, claims, true, true, createKey2, dbMessage, now2);
      second.queries == [SelectAll] && second.rows == first.rows
      && second.reply.Ok? && second.reply.value.key == first.reply.value.key
  {
    var first := LoginOf(rows, claims, selectOk, true, createKey, dbMessage, now);
    var found := if selectOk then FirstWithUid(rows, claims.uid) else None;
    match found
    case Some(i) =>
      assert first.rows[i].firebaseUid == claims.uid;
      assert first.rows[i].email == claims.email && first.rows[i].displayName == claims.displayName;
      assert forall k :: 0 <= k < i ==> first.rows[k] == rows[k];
      assert FirstWithUid(first.rows, claims.uid) == Some(i);
    case None =>
      var n := |rows|;
      assert first.rows[n].firebaseUid == claims.uid;
      assert CanInsert(rows, NewUser(claims, now), createKey.value);
      assert forall k :: 0 <= k < n ==> first.rows[k] == rows[k];
      assert FirstWithUid(first.rows, claims.uid) == Some(n);
  }

  /** The user table with the log of queries sent to it. */
  class UserTable {
    var rows: seq<User>
    var queries: seq<UserQuery>

    predicate Valid()
      reads this
    {
      UniqueUids(rows) && UniqueKeys(rows)
    }

    constructor ()
      ensures rows == [] && queries == [] && Valid()
    {
      rows := [];
      queries := [];
    }

    /** The scan of the read result for the first user with `uid`. */
    method FindByUid(uid: string) returns (r: Option<nat>)
      ensures r.Some? ==> r.value < |rows| && rows[r.value].firebaseUid == uid
      ensures r.Some? ==> forall j :: 0 <= j < r.value ==> rows[j].firebaseUid != uid
      ensures r.None? <==> forall j :: 0 <= j < |rows| ==> rows[j].firebaseUid != uid
    {
      var i := 0;
      while i < |rows|
        invariant 0 <= i <= |rows|
        invariant forall j :: 0 <= j < i ==> rows[j].firebaseUid != uid
      {
        if rows[i].firebaseUid == uid {
          return Some(i);
        }
        i := i + 1;
      }
      return None;
    }

    /** `GetOrCreateUser`. */
    method GetOrCreateUser(claims: UserClaims, selectOk: bool, updateOk: bool,
                           createKey: Option<string>, dbMessage: string, now: string) returns (r: Result<User, string>)
      requires Valid()
      modifies this
      ensures Valid()
      ensures var l := LoginOf(old(rows), claims, selectOk, updateOk, createKey, dbMessage, now);
        r == l.reply && rows == l.rows && queries == old(queries) + l.queries
    {
      ghost var l := LoginOf(rows, claims, selectOk, updateOk, createKey, dbMessage, now);
      LoginKeepsTableValid(rows, claims, selectOk, updateOk, createKey, dbMessage, now);
      var found: Option<nat> := None;
      if selectOk {
        found := FindByUid(claims.uid);
        FirstIsOnlyMatch(rows, claims.uid, found);
      }
      queries := queries + [SelectAll];
      if found.Some? {
        var user := rows[found.value];
        if user.email != claims.email || user.displayName != claims.displayName {
          queries := queries + [UpdateProfile(user.key, claims.email, claims.displayName, now)];
          if updateOk {
            rows := rows[found.value := Refreshed(user, claims, now)];
          }
          user := user.(email := claims.email, displayName := claims.displayName);
        }
        return Ok(user);
      }
      var newcomer := NewUser(claims, now);
      queries := queries + [CreateUser(newcomer)];
      // The write goes through only under a free key and a free uid.
      if createKey.Some? && CanInsert(rows, newcomer, createKey.value) {
        var created := newcomer.(key := createKey.value);
        rows := rows + [created];
        r := Ok(created);
      } else {
        r := Err(CreateFailedPrefix + dbMessage);
      }
    }
  }

  /** The scan's result is the first match. */
  lemma FirstIsOnlyMatch(rows: seq<User>, uid: string, found: Option<nat>)
    requires found.Some? ==> found.value < |rows| && rows[found.value].firebaseUid == uid
    requires found.Some? ==> forall j :: 0 <= j < found.value ==> rows[j].firebaseUid != uid
    requires found.None? <==> forall j :: 0 <= j < |rows| ==> rows[j].firebaseUid != uid
    ensures found == FirstWithUid(rows, uid)
  {
  }

  /** `getCurrentUserHandler`: 401 without claims in the context, 500 with the
      create error, otherwise the logged-in user. */
  method CurrentUserHandler(ctx: RequestContext, table: UserTable, selectOk: bool, updateOk: bool,
                            createKey: Option<string>, dbMessage: string, now: string) returns (r: Result<User, HttpError>)
    requires table.Valid()
    modifies table
    ensures table.Valid()
    ensures GetCurrentUser(ctx).Err? ==> r == Err(NotAuthenticated) && table.rows == old(table.rows) && table.queries == old(table.queries)
    ensures GetCurrentUser(ctx).Ok? ==>
      var l := LoginOf(old(table.rows), GetCurrentUser(ctx).value, selectOk, updateOk, createKey, dbMessage, now);
      table.rows == l.rows && table.queries == old(table.queries) + l.queries
      && r == match l.reply case Ok(u) => Ok(u) case Err(e) => Err(HttpError(StatusInternalServerError, e))
  {
    var claims := GetCurrentUser(ctx);
    if claims.Err? {
      return Err(NotAuthenticated);
    }
    var user := table.GetOrCreateUser(claims.value, selectOk, updateOk, createKey, dbMessage, now);
    match user
    case Ok(u) => r := Ok(u);
    case Err(e) => r := Err(HttpError(StatusInternalServerError, e));
  }
}
