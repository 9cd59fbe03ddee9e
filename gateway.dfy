/** The database the commands consult before they touch the collection.
    Only what the commands can observe is kept: the users table, which
    login and registration read and extend, and a log of the statements
    sent to the bands table with the answer each one got. Whether the
    database accepts a statement is outside the model, so those answers
    are arbitrary. */
module Persistence {
  import opened Base
  import opened Bands
  import opened Network

  /** A row of the users table: the login, the hash of password + salt and
      the salt. */
  datatype UserRow = UserRow(login: Option<string>, passwordHash: string, salt: string)

  /** A statement sent to the bands table and what came back. */
  datatype Call =
    | InsertBand(band: MusicBand, owner: Option<string>, issued: int)
    | UpdateBand(id: int, band: MusicBand, updated: bool)
    | DeleteBand(owner: Option<string>, id: int, deleted: bool)

  /** Java's `password + salt`: a null password is rendered as "null". */
  function Salted(password: Option<string>, salt: string): string
  {
    match password
    case None => "null" + salt
    case Some(p) => p + salt
  }

  /** A row stands for the given credentials: the `WHERE login = ?` query
      selects it (a null login selects nothing) and the stored hash is the
      hash of the salted password. */
  predicate Matches(row: UserRow, login: Option<string>, password: Option<string>, hash: string -> string)
  {
    login.Some? && row.login == login && row.passwordHash == hash(Salted(password, row.salt))
  }

  /** Some stored row matches the credentials. */
  ghost predicate Known(users: seq<UserRow>, login: Option<string>, password: Option<string>, hash: string -> string)
  {
    exists i :: 0 <= i < |users| && Matches(users[i], login, password, hash)
  }

  /** What `addUser` can leave of the users table: the rows as they were,
      or those rows and one more with the login and the hash of the
      password salted with that row's salt. */
  predicate AddedUser(hash: string -> string, login: Option<string>, password: Option<string>, u0: seq<UserRow>, u1: seq<UserRow>)
  {
    |u0| <= |u1| <= |u0| + 1 && u1[..|u0|] == u0
    && (|u1| > |u0| ==>
          var row := u1[|u0|];
          row.login == login && row.passwordHash == hash(Salted(password, row.salt)))
  }

  class Gateway {
    var users: seq<UserRow>
    var log: seq<Call>
    /** The password manager's SHA-1 digest. */
    const hash: string -> string

    constructor (users: seq<UserRow>, hash: string -> string)
      ensures this.users == users && log == [] && this.hash == hash
    {
      this.users := users;
      log := [];
      this.hash := hash;
    }

    /** `existUser`: walks the rows with the user's login and accepts at the
        first one whose stored hash is the hash of the password salted with
        that row's salt. */
    method ExistUser(user: User) returns (r: bool)
      ensures r <==> Known(users, user.login, user.password, hash)
    {
      var i := 0;
      while i < |users|
        invariant 0 <= i <= |users|
        invariant forall k :: 0 <= k < i ==> !Matches(users[k], user.login, user.password, hash)
      {
        if user.login.Some? && users[i].login == user.login
          && users[i].passwordHash == hash(Salted(user.password, users[i].salt))
        {
          return true;
        }
        i := i + 1;
      }
      return false;
    }

    /** `addUser`: draws a salt and inserts the login with the hash of the
        salted password; a failing insert is swallowed, so the table may be
        left as it was. */
    method AddUser(user: User)
      modifies this`users
      ensures AddedUser(hash, user.login, user.password, old(users), users)
    {
      var salt: string :| true;
      var inserted: bool :| true;
      if inserted {
        users := users + [UserRow(user.login, hash(Salted(user.password, salt)), salt)];
      }
    }

    /** `addbands`: inserts the band under the owner's login and answers the
        id the database issued, or -1 when nothing came back. */
    method AddBand(band: MusicBand, owner: Option<string>) returns (id: int)
      modifies this`log
      ensures INT_MIN <= id <= INT_MAX
      ensures log == old(log) + [InsertBand(band, owner, id)]
    {
      id :| INT_MIN <= id <= INT_MAX;
      log := log + [InsertBand(band, owner, id)];
    }

    /** `updateObject`: rewrites the row with the given id; true when some
        row changed. */
    method UpdateObject(id: int, band: MusicBand) returns (updated: bool)
      modifies this`log
      ensures log == old(log) + [UpdateBand(id, band, updated)]
    {
      updated :| true;
      log := log + [UpdateBand(id, band, updated)];
    }

    /** `deleteObject`: deletes the owner's row with the given id. */
    method DeleteObject(owner: Option<string>, id: int) returns (deleted: bool)
      modifies this`log
      ensures log == old(log) + [DeleteBand(owner, id, deleted)]
    {
      deleted :| true;
      log := log + [DeleteBand(owner, id, deleted)];
    }

    /** `deleteUserObjects`: false for an empty list; otherwise the loop
        returns from its first pass, so only the first id is sent and its
        answer is the answer for the whole list. */
    method DeleteUserObjects(owner: Option<string>, ids: seq<int>) returns (deleted: bool)
      modifies this`log
      ensures ids == [] ==> !deleted && log == old(log)
      ensures ids != [] ==> log == old(log) + [DeleteBand(owner, ids[0], deleted)]
    {
      if ids == [] {
        return false;
      }
      deleted := DeleteObject(owner, ids[0]);
    }
  }

  /** After `addUser` has stored its row, `existUser` with the same
      credentials answers true, unless the login is null (`WHERE login =
      null` selects no row); credentials known before stay known. */
  lemma AddedUserKnown(hash: string -> string, login: Option<string>, password: Option<string>, u0: seq<UserRow>, u1: seq<UserRow>)
    requires AddedUser(hash, login, password, u0, u1)
    ensures |u1| > |u0| && login.Some? ==> Known(u1, login, password, hash)
    ensures login.None? ==> !Known(u1, login, password, hash)
    ensures forall l, p :: Known(u0, l, p, hash) ==> Known(u1, l, p, hash)
  {
    if |u1| > |u0| && login.Some? {
      assert Matches(u1[|u0|], login, password, hash);
    }
    forall l, p | Known(u0, l, p, hash) ensures Known(u1, l, p, hash) {
      var i :| 0 <= i < |u0| && Matches(u0[i], l, p, hash);
      assert u1[i] == u0[i];
    }
  }
}
