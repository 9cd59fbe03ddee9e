/** The server commands other than `help` and `execute_script` (which need
    the command registry and live with the dispatcher). Each command is a
    method over the collection manager and the database gateway that answers
    a request with a response, or lets an unchecked Java exception escape. */
module Commands {
  import opened Base
  import opened Bands
  import opened Collection
  import opened Network
  import opened Persistence

  // ---------------------------------------------------------------- replies

  const EmptyReply: string := "Коллекция пуста!"
  const AddRefusedReply: string := "Не удалось добавить объект"
  const AddedReply: string := "Объект добавлен в коллекцию!"
  const NotCreatedReply: string := "Объект не создан. Проверьте правильность данных"
  const ClearedReply: string := "Элементы удалены!"
  const NotClearedReply: string := "Коллекция не очищена, так как в ней нет ваших объектов."
  const RemovedAtReply: string := "Объект успешно удален!"
  const NotRemovedAtReply: string := "Объект не удален"
  const RemovedByIdReply: string := "Элемент успешно удален"
  const NotRemovedReply: string := "Элемент не удален"
  const NoSuchIdReply: string := "Элемента с таким айди нет"
  const RemovedFirstReply: string := "Элемент успешно удален!"
  const ShuffledReply: string := "Коллекция перемешана успешно!"
  const UpdatedReply: string := "Объект успешно изменен"
  const NotUpdatedReply: string := "Объект не изменен"
  const BadDataReply: string := "Введены неверные данные!"
  const NoSuchObjectReply: string := "Объекта с таким id нет!"
  const InfoHeader: string := "Информация о коллекции: \n"
  const LoggedInReply: string := "Авторизация успешна!"
  const LoginRefusedReply: string := "Авторизация не прошла"
  const RegisteredReply: string := "Регистрация успешна!"
  const LoginTakenReply: string := "Логин уже занят, введите новые данные"

  /** The state the commands read and change: the stack and the id counter
      of the collection, the log of statements sent to the bands table and
      the users table. */
  datatype World = World(bands: seq<MusicBand>, idCounter: int, log: seq<Call>, users: seq<UserRow>)

  function WorldOf(store: CollectionManager, db: Gateway): World
    reads store, db
  {
    World(store.bands, store.idCounter, db.log, db.users)
  }

  /** The credentials of a request's user as the command sees them;
      `NoUser` for a null user. */
  datatype Caller = NoUser | Caller(login: Option<string>, password: Option<string>)

  function CallerOf(u: User?): Caller
    reads u
  {
    if u == null then NoUser else Caller(u.login, u.password)
  }

  /** The login of a request's user; null when there is no user. */
  function LoginOf(caller: Caller): Option<string>
  {
    if caller.NoUser? then None else caller.login
  }

  /** Exactly one statement was sent to the bands table: `call` is the last
      entry of the log and the earlier entries are unchanged. */
  predicate Sent(w0: World, w1: World, call: Call)
  {
    |w1.log| == |w0.log| + 1 && w1.log[..|w0.log|] == w0.log && w1.log[|w0.log|] == call
  }

  /** The statement sent last. */
  function LastCall(w: World): Call
    requires w.log != []
  {
    w.log[|w.log| - 1]
  }

  /** A log that grew by `call` has sent it, last. */
  lemma SentLast(w0: World, w1: World, call: Call)
    requires w1.log == w0.log + [call]
    ensures Sent(w0, w1, call) && w1.log != [] && LastCall(w1) == call
  {
  }

  /** The text of a query, or the reply for an empty collection. */
  function TextOr(r: Result<string, StoreError>): string
  {
    match r
    case Ok(t) => t
    case Err(_) => EmptyReply
  }

  // ---------------------------------------------------------------- add

  /** `addbands` reads the band's genre and the user's login, so a request
      without them fails with a NullPointerException before any statement
      reaches the database. */
  predicate AddReady(request: Request, caller: Caller)
  {
    request.band.Some? && request.band.value.genre.Some? && caller.Caller?
  }

  /** What `Add.execute` does: the database issues an id first (-1: nothing
      is stored); then the band, carrying that id, goes through the
      collection's `add`, which refuses an invalid band and moves a band
      whose id is taken to the first free value above the id counter,
      which it leaves at that value. */
  predicate AddEffect(api: BandApi, request: Request, caller: Caller, w0: World, w1: World, reply: Reply)
  {
    (!AddReady(request, caller) ==> reply == Raised(NullPointer) && w1 == w0)
    && (AddReady(request, caller) ==>
          w1.users == w0.users
          && w1.log != [] && LastCall(w1).InsertBand?
          && Sent(w0, w1, InsertBand(request.band.value, caller.login, LastCall(w1).issued))
          && var issued := LastCall(w1).issued;
          var band := request.band.value.(id := issued);
          var n := |w0.bands|;
          (issued == -1 ==> reply == Plain(AddRefusedReply) && w1.bands == w0.bands && w1.idCounter == w0.idCounter)
          && (issued != -1 && !api.isValid(band) ==>
                reply == Plain(NotCreatedReply) && w1.bands == w0.bands && w1.idCounter == w0.idCounter)
          && (issued != -1 && api.isValid(band) ==>
                reply == Plain(AddedReply)
                && |w1.bands| == n + 1 && w1.bands[..n] == w0.bands
                && w1.bands[n] == band.(id := w1.bands[n].id)
                && !HasId(w0.bands, w1.bands[n].id)
                && (!HasId(w0.bands, issued) ==> w1.bands[n] == band && w1.idCounter == w0.idCounter)
                && (HasId(w0.bands, issued) ==>
                      w1.bands[n].id == w1.idCounter > w0.idCounter
                      && forall v :: w0.idCounter < v < w1.idCounter ==> HasId(w0.bands, v))))
  }

  method ExecuteAdd(store: CollectionManager, db: Gateway, request: Request) returns (o: Outcome)
    modifies store`bands, store`idCounter, db`log
    ensures o.Answer? ==> fresh(o.response)
    ensures DistinctIds(old(store.bands)) ==> DistinctIds(store.bands)
    ensures AddEffect(store.api, request, CallerOf(request.user), old(WorldOf(store, db)), WorldOf(store, db), ReplyOf(o))
  {
    if !AddReady(request, CallerOf(request.user)) {
      return Thrown(NullPointer);
    }
    var issued := db.AddBand(request.band.value, request.user.login);
    if issued == -1 {
      var r := new Response(AddRefusedReply);
      return Answer(r);
    }
    var status, stored := store.Add(request.band.value.(id := issued));
    var r;
    if status.Failed? {
      r := new Response(NotCreatedReply);
    } else {
      r := new Response(AddedReply);
    }
    o := Answer(r);
  }

  // ---------------------------------------------------------------- clear

  /** What `Clear.execute` does: collects the ids of the user's bands (a
      band without an owner, or a missing user on a non-empty store, is a
      NullPointerException), asks the database to delete them and, if it
      agrees, removes them from the collection. */
  predicate ClearEffect(caller: Caller, w0: World, w1: World, reply: Reply)
  {
    w1.users == w0.users && w1.idCounter == w0.idCounter
    && (!AllOwned(w0.bands) || (w0.bands != [] && caller.NoUser?) ==> reply == Raised(NullPointer) && w1 == w0)
    && (AllOwned(w0.bands) && (w0.bands == [] || caller.Caller?) ==>
          var ids := OwnedIds(w0.bands, LoginOf(caller));
          (ids == [] ==> reply == Plain(NotClearedReply) && w1 == w0)
          && (ids != [] ==>
                w1.log != [] && LastCall(w1).DeleteBand?
                && Sent(w0, w1, DeleteBand(LoginOf(caller), ids[0], LastCall(w1).deleted))
                && (LastCall(w1).deleted ==> reply == Plain(ClearedReply) && w1.bands == RemoveIds(w0.bands, ids))
                && (!LastCall(w1).deleted ==> reply == Plain(NotClearedReply) && w1.bands == w0.bands)))
    && (DistinctIds(w0.bands) && reply == Plain(ClearedReply) ==> w1.bands == NotOwned(w0.bands, LoginOf(caller)))
  }

  method ExecuteClear(store: CollectionManager, db: Gateway, request: Request) returns (o: Outcome)
    modifies store`bands, db`log
    ensures o.Answer? ==> fresh(o.response)
    ensures DistinctIds(old(store.bands)) ==> DistinctIds(store.bands)
    ensures ClearEffect(CallerOf(request.user), old(WorldOf(store, db)), WorldOf(store, db), ReplyOf(o))
  {
    var bands := store.bands;
    if !AllOwned(bands) || (bands != [] && request.user == null) {
      return Thrown(NullPointer);
    }
    var login := LoginOf(CallerOf(request.user));
    var ids := OwnedIds(bands, login);
    ghost var w0 := WorldOf(store, db);
    var deleted := db.DeleteUserObjects(login, ids);
    if ids != [] {
      SentLast(w0, WorldOf(store, db), DeleteBand(login, ids[0], deleted));
    }
    var r;
    if deleted {
      store.RemoveElements(ids);
      if DistinctIds(bands) {
        ClearKeepsOthers(bands, login);
        WithoutDistinct(bands, ids);
      }
      r := new Response(ClearedReply);
    } else {
      r := new Response(NotClearedReply);
    }
    o := Answer(r);
  }

  // ---------------------------------------------------------------- remove_at

  /** What `RemoveAt.execute` does: the argument must be a boxed Long; it
      is cast to `int` (wrapping), the band at that position is read (out
      of range: an ArrayIndexOutOfBoundsException), the database deletes it
      by id and, if it agrees, the collection drops that position. */
  predicate RemoveAtEffect(args: Arg, caller: Caller, w0: World, w1: World, reply: Reply)
  {
    w1.users == w0.users && w1.idCounter == w0.idCounter
    && (AsLong(args).Err? ==> reply == Raised(AsLong(args).error) && w1 == w0)
    && (AsLong(args).Ok? && !(0 <= Wrap32(AsLong(args).value) < |w0.bands|) ==>
          reply == Raised(IndexOutOfBounds) && w1 == w0)
    && (AsLong(args).Ok? && 0 <= Wrap32(AsLong(args).value) < |w0.bands| && caller.NoUser? ==>
          reply == Raised(NullPointer) && w1 == w0)
    && (AsLong(args).Ok? && 0 <= Wrap32(AsLong(args).value) < |w0.bands| && caller.Caller? ==>
          var i := Wrap32(AsLong(args).value);
          w1.log != [] && LastCall(w1).DeleteBand?
          && Sent(w0, w1, DeleteBand(caller.login, w0.bands[i].id, LastCall(w1).deleted))
          && (LastCall(w1).deleted ==> reply == Plain(RemovedAtReply) && w1.bands == RemoveAtIndex(w0.bands, i))
          && (!LastCall(w1).deleted ==> reply == Plain(NotRemovedAtReply) && w1.bands == w0.bands))
  }

  method ExecuteRemoveAt(store: CollectionManager, db: Gateway, request: Request) returns (o: Outcome)
    modifies store`bands, db`log
    ensures o.Answer? ==> fresh(o.response)
    ensures DistinctIds(old(store.bands)) ==> DistinctIds(store.bands)
    ensures RemoveAtEffect(request.args, CallerOf(request.user), old(WorldOf(store, db)), WorldOf(store, db), ReplyOf(o))
  {
    var num := AsLong(request.args);
    if num.Err? {
      return Thrown(num.error);
    }
    var i := Wrap32(num.value);
    if !(0 <= i < |store.bands|) {
      return Thrown(IndexOutOfBounds);
    }
    if request.user == null {
      return Thrown(NullPointer);
    }
    var deleted := db.DeleteObject(request.user.login, store.bands[i].id);
    var r;
    if deleted {
      var status := store.RemoveAt(i);
      r := new Response(RemovedAtReply);
    } else {
      r := new Response(NotRemovedAtReply);
    }
    o := Answer(r);
  }

  // ---------------------------------------------------------------- remove_by_id

  /** What `RemoveById.execute` does: the argument must be a boxed Long;
      the database deletes the user's band with that id and, if it agrees,
      the collection removes the band carrying it, answering that there is
      no such band when none does. */
  predicate RemoveByIdEffect(args: Arg, caller: Caller, w0: World, w1: World, reply: Reply)
  {
    w1.users == w0.users && w1.idCounter == w0.idCounter
    && (AsLong(args).Err? ==> reply == Raised(AsLong(args).error) && w1 == w0)
    && (AsLong(args).Ok? && caller.NoUser? ==> reply == Raised(NullPointer) && w1 == w0)
    && (AsLong(args).Ok? && caller.Caller? ==>
          var id := AsLong(args).value;
          w1.log != [] && LastCall(w1).DeleteBand?
          && Sent(w0, w1, DeleteBand(caller.login, id, LastCall(w1).deleted))
          && (LastCall(w1).deleted && HasId(w0.bands, id) ==>
                reply == Plain(RemovedByIdReply)
                && w1.bands == RemoveAtIndex(w0.bands, IndexOfId(w0.bands, id).value))
          && (LastCall(w1).deleted && !HasId(w0.bands, id) ==> reply == Plain(NoSuchIdReply) && w1.bands == w0.bands)
          && (!LastCall(w1).deleted ==> reply == Plain(NotRemovedReply) && w1.bands == w0.bands))
  }

  method ExecuteRemoveById(store: CollectionManager, db: Gateway, request: Request) returns (o: Outcome)
    modifies store`bands, db`log
    ensures o.Answer? ==> fresh(o.response)
    ensures DistinctIds(old(store.bands)) ==> DistinctIds(store.bands)
    ensures RemoveByIdEffect(request.args, CallerOf(request.user), old(WorldOf(store, db)), WorldOf(store, db), ReplyOf(o))
  {
    var id := AsLong(request.args);
    if id.Err? {
      return Thrown(id.error);
    }
    if request.user == null {
      return Thrown(NullPointer);
    }
    var deleted := db.DeleteObject(request.user.login, id.value);
    var r;
    if deleted {
      var status := store.RemoveById(id.value);
      if status.Failed? {
        r := new Response(NoSuchIdReply);
      } else {
        r := new Response(RemovedByIdReply);
      }
    } else {
      r := new Response(NotRemovedReply);
    }
    o := Answer(r);
  }

  // ---------------------------------------------------------------- remove_first

  /** What `RemoveFirst.execute` does: the database deletes the band named
      by `getFirstId` (the bottom of the stack, or id 0 when it is empty)
      and, if it agrees, the collection's `removeFirst` drops the top of the
      stack. */
  predicate RemoveFirstEffect(caller: Caller, w0: World, w1: World, reply: Reply)
  {
    w1.users == w0.users && w1.idCounter == w0.idCounter
    && (caller.NoUser? ==> reply == Raised(NullPointer) && w1 == w0)
    && (caller.Caller? ==>
          w1.log != [] && LastCall(w1).DeleteBand?
          && Sent(w0, w1, DeleteBand(caller.login, FirstId(w0.bands), LastCall(w1).deleted))
          && (LastCall(w1).deleted && w0.bands == [] ==> reply == Plain(EmptyReply) && w1.bands == w0.bands)
          && (LastCall(w1).deleted && w0.bands != [] ==>
                reply == Plain(RemovedFirstReply)
                && w1.bands == RemoveFirstOf(w0.bands, w0.bands[|w0.bands| - 1]))
          && (!LastCall(w1).deleted ==> reply == Plain(NotRemovedReply) && w1.bands == w0.bands))
  }

  method ExecuteRemoveFirst(store: CollectionManager, db: Gateway, request: Request) returns (o: Outcome)
    modifies store`bands, db`log
    ensures o.Answer? ==> fresh(o.response)
    ensures DistinctIds(old(store.bands)) ==> DistinctIds(store.bands)
    ensures RemoveFirstEffect(CallerOf(request.user), old(WorldOf(store, db)), WorldOf(store, db), ReplyOf(o))
  {
    if request.user == null {
      return Thrown(NullPointer);
    }
    var deleted := db.DeleteObject(request.user.login, FirstId(store.bands));
    var text := NotRemovedReply;
    if deleted {
      var status := store.RemoveFirst();
      text := if status.Failed? then EmptyReply else RemovedFirstReply;
    }
    var r := new Response(text);
    o := Answer(r);
  }

  // ---------------------------------------------------------------- update

  /** `updateObject` reads the band, its genre and the unboxed id, so a
      request without them fails with a NullPointerException before any
      statement reaches the database. */
  predicate UpdateReady(request: Request)
  {
    request.band.Some? && request.band.value.genre.Some?
    && AsNullableLong(request.args).Ok? && AsNullableLong(request.args).value.Some?
  }

  /** What `UpdateId.execute` does: the argument must be a boxed Long or
      null; the database rewrites the row first and, if it agrees, the
      collection replaces the band with that id. */
  predicate UpdateIdEffect(api: BandApi, request: Request, w0: World, w1: World, reply: Reply)
  {
    w1.users == w0.users && w1.idCounter == w0.idCounter
    && (AsNullableLong(request.args).Err? ==> reply == Raised(ClassCast) && w1 == w0)
    && (AsNullableLong(request.args).Ok? && !UpdateReady(request) ==> reply == Raised(NullPointer) && w1 == w0)
    && (UpdateReady(request) ==>
          var id := AsNullableLong(request.args).value.value;
          var band := request.band.value;
          w1.log != [] && LastCall(w1).UpdateBand?
          && Sent(w0, w1, UpdateBand(id, band, LastCall(w1).updated))
          && (!LastCall(w1).updated ==> reply == Plain(NotUpdatedReply) && w1.bands == w0.bands)
          && (LastCall(w1).updated && !HasId(w0.bands, id) ==> reply == Plain(NoSuchObjectReply) && w1.bands == w0.bands)
          && (LastCall(w1).updated && HasId(w0.bands, id) && !api.isValid(band) ==>
                reply == Plain(BadDataReply) && w1.bands == w0.bands)
          && (LastCall(w1).updated && HasId(w0.bands, id) && api.isValid(band) ==>
                reply == Plain(UpdatedReply)
                && w1.bands == RemoveAtIndex(w0.bands, IndexOfId(w0.bands, id).value) + [band.(id := id)]))
  }

  method ExecuteUpdateId(store: CollectionManager, db: Gateway, request: Request) returns (o: Outcome)
    modifies store`bands, db`log
    ensures o.Answer? ==> fresh(o.response)
    ensures DistinctIds(old(store.bands)) ==> DistinctIds(store.bands)
    ensures UpdateIdEffect(store.api, request, old(WorldOf(store, db)), WorldOf(store, db), ReplyOf(o))
  {
    var arg := AsNullableLong(request.args);
    if arg.Err? {
      return Thrown(ClassCast);
    }
    if !UpdateReady(request) {
      return Thrown(NullPointer);
    }
    var id := arg.value.value;
    var band := request.band.value;
    var updated := db.UpdateObject(id, band);
    var r;
    if updated {
      var status := store.UpdateId(id, band);
      match status
      case Done => r := new Response(UpdatedReply);
      case Failed(NoElement) => r := new Response(NoSuchObjectReply);
      case Failed(_) => r := new Response(BadDataReply);
    } else {
      r := new Response(NotUpdatedReply);
    }
    o := Answer(r);
  }

  // ---------------------------------------------------------------- shuffle

  /** What `Shuffle.execute` does: the collection's `shuffle`, a
      permutation of the bands, or the empty reply. */
  predicate ShuffleEffect(b0: seq<MusicBand>, b1: seq<MusicBand>, reply: Reply)
  {
    multiset(b1) == multiset(b0)
    && (b0 == [] ==> reply == Plain(EmptyReply) && b1 == b0)
    && (b0 != [] ==> reply == Plain(ShuffledReply))
  }

  method ExecuteShuffle(store: CollectionManager) returns (o: Outcome)
    modifies store`bands
    ensures o.Answer? && fresh(o.response)
    ensures DistinctIds(old(store.bands)) ==> DistinctIds(store.bands)
    ensures ShuffleEffect(old(store.bands), store.bands, ReplyOf(o))
  {
    var status := store.Shuffle();
    var r;
    if status.Failed? {
      r := new Response(EmptyReply);
    } else {
      r := new Response(ShuffledReply);
    }
    o := Answer(r);
  }

  // ---------------------------------------------------------------- read-only queries

  /** `Show.execute`. */
  method ExecuteShow(store: CollectionManager) returns (o: Outcome)
    ensures o.Answer? && fresh(o.response)
    ensures ReplyOf(o) == Plain(TextOr(Show(store.bands, store.api)))
  {
    var r := new Response(TextOr(Show(store.bands, store.api)));
    o := Answer(r);
  }

  /** `Info.execute`: a header line, then the collection's `info`. */
  method ExecuteInfo(store: CollectionManager) returns (o: Outcome)
    ensures o.Answer? && fresh(o.response)
    ensures ReplyOf(o) == Plain(InfoHeader + Info(store.bands, store.date))
  {
    var r := new Response(InfoHeader + Info(store.bands, store.date));
    o := Answer(r);
  }

  /** `PrintDescending.execute`: answers with `printAscend`, the ascending
      listing. */
  method ExecutePrintDescending(store: CollectionManager) returns (o: Outcome)
    ensures o.Answer? && fresh(o.response)
    ensures ReplyOf(o) == Plain(TextOr(PrintAscend(store.bands, store.api)))
  {
    var r := new Response(TextOr(PrintAscend(store.bands, store.api)));
    o := Answer(r);
  }

  /** `PrintFieldAscendingLabel.execute`: `printLabelField` never reports an
      empty collection, so the empty reply is never given. */
  method ExecutePrintFieldAscendingLabel(store: CollectionManager) returns (o: Outcome)
    ensures o.Answer? && fresh(o.response)
    ensures ReplyOf(o) == Plain(PrintLabelField(store.bands))
  {
    var r := new Response(PrintLabelField(store.bands));
    o := Answer(r);
  }

  /** What `GroupCountingByLabel.execute` answers: the groups in some
      iteration order of the grouping map, or the empty reply. */
  ghost predicate GroupCountingReply(bands: seq<MusicBand>, api: BandApi, reply: Reply)
  {
    exists order :: GroupOrder(bands, order) && reply == Plain(TextOr(GroupByLabel(bands, api, order)))
  }

  /** `GroupCountingByLabel.execute`: the groups come in the grouping map's
      iteration order, which is left open. */
  method ExecuteGroupCountingByLabel(store: CollectionManager) returns (o: Outcome, ghost order: seq<Label>)
    ensures o.Answer? && fresh(o.response)
    ensures GroupOrder(store.bands, order)
    ensures ReplyOf(o) == Plain(TextOr(GroupByLabel(store.bands, store.api, order)))
    ensures GroupCountingReply(store.bands, store.api, ReplyOf(o))
  {
    order := LabelsOf(store.bands);
    var groups :| GroupOrder(store.bands, groups);
    order := groups;
    var r := new Response(TextOr(GroupByLabel(store.bands, store.api, groups)));
    o := Answer(r);
  }

  // ---------------------------------------------------------------- accounts

  /** What `Login.execute` does: accepted exactly when a stored row matches
      the credentials; a refusal carries `LOGIN_ERROR`. */
  ghost predicate LoginReply(hash: string -> string, caller: Caller, users: seq<UserRow>, reply: Reply)
  {
    (caller.NoUser? ==> reply == Raised(NullPointer))
    && (caller.Caller? ==>
          (Known(users, caller.login, caller.password, hash) ==> reply == Plain(LoggedInReply))
          && (!Known(users, caller.login, caller.password, hash) ==>
                reply == Replied(LoginRefusedReply, Some(LoginErrorCode))))
  }

  method ExecuteLogin(db: Gateway, request: Request) returns (o: Outcome)
    ensures o.Answer? ==> fresh(o.response)
    ensures LoginReply(db.hash, CallerOf(request.user), db.users, ReplyOf(o))
  {
    if request.user == null {
      return Thrown(NullPointer);
    }
    var known := db.ExistUser(request.user);
    var r;
    if known {
      r := new Response(LoggedInReply);
    } else {
      r := new Response.Tagged(LoginErrorCode, LoginRefusedReply);
    }
    o := Answer(r);
  }

  /** What `Register.execute` does: credentials that already match a row
      are refused with `LOGIN_ERROR`; otherwise `addUser` runs and
      registration is reported as successful, whether or not the insert
      went through. Since the check is on login and password together, a
      taken login with a different password is registered again. */
  ghost predicate RegisterEffect(hash: string -> string, caller: Caller, u0: seq<UserRow>, u1: seq<UserRow>, reply: Reply)
  {
    (caller.NoUser? ==> reply == Raised(NullPointer) && u1 == u0)
    && (caller.Caller? ==>
          (Known(u0, caller.login, caller.password, hash) ==>
             reply == Replied(LoginTakenReply, Some(LoginErrorCode)) && u1 == u0)
          && (!Known(u0, caller.login, caller.password, hash) ==>
                reply == Plain(RegisteredReply) && AddedUser(hash, caller.login, caller.password, u0, u1)))
  }

  method ExecuteRegister(db: Gateway, request: Request) returns (o: Outcome)
    modifies db`users
    ensures o.Answer? ==> fresh(o.response)
    ensures RegisterEffect(db.hash, CallerOf(request.user), old(db.users), db.users, ReplyOf(o))
  {
    if request.user == null {
      return Thrown(NullPointer);
    }
    var known := db.ExistUser(request.user);
    var r;
    if !known {
      db.AddUser(request.user);
      r := new Response(RegisteredReply);
    } else {
      r := new Response.Tagged(LoginErrorCode, LoginTakenReply);
    }
    o := Answer(r);
  }
}
