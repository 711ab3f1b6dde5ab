/**
 * The users table and the repository over it: a user row keyed by its
 * database-generated id, holding the Telegram id, the nullable name columns,
 * the admin flag and the one refresh-token id that is currently valid.
 */
module UserStore {
  import opened Wrappers
  import opened Foreign
  import opened Errx

  /** entity.User, without its timestamps. */
  datatype User = User(id: Uuid, telegramId: nat, firstName: string, lastName: string, username: string, isAdmin: bool)

  /** entity.NewEmptyUser: a user not yet stored, so with the Nil id and no admin rights. */
  function NewEmptyUser(telegramId: nat, firstName: string, lastName: string, username: string): User
  {
    User(Nil, telegramId, firstName, lastName, username, false)
  }

  datatype UserRow = UserRow(
    telegramId: nat,
    firstName: Option<string>, lastName: Option<string>, username: Option<string>,
    isAdmin: bool,
    refreshTokenId: Option<Uuid>)

  type Rows = map<Uuid, UserRow>

  /** SQL coalesce(column, '') */
  function Coalesce(column: Option<string>): string
  {
    if column.Some? then column.value else ""
  }

  /** The user a select returns for a row. */
  function ToUser(id: Uuid, row: UserRow): User
  {
    User(id, row.telegramId, Coalesce(row.firstName), Coalesce(row.lastName), Coalesce(row.username), row.isAdmin)
  }

  /** The row the insert writes: the given columns, and no refresh-token id. */
  function InsertedRow(u: User): UserRow
  {
    UserRow(u.telegramId, Some(u.firstName), Some(u.lastName), Some(u.username), u.isAdmin, None)
  }

  predicate HasTelegramId(rows: Rows, telegramId: nat)
  {
    exists id :: id in rows && rows[id].telegramId == telegramId
  }

  /** telegram_id is a unique column. */
  ghost predicate UniqueTelegramIds(rows: Rows)
  {
    forall a, b :: a in rows && b in rows && rows[a].telegramId == rows[b].telegramId ==> a == b
  }

  ghost function UserByTelegramId(rows: Rows, telegramId: nat): (u: User)
    requires HasTelegramId(rows, telegramId)
    ensures u.id in rows && rows[u.id].telegramId == telegramId && u == ToUser(u.id, rows[u.id])
  {
    var id :| id in rows && rows[id].telegramId == telegramId;
    ToUser(id, rows[id])
  }

  /** The outcome of the insert, and the table after it. */
  function CreateSpec(rows: Rows, u: User, newId: Uuid, fail: bool): (Option<RawError>, Rows)
  {
    if fail then (Some(Unavailable), rows)
    else if HasTelegramId(rows, u.telegramId) then (Some(UniqueViolation), rows)
    else (None, rows[newId := InsertedRow(u)])
  }

  /** `update users set refresh_token_id = jit where id = userId`: touches that row's refresh id only. */
  function SaveRefresh(rows: Rows, userId: Uuid, jit: Uuid): (r: Rows)
    ensures r.Keys == rows.Keys
    ensures forall id :: id in rows && id != userId ==> r[id] == rows[id]
    ensures userId in rows ==> r[userId] == rows[userId].(refreshTokenId := Some(jit))
  {
    if userId in rows then rows[userId := rows[userId].(refreshTokenId := Some(jit))] else rows
  }

  /** `exists(select 1 from users where id = userId and refresh_token_id = jit)` */
  predicate RefreshCurrent(rows: Rows, userId: Uuid, jit: Uuid)
  {
    userId in rows && rows[userId].refreshTokenId == Some(jit)
  }

  /**
   * The lookup by id. The service's interface allows a nil user, but the
   * Postgres query reports a missing row as the driver's no-rows error.
   */
  function UserById(rows: Rows, id: Uuid, fail: bool): (r: Result<Option<User>, RawError>)
    ensures r != Success(None)
    ensures !fail ==> (r.Success? <==> id in rows)
  {
    if fail then Failure(Unavailable)
    else if id in rows then Success(Some(ToUser(id, rows[id])))
    else Failure(NoRows)
  }

  /** After saving j for a known user, exactly the pair (user, j) is current for that user. */
  lemma SaveThenCurrent(rows: Rows, userId: Uuid, j: Uuid, k: Uuid)
    requires userId in rows
    ensures RefreshCurrent(SaveRefresh(rows, userId, j), userId, k) <==> k == j
  {
  }

  /** Saving for one user leaves every other user's current pair as it was. */
  lemma SaveLeavesOthers(rows: Rows, userId: Uuid, j: Uuid, other: Uuid, k: Uuid)
    requires other != userId
    ensures RefreshCurrent(SaveRefresh(rows, userId, j), other, k) <==> RefreshCurrent(rows, other, k)
  {
  }

  /** A freshly created user has no current refresh id. */
  lemma CreatedUserHasNoRefresh(rows: Rows, u: User, newId: Uuid, k: Uuid)
    requires !HasTelegramId(rows, u.telegramId)
    ensures !RefreshCurrent(CreateSpec(rows, u, newId, false).1, newId, k)
  {
  }

  /**
   * After a successful Create the Telegram id exists, and reading it back gives
   * the inserted user under its new id.
   */
  lemma CreateThenRead(rows: Rows, u: User, newId: Uuid)
    requires UniqueTelegramIds(rows) && newId !in rows && !HasTelegramId(rows, u.telegramId)
    ensures var rows' := CreateSpec(rows, u, newId, false).1;
      HasTelegramId(rows', u.telegramId) && UniqueTelegramIds(rows')
      && UserByTelegramId(rows', u.telegramId) == u.(id := newId)
  {
    var rows' := rows[newId := InsertedRow(u)];
    assert rows'[newId].telegramId == u.telegramId;
    var found := UserByTelegramId(rows', u.telegramId);
    assert found.id == newId;
  }

  /** The Postgres users repository, over an in-memory table. */
  class UserTable {
    var rows: Rows

    ghost predicate Valid()
      reads this
    {
      UniqueTelegramIds(rows)
    }

    constructor (initial: Rows)
      requires UniqueTelegramIds(initial)
      ensures Valid() && rows == initial
    {
      rows := initial;
    }

    /** Insert a user; the database picks the fresh id `newId`. */
    method Create(u: User, newId: Uuid, fail: bool) returns (err: Option<RawError>)
      requires Valid() && newId !in rows
      modifies this
      ensures Valid()
      ensures (err, rows) == CreateSpec(old(rows), u, newId, fail)
    {
      if fail {
        return Some(Unavailable);
      }
      if HasTelegramId(rows, u.telegramId) {
        return Some(UniqueViolation);
      }
      rows := rows[newId := InsertedRow(u)];
      err := None;
    }

    method Exists(telegramId: nat, fail: bool) returns (r: Result<bool, RawError>)
      ensures fail ==> r == Failure(Unavailable)
      ensures !fail ==> r == Success(HasTelegramId(rows, telegramId))
    {
      if fail {
        return Failure(Unavailable);
      }
      return Success(HasTelegramId(rows, telegramId));
    }

    method GetByTelegramId(telegramId: nat, fail: bool) returns (r: Result<User, RawError>)
      requires Valid()
      ensures fail ==> r == Failure(Unavailable)
      ensures !fail && !HasTelegramId(rows, telegramId) ==> r == Failure(NoRows)
      ensures !fail && HasTelegramId(rows, telegramId) ==> r == Success(UserByTelegramId(rows, telegramId))
    {
      if fail {
        return Failure(Unavailable);
      }
      if !HasTelegramId(rows, telegramId) {
        return Failure(NoRows);
      }
      var id :| id in rows && rows[id].telegramId == telegramId;
      return Success(ToUser(id, rows[id]));
    }

    method SaveRefreshToken(userId: Uuid, jit: Uuid, fail: bool) returns (err: Option<RawError>)
      requires Valid()
      modifies this
      ensures Valid()
      ensures fail ==> err == Some(Unavailable) && rows == old(rows)
      ensures !fail ==> err == None && rows == SaveRefresh(old(rows), userId, jit)
    {
      if fail {
        return Some(Unavailable);
      }
      if userId in rows {
        rows := rows[userId := rows[userId].(refreshTokenId := Some(jit))];
      }
      err := None;
    }

    method IsRefreshTokenExists(userId: Uuid, jit: Uuid, fail: bool) returns (r: Result<bool, RawError>)
      ensures fail ==> r == Failure(Unavailable)
      ensures !fail ==> r == Success(RefreshCurrent(rows, userId, jit))
    {
      if fail {
        return Failure(Unavailable);
      }
      return Success(userId in rows && rows[userId].refreshTokenId == Some(jit));
    }

    method GetById(id: Uuid, fail: bool) returns (r: Result<Option<User>, RawError>)
      ensures r == UserById(rows, id, fail)
    {
      if fail {
        return Failure(Unavailable);
      }
      if id in rows {
        return Success(Some(ToUser(id, rows[id])));
      }
      return Failure(NoRows);
    }
  }
}
