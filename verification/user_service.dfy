/**
 * The user credential store: one table of users, keyed by a unique username,
 * with an auto-increment id, a password hash and optional settings text.
 *
 * Each operation opens its own connection; whether that connection and its one
 * statement complete or raise is the `DbCall` parameter. Which salt `gensalt()`
 * picks, or whether hashing raises, is the `Hashing` parameter.
 */
module UserService {
  import opened Wrappers
  import opened Bcrypt

  /** One row of the `users` table. */
  datatype UserRow = UserRow(id: nat, username: string, passwordHash: string, agentSettings: Option<string>)

  /** Whether the connection and statement of one call complete, or raise a database error. */
  datatype DbCall = Completes | DbRaised

  /** Outcome of hashing a new password: the salt it was hashed with, or an exception. */
  datatype Hashing = Hashed(salt: Salt) | HashRaised

  /**
   * What the schema guarantees of the table: each row sits under its own
   * username, ids are distinct, positive and below the next id to hand out,
   * and every stored hash has the shape `checkpw` accepts.
   */
  ghost predicate TableInvariant(rows: map<string, UserRow>, nextId: nat) {
    && nextId >= 1
    && (forall u :: u in rows ==> rows[u].username == u && 1 <= rows[u].id < nextId)
    && (forall u :: u in rows ==> WellFormed(rows[u].passwordHash))
    && (forall u, v :: u in rows && v in rows && rows[u].id == rows[v].id ==> u == v)
  }

  /** `get_user_by_username`: the row of that user; `None` if there is none or the database fails. */
  function GetUserByUsername(rows: map<string, UserRow>, username: string, io: DbCall): (r: Option<UserRow>)
    ensures r.Some? <==> io.Completes? && username in rows
    ensures r.Some? ==> r.value == rows[username]
  {
    if io.DbRaised? then None
    else if username in rows then Some(rows[username])
    else None
  }

  /** `verify_password`: the user exists and the password checks against the stored hash. */
  function VerifyPassword(rows: map<string, UserRow>, username: string, password: string, io: DbCall): (ok: bool)
    ensures ok <==> io.Completes? && username in rows && Check(password, rows[username].passwordHash)
  {
    match GetUserByUsername(rows, username, io)
    case Some(user) => user.passwordHash != "" && Check(password, user.passwordHash)
    case None => false
  }

  /** `get_agent_settings`: the stored settings of an existing user (possibly `None`), otherwise `None`. */
  function GetAgentSettings(rows: map<string, UserRow>, username: string, io: DbCall): (r: Option<string>)
    ensures io.Completes? && username in rows ==> r == rows[username].agentSettings
    ensures username !in rows || io.DbRaised? ==> r.None?
  {
    match GetUserByUsername(rows, username, io)
    case Some(user) => user.agentSettings
    case None => None
  }

  /**
   * A user inserted under a fresh name keeps the table invariant, logs in with
   * its password and with no other, never stores the password as its hash, and
   * reads back the settings it was created with; nobody else is affected.
   */
  lemma CreatedUser(rows: map<string, UserRow>, nextId: nat, username: string, password: string,
                    settings: Option<string>, salt: Salt, other: string, io: DbCall)
    requires TableInvariant(rows, nextId) && username !in rows
    ensures var after := rows[username := UserRow(nextId, username, Hash(password, salt), settings)];
      && TableInvariant(after, nextId + 1)
      && VerifyPassword(after, username, password, Completes)
      && (other != password ==> !VerifyPassword(after, username, other, io))
      && after[username].passwordHash != password
      && GetAgentSettings(after, username, Completes) == settings
      && (other != username ==> GetUserByUsername(after, other, io) == GetUserByUsername(rows, other, io))
  {
    HashShape(password, salt);
    CheckAcceptsHash(password, salt);
    if other != password {
      CheckRejectsOthers(password, other, salt);
    }
  }

  /**
   * Changing one user's settings keeps the table invariant, makes the new
   * settings readable, and changes no id, no hash and no other user, so every
   * password check comes out as before.
   */
  lemma UpdatedSettings(rows: map<string, UserRow>, nextId: nat, username: string, settings: Option<string>,
                        other: string, password: string, io: DbCall)
    requires TableInvariant(rows, nextId) && username in rows
    ensures var after := rows[username := rows[username].(agentSettings := settings)];
      && TableInvariant(after, nextId)
      && GetAgentSettings(after, username, Completes) == settings
      && after[username].id == rows[username].id
      && after[username].passwordHash == rows[username].passwordHash
      && VerifyPassword(after, other, password, io) == VerifyPassword(rows, other, password, io)
      && (other != username ==> GetUserByUsername(after, other, io) == GetUserByUsername(rows, other, io))
  {
  }

  /** The `users` table, changed in place by inserts and updates. */
  class UserTable {
    var rows: map<string, UserRow>
    /** The id the next successful insert receives (AUTOINCREMENT never reuses one). */
    var nextId: nat

    ghost predicate Valid()
      reads this
    {
      TableInvariant(rows, nextId)
    }

    /** The freshly created, empty table: its first user will get id 1. */
    constructor ()
      ensures Valid() && rows == map[] && nextId == 1
    {
      rows := map[];
      nextId := 1;
    }

    /**
     * `create_user`: hash the password, then insert the row. Fails, changing
     * nothing, when hashing raises, the database raises, or the username is taken.
     */
    method CreateUser(username: string, password: string, agentSettings: Option<string> := None,
                      hashing: Hashing, io: DbCall) returns (created: bool)
      requires Valid()
      modifies this
      ensures Valid()
      ensures created <==> hashing.Hashed? && io.Completes? && username !in old(rows)
      ensures created ==> && rows == old(rows)[username := UserRow(old(nextId), username, Hash(password, hashing.salt), agentSettings)]
                          && nextId == old(nextId) + 1
                          && forall u :: u in old(rows) ==> old(rows)[u].id < rows[username].id
      ensures !created ==> rows == old(rows) && nextId == old(nextId)
    {
      if hashing.HashRaised? {
        return false;
      }
      var passwordHash := Hash(password, hashing.salt);
      if io.DbRaised? {
        return false;
      }
      if username in rows {
        return false;
      }
      CreatedUser(rows, nextId, username, password, agentSettings, hashing.salt, password, io);
      rows := rows[username := UserRow(nextId, username, passwordHash, agentSettings)];
      nextId := nextId + 1;
      created := true;
    }

    /**
     * `update_agent_settings`: set the settings of the named user. Reports
     * whether a row was updated; only that row's settings change.
     */
    method UpdateAgentSettings(username: string, agentSettings: Option<string>, io: DbCall) returns (updated: bool)
      requires Valid()
      modifies this
      ensures Valid() && nextId == old(nextId)
      ensures updated <==> io.Completes? && username in old(rows)
      ensures updated ==> rows == old(rows)[username := old(rows)[username].(agentSettings := agentSettings)]
      ensures !updated ==> rows == old(rows)
    {
      if io.DbRaised? {
        return false;
      }
      updated := username in rows;
      if updated {
        rows := rows[username := rows[username].(agentSettings := agentSettings)];
      }
    }
  }
}
