/** `src/utils/password_util.rs`: bcrypt hashing and checking. bcrypt is foreign code with
    a random salt, so the hasher is a pair of functions and the salt a parameter. */
module PasswordUtil {
  import opened Uuids
  import opened Errors

  /** The random salt bcrypt draws for each hash. */
  type Salt = seq<Byte>

  /** `bcrypt::hash` (failing gives `None`) and `bcrypt::verify` (`None` when the stored
      hash is malformed). */
  datatype Hasher = Hasher(hash: (string, Salt) -> Option<string>,
                           verify: (string, string) -> Option<bool>)

  /** What bcrypt guarantees and the service relies on: a password checks against its own
      hash, and a hash is the 60-character modular-crypt text. */
  ghost predicate Consistent(hasher: Hasher)
  {
    forall password: string, salt: Salt | hasher.hash(password, salt).Some? ::
      && hasher.verify(password, hasher.hash(password, salt).value) == Some(true)
      && |hasher.hash(password, salt).value| == 60
  }

  /** `hash_password`: the hash with the default cost. With a bcrypt-like hasher the hash is
      the 60-character text that `check_password_hash` accepts for the same password. */
  function HashPassword(hasher: Hasher, password: string, salt: Salt): (r: Option<string>)
    ensures r == hasher.hash(password, salt)
    ensures Consistent(hasher) && r.Some? ==>
              && CheckPasswordHash(hasher, password, r.value) == Returned(Ok(true))
              && |r.value| == 60
  {
    hasher.hash(password, salt)
  }

  /** `check_password_hash`: the verdict of `verify`, which is unwrapped, so a malformed
      stored hash panics. */
  function CheckPasswordHash(hasher: Hasher, password: string, hash: string): (o: Outcome<bool>)
    ensures o.Panicked? <==> hasher.verify(password, hash).None?
    ensures o.Returned? ==> o.result == Ok(hasher.verify(password, hash).value)
  {
    match hasher.verify(password, hash)
    case None => Panicked
    case Some(ok) => Returned(Ok(ok))
  }
}

/** `src/repository/user_repository.rs`, reached through the pass-through
    `src/services/user_service.rs`: the `users` table, keyed by its unique email column. */
module UserRepository {
  import opened Uuids
  import opened Errors
  import opened Models

  /** The statements the repository runs; a backend refuses a fixed set of them. */
  datatype UserCommand = SelectByEmail(email: string) | Insert(email: string)

  datatype UserDb = UserDb(users: map<string, User>, refused: set<UserCommand>)

  /** Every row is filed under its own email. */
  predicate KeyedByEmail(db: UserDb)
  {
    forall email | email in db.users :: db.users[email].email == email
  }

  /** `get_by_email`: the row with that email if there is one; a failing query is `NotFound`. */
  function GetByEmailSpec(db: UserDb, email: string): (r: Result<Option<User>>)
    ensures r.Err? <==> SelectByEmail(email) in db.refused
    ensures r.Err? ==> r.error == NotFound("Not found.")
    ensures r.Ok? ==> (r.value.Some? <==> email in db.users)
    ensures r.Ok? && r.value.Some? ==> r.value.value == db.users[email]
  {
    if SelectByEmail(email) in db.refused then Err(NotFound("Not found."))
    else if email in db.users then Ok(Some(db.users[email]))
    else Ok(None)
  }

  /** `create`: inserts the row; the database assigns the id (`freshId`) and both timestamps
      (`now`). A taken email violates the unique constraint. */
  function CreateSpec(db: UserDb, user: CreateUser, freshId: Uuid, now: Timestamp): (out: (Result<User>, UserDb))
    ensures out.1.refused == db.refused
    ensures out.0.Ok? <==> Insert(user.email) !in db.refused && user.email !in db.users
    ensures out.0.Ok? ==> out.0.value == User(freshId, user.email, user.username, user.password, now, now)
    ensures out.0.Ok? ==> out.1.users == db.users[user.email := out.0.value]
    ensures out.0.Err? ==> out.0.error == InternalServerError("Something went wrong.") && out.1 == db
  {
    if Insert(user.email) in db.refused || user.email in db.users then
      (Err(InternalServerError("Something went wrong.")), db)
    else
      var created := User(freshId, user.email, user.username, user.password, now, now);
      (Ok(created), db.(users := db.users[user.email := created]))
  }

  /** Inserting keeps every row filed under its email. */
  lemma CreateKeepsKeying(db: UserDb, user: CreateUser, freshId: Uuid, now: Timestamp)
    requires KeyedByEmail(db)
    ensures KeyedByEmail(CreateSpec(db, user, freshId, now).1)
  {
  }

  class UserRepositoryImpl {
    var users: map<string, User>
    const refused: set<UserCommand>

    function Model(): UserDb
      reads this
    {
      UserDb(users, refused)
    }

    constructor(users: map<string, User>, refused: set<UserCommand>)
      ensures Model() == UserDb(users, refused)
    {
      this.users := users;
      this.refused := refused;
    }

    method GetByEmail(email: string) returns (r: Result<Option<User>>)
      ensures r == GetByEmailSpec(Model(), email)
    {
      if SelectByEmail(email) in refused {
        return Err(NotFound("Not found."));
      }
      if email in users {
        r := Ok(Some(users[email]));
      } else {
        r := Ok(None);
      }
    }

    method Create(user: CreateUser, freshId: Uuid, now: Timestamp) returns (r: Result<User>)
      modifies this
      ensures (r, Model()) == CreateSpec(old(Model()), user, freshId, now)
    {
      if Insert(user.email) in refused || user.email in users {
        return Err(InternalServerError("Something went wrong."));
      }
      var created := User(freshId, user.email, user.username, user.password, now, now);
      users := users[user.email := created];
      r := Ok(created);
    }
  }
}
