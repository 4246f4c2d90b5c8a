/** `src/config/demo.rs`: seeding the two demo users at start-up. Every failure on the way is
    unwrapped, so it panics rather than returning an error. */
module Demo {
  import opened Uuids
  import opened Errors
  import opened Models
  import opened PasswordUtil
  import opened UserRepository

  const JohnUsername: string := "jonn"
  const JohnEmail: string := "john@rustblog.com"
  const JaneUsername: string := "jane"
  const JaneEmail: string := "jane@rustblog.com"
  const DemoPassword: string := "password"

  /** `create_user`: insert the user unless one with that email exists; the password is stored
      hashed. The lookup, the hash and the insert are all unwrapped. */
  function CreateUserSpec(db: UserDb, hasher: Hasher, username: string, email: string, password: string,
                          salt: Salt, freshId: Uuid, now: Timestamp): (Outcome<()>, UserDb)
  {
    match GetByEmailSpec(db, email)
    case Err(_) => (Panicked, db)
    case Ok(found) =>
      if found.Some? then (Returned(Ok(())), db)
      else
        match HashPassword(hasher, password, salt)
        case None => (Panicked, db)
        case Some(hash) =>
          var (created, db') := CreateSpec(db, CreateUser(email, username, hash), freshId, now);
          if created.Err? then (Panicked, db') else (Returned(Ok(())), db')
  }

  /** `init_demo`: John, then Jane, each with their own salt and id; a panic stops the seeding. */
  function InitDemoSpec(db: UserDb, hasher: Hasher, johnSalt: Salt, janeSalt: Salt, johnId: Uuid, janeId: Uuid,
                        now: Timestamp): (Outcome<()>, UserDb)
  {
    var (john, db1) := CreateUserSpec(db, hasher, JohnUsername, JohnEmail, DemoPassword, johnSalt, johnId, now);
    if john.Panicked? then (Panicked, db1)
    else CreateUserSpec(db1, hasher, JaneUsername, JaneEmail, DemoPassword, janeSalt, janeId, now)
  }

  /** An existing email leaves the store as it is. */
  lemma CreateUserExisting(db: UserDb, hasher: Hasher, username: string, email: string, password: string,
                           salt: Salt, freshId: Uuid, now: Timestamp)
    requires SelectByEmail(email) !in db.refused && email in db.users
    ensures CreateUserSpec(db, hasher, username, email, password, salt, freshId, now) == (Returned(Ok(())), db)
  {
  }

  /** For a new email, exactly one user is added: the given email and username, the hash of the
      password, the fresh id and the current time. */
  lemma CreateUserAdds(db: UserDb, hasher: Hasher, username: string, email: string, password: string,
                       salt: Salt, freshId: Uuid, now: Timestamp)
    requires SelectByEmail(email) !in db.refused && email !in db.users
    requires Insert(email) !in db.refused && hasher.hash(password, salt).Some?
    ensures CreateUserSpec(db, hasher, username, email, password, salt, freshId, now)
         == (Returned(Ok(())),
             db.(users := db.users[email := User(freshId, email, username, hasher.hash(password, salt).value, now, now)]))
  {
  }

  /** Whatever happens, the store either stays as it is or gains that one email; and when the
      call returns, the email is present. */
  lemma CreateUserAtMostOne(db: UserDb, hasher: Hasher, username: string, email: string, password: string,
                            salt: Salt, freshId: Uuid, now: Timestamp)
    ensures var (o, db') := CreateUserSpec(db, hasher, username, email, password, salt, freshId, now);
            && db'.refused == db.refused
            && (db' == db || (email !in db.users && db'.users.Keys == db.users.Keys + {email}
                              && forall e | e in db.users :: db'.users[e] == db.users[e]))
            && (o.Returned? ==> o.result.Ok? && email in db'.users)
  {
  }

  /** With a bcrypt-like hasher, the stored password is a 60-character hash and so never the
      cleartext of a shorter or longer password, the demo's "password" included. */
  lemma StoredPasswordNotCleartext(db: UserDb, hasher: Hasher, username: string, email: string, password: string,
                                   salt: Salt, freshId: Uuid, now: Timestamp)
    requires Consistent(hasher) && |password| != 60
    requires email !in db.users
    requires email in CreateUserSpec(db, hasher, username, email, password, salt, freshId, now).1.users
    ensures CreateUserSpec(db, hasher, username, email, password, salt, freshId, now).1.users[email].password != password
    ensures hasher.verify(password, CreateUserSpec(db, hasher, username, email, password, salt, freshId, now).1.users[email].password)
         == Some(true)
  {
  }

  /** On a store that refuses nothing the seeding returns, and both demo accounts are present;
      each one that was not there before now has its demo username. */
  lemma InitDemoSeeds(db: UserDb, hasher: Hasher, johnSalt: Salt, janeSalt: Salt, johnId: Uuid, janeId: Uuid,
                      now: Timestamp)
    requires db.refused == {}
    requires hasher.hash(DemoPassword, johnSalt).Some? && hasher.hash(DemoPassword, janeSalt).Some?
    ensures var (o, db') := InitDemoSpec(db, hasher, johnSalt, janeSalt, johnId, janeId, now);
            && o == Returned(Ok(()))
            && JohnEmail in db'.users && JaneEmail in db'.users
            && (JohnEmail !in db.users ==> db'.users[JohnEmail].username == JohnUsername)
            && (JaneEmail !in db.users ==> db'.users[JaneEmail].username == JaneUsername)
  {
    var (_, db1) := CreateUserSpec(db, hasher, JohnUsername, JohnEmail, DemoPassword, johnSalt, johnId, now);
    CreateUserAtMostOne(db, hasher, JohnUsername, JohnEmail, DemoPassword, johnSalt, johnId, now);
    CreateUserAtMostOne(db1, hasher, JaneUsername, JaneEmail, DemoPassword, janeSalt, janeId, now);
    assert JohnEmail != JaneEmail by { assert JohnEmail[2] != JaneEmail[2]; }
  }

  /** Once a seeding has returned, running it again changes nothing, whatever salts, ids and
      time it is given. */
  lemma InitDemoTwice(db: UserDb, hasher: Hasher, johnSalt: Salt, janeSalt: Salt, johnId: Uuid, janeId: Uuid,
                      now: Timestamp, johnSalt2: Salt, janeSalt2: Salt, johnId2: Uuid, janeId2: Uuid, later: Timestamp)
    requires SelectByEmail(JohnEmail) !in db.refused && SelectByEmail(JaneEmail) !in db.refused
    requires InitDemoSpec(db, hasher, johnSalt, janeSalt, johnId, janeId, now).0.Returned?
    ensures var db1 := InitDemoSpec(db, hasher, johnSalt, janeSalt, johnId, janeId, now).1;
            InitDemoSpec(db1, hasher, johnSalt2, janeSalt2, johnId2, janeId2, later) == (Returned(Ok(())), db1)
  {
    var (_, db1) := CreateUserSpec(db, hasher, JohnUsername, JohnEmail, DemoPassword, johnSalt, johnId, now);
    CreateUserAtMostOne(db, hasher, JohnUsername, JohnEmail, DemoPassword, johnSalt, johnId, now);
    CreateUserAtMostOne(db1, hasher, JaneUsername, JaneEmail, DemoPassword, janeSalt, janeId, now);
  }

  /** `create_user` against the repository behind the user service. */
  method CreateDemoUser(repo: UserRepositoryImpl, hasher: Hasher, username: string, email: string, password: string,
                        salt: Salt, freshId: Uuid, now: Timestamp) returns (o: Outcome<()>)
    modifies repo
    ensures (o, repo.Model()) == CreateUserSpec(old(repo.Model()), hasher, username, email, password, salt, freshId, now)
  {
    var found := repo.GetByEmail(email);
    if found.Err? {
      return Panicked;
    }
    if found.value.Some? {
      return Returned(Ok(()));
    }
    var hash := HashPassword(hasher, password, salt);
    if hash.None? {
      return Panicked;
    }
    var created := repo.Create(CreateUser(email, username, hash.value), freshId, now);
    if created.Err? {
      return Panicked;
    }
    o := Returned(Ok(()));
  }

  method InitDemo(repo: UserRepositoryImpl, hasher: Hasher, johnSalt: Salt, janeSalt: Salt, johnId: Uuid, janeId: Uuid,
                  now: Timestamp) returns (o: Outcome<()>)
    modifies repo
    ensures (o, repo.Model()) == InitDemoSpec(old(repo.Model()), hasher, johnSalt, janeSalt, johnId, janeId, now)
  {
    o := CreateDemoUser(repo, hasher, JohnUsername, JohnEmail, DemoPassword, johnSalt, johnId, now);
    if o.Panicked? {
      return;
    }
    o := CreateDemoUser(repo, hasher, JaneUsername, JaneEmail, DemoPassword, janeSalt, janeId, now);
  }
}
