/**
 * Sign-up and login of api/auth_router.py over the user collection. Sign-up
 * refuses an email or a username that is already registered, stores the
 * password only as a digest and mirrors the user in the graph (a graph
 * failure is swallowed); login looks the identifier up as an email or a
 * username and issues a token for the stored username.
 */
module AuthRouter {
  import opened Common
  import opened Credentials
  import opened Schemas
  import opened DocumentStore
  import opened GraphMirror

  const AlreadyRegistered := HttpError(409, "Email or username already registered")
  const BadCredentials := HttpError(401, "Incorrect username or password")

  /** Some stored user has this email or this username (the sign-up `$or` filter matches). */
  predicate Taken(docs: map<Oid, UserDoc>, email: string, username: string)
  {
    exists k :: k in docs && (docs[k].email == email || docs[k].username == username)
  }

  /** No two users share an email, and no two share a username. */
  predicate UniqueAccounts(docs: map<Oid, UserDoc>)
  {
    forall k, k' :: k in docs && k' in docs && k != k' ==>
      docs[k].email != docs[k'].email && docs[k].username != docs[k'].username
  }

  /** The login `$or` filter: the identifier is the user's email or username. */
  predicate Identifies(d: UserDoc, identifier: string)
  {
    d.email == identifier || d.username == identifier
  }

  /**
   * The stored record of a new user: the public fields and the digest. No
   * password is kept, and none of the profile fields is stored yet. When the
   * password encodes to at most 72 bytes, it is the only such password the
   * digest accepts.
   */
  function NewUserDoc(u: UserCreate, salt: nat): (d: UserDoc)
    ensures d.username == u.username && d.email == u.email && d.fullName == u.fullName
    ensures VerifyPassword(u.password, d.hashedPassword)
    ensures |Utf8(u.password)| <= BcryptKeyBytes ==>
      forall other :: |Utf8(other)| <= BcryptKeyBytes ==> (VerifyPassword(other, d.hashedPassword) <==> other == u.password)
    ensures d.profile == EmptyProfile
  {
    var digest := HashPassword(u.password, salt);
    assert forall other :: |Utf8(u.password)| <= BcryptKeyBytes && |Utf8(other)| <= BcryptKeyBytes ==>
                             (VerifyPassword(other, digest) <==> other == u.password) by {
      forall other {
        HashThenVerify(u.password, other, salt);
      }
    }
    UserDoc(u.username, u.email, u.fullName, digest, EmptyProfile)
  }

  /** Inserting a user whose email and username are both free keeps accounts unique. */
  lemma InsertFreeKeepsUnique(docs: map<Oid, UserDoc>, newId: Oid, d: UserDoc)
    requires UniqueAccounts(docs) && newId !in docs && !Taken(docs, d.email, d.username)
    ensures UniqueAccounts(docs[newId := d])
  {
  }

  /**
   * `signup`. `salt` is the hash's fresh salt, `newId` the id the store
   * assigns, `graphFails` whether the graph statement raises.
   */
  method Signup(users: Collection<UserDoc>, driver: Neo4jDriver, u: UserCreate, salt: nat, newId: Oid, now: Time,
                graphFails: bool)
    returns (r: Result<UserBase>)
    requires newId !in users.docs
    modifies users, driver
    ensures driver.connected == old(driver.connected)
    ensures Taken(old(users.docs), u.email, u.username) ==>
      r == Err(AlreadyRegistered) && users.docs == old(users.docs) && driver.database == old(driver.database)
    ensures !Taken(old(users.docs), u.email, u.username) ==>
      && r == Ok(UserBase(u.username, u.email, u.fullName))
      && users.docs == old(users.docs)[newId := NewUserDoc(u, salt)]
      && driver.database == After(driver.connected, graphFails, old(driver.database), CreateUser(u.email, u.username, u.fullName), now)
    ensures UniqueAccounts(old(users.docs)) ==> UniqueAccounts(users.docs)
  {
    if exists k :: k in users.docs && (users.docs[k].email == u.email || users.docs[k].username == u.username) {
      return Err(AlreadyRegistered);
    }
    var hashed := HashPassword(u.password, salt);
    var record := UserDoc(u.username, u.email, u.fullName, hashed, EmptyProfile);
    if UniqueAccounts(users.docs) {
      InsertFreeKeepsUnique(users.docs, newId, record);
    }
    users.docs := users.docs[newId := record];
    var raised := CreateUserNode(driver, u.email, u.fullName, u.username, now, graphFails);
    r := Ok(UserBase(u.username, u.email, u.fullName));
  }

  /**
   * `login`: the store returns one of the users the identifier matches (which
   * one is left open); the token names that user's stored username.
   */
  method Login(users: Collection<UserDoc>, identifier: string, password: string, expiresAt: Time)
    returns (r: Result<(Token, string)>)
    ensures r.Ok? ==>
      exists k :: k in users.docs && Identifies(users.docs[k], identifier)
        && VerifyPassword(password, users.docs[k].hashedPassword)
        && r.value == (Token(users.docs[k].username, expiresAt), TokenType)
    ensures r.Err? ==> r.error == BadCredentials
    ensures (forall k :: k in users.docs && Identifies(users.docs[k], identifier) ==>
               !VerifyPassword(password, users.docs[k].hashedPassword)) ==> r.Err?
    ensures ((exists k :: k in users.docs && Identifies(users.docs[k], identifier))
             && (forall k :: k in users.docs && Identifies(users.docs[k], identifier) ==>
                   VerifyPassword(password, users.docs[k].hashedPassword)))
            ==> r.Ok?
  {
    if exists k :: k in users.docs && Identifies(users.docs[k], identifier) {
      var k :| k in users.docs && Identifies(users.docs[k], identifier);
      if VerifyPassword(password, users.docs[k].hashedPassword) {
        return Ok((Token(users.docs[k].username, expiresAt), TokenType));
      }
    }
    r := Err(BadCredentials);
  }

  /** With unique accounts, logging in by a user's own email or username can only reach that user. */
  lemma LoginReachesOwner(docs: map<Oid, UserDoc>, k: Oid, k': Oid)
    requires UniqueAccounts(docs) && k in docs && k' in docs
    requires Identifies(docs[k'], docs[k].email)
    requires forall j :: j in docs ==> docs[j].username != docs[k].email
    ensures k' == k
  {
  }
}
