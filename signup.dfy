/**
 * The signup handler `POST`: validate the form, generate a 15-character user id, hash the
 * password, insert the user row, create a session for that user, set the session cookie
 * and redirect to `/`.
 *
 * The id generator, the password hasher and the session library are outside this model;
 * they reach the handler through an `Env` of uninterpreted functions and drawn values.
 * The database and the request's cookie jar are the state the handler changes, and
 * every effect it performs is appended to an effect log so that order can be stated.
 * A store constraint violation is an exception the handler does not catch: the request
 * ends with it as an `Uncaught` outcome, and whatever was written before it stays written.
 */
module Signup {
  import opened Validation

  const USER_ID_LENGTH := 15
  const REDIRECT_STATUS := 302
  const HOME_PATH := "/"

  /** A row of the `User` table; `password` holds the hash. */
  datatype User = User(id: string, username: string, password: string)

  /** A row of the `Session` table. */
  datatype Session = Session(id: string, userId: string, expiresAt: int)

  datatype CookieAttributes =
    CookieAttributes(path: string, httpOnly: bool, secure: bool, sameSite: string, maxAge: int)

  /** What the session library's `createSessionCookie` returns. */
  datatype Cookie = Cookie(name: string, value: string, attributes: CookieAttributes)

  /** An entry of the response's cookie jar, keyed by cookie name. */
  datatype CookieEntry = CookieEntry(value: string, attributes: CookieAttributes)

  /** The effects of the handler, as they happen. */
  datatype Effect =
    | IdGenerated(id: string)
    | PasswordHashed(digest: string)
    | UserInserted(user: User)
    | SessionCreated(session: Session)
    | CookieSet(cookie: Cookie)

  datatype Response = TextResponse(status: nat, body: string) | Redirect(status: nat, location: string)

  /** The store constraint violations that escape the handler. */
  datatype Failure = UserInsertFailed | SessionInsertFailed

  datatype Outcome = Responded(response: Response) | Uncaught(failure: Failure)

  /** The state after a request, with how the request ended. */
  datatype Step = Step(world: World, outcome: Outcome)

  /**
   * The collaborators: `generateId(n)` draws an n-character id; `hash` is Argon2id's
   * `hash`; `sessionId` and `sessionExpiresAt` are what the session library draws and
   * computes for a new session; `sessionCookie` is its `createSessionCookie`.
   */
  datatype Env = Env(
    generateId: nat -> string,
    hash: string -> string,
    sessionId: string,
    sessionExpiresAt: int,
    sessionCookie: string -> Cookie)

  /** The id generator returns as many characters as it is asked for. */
  ghost predicate GeneratesRequestedLength(generateId: nat -> string) {
    forall n: nat :: |generateId(n)| == n
  }

  /** Everything the handler can change: both tables, the cookie jar and the effect log. */
  datatype World = World(
    users: seq<User>,
    sessions: seq<Session>,
    cookies: map<string, CookieEntry>,
    effects: seq<Effect>)

  function UserIds(users: seq<User>): set<string> {
    set u | u in users :: u.id
  }

  /** The `User` table accepts a row whose primary key and username are both new. */
  predicate CanInsertUser(users: seq<User>, row: User) {
    forall u | u in users :: u.id != row.id && u.username != row.username
  }

  /** The `Session` table accepts a row whose primary key is new. */
  predicate CanInsertSession(sessions: seq<Session>, session: Session) {
    forall s | s in sessions :: s.id != session.id
  }

  /**
   * The store's constraints: user ids and usernames are unique, session ids are
   * unique, and every session refers to an existing user.
   */
  predicate WellFormed(w: World) {
    && (forall i, j | 0 <= i < j < |w.users| ::
          w.users[i].id != w.users[j].id && w.users[i].username != w.users[j].username)
    && (forall i, j | 0 <= i < j < |w.sessions| :: w.sessions[i].id != w.sessions[j].id)
    && (forall s | s in w.sessions :: s.userId in UserIds(w.users))
  }

  /** The row the handler inserts for validated credentials. */
  function NewUser(c: Credentials, env: Env): User {
    User(env.generateId(USER_ID_LENGTH), c.username, env.hash(c.password))
  }

  /** The session the session library creates for `userId`. */
  function NewSession(userId: string, env: Env): Session {
    Session(env.sessionId, userId, env.sessionExpiresAt)
  }

  function RejectionResponse(r: Rejection): Response {
    TextResponse(REJECTION_STATUS, Message(r))
  }

  function SuccessResponse(): Response {
    Redirect(REDIRECT_STATUS, HOME_PATH)
  }

  /**
   * The handler as a function of the state before the request. A rejected request
   * changes nothing and answers 400 with the rejection's message. The handler redirects
   * exactly when validation passes and both inserts are accepted. It only ever appends
   * to the tables and the effect log, at most one row to each table, and the cookie jar
   * changes only on a redirect.
   */
  function Signup(w: World, username: FormValue, password: FormValue, env: Env): (r: Step)
    ensures Validate(username, password).Err? ==>
      r.world == w && r.outcome == Responded(RejectionResponse(Validate(username, password).error))
    ensures r.outcome == Responded(SuccessResponse()) <==>
      && Validate(username, password).Ok?
      && CanInsertUser(w.users, NewUser(Validate(username, password).value, env))
      && CanInsertSession(w.sessions, NewSession(env.generateId(USER_ID_LENGTH), env))
    ensures w.users <= r.world.users && |r.world.users| <= |w.users| + 1
    ensures w.sessions <= r.world.sessions && |r.world.sessions| <= |w.sessions| + 1
    ensures w.effects <= r.world.effects
    ensures r.outcome != Responded(SuccessResponse()) ==> r.world.cookies == w.cookies
  {
    match Validate(username, password)
    case Err(rejection) =>
      Step(w, Responded(RejectionResponse(rejection)))
    case Ok(credentials) =>
      var row := NewUser(credentials, env);
      var prepared := w.(effects := w.effects + [IdGenerated(row.id), PasswordHashed(row.password)]);
      if !CanInsertUser(prepared.users, row) then
        Step(prepared, Uncaught(UserInsertFailed))
      else
        var inserted := prepared.(
          users := prepared.users + [row],
          effects := prepared.effects + [UserInserted(row)]);
        var session := NewSession(row.id, env);
        if !CanInsertSession(inserted.sessions, session) then
          Step(inserted, Uncaught(SessionInsertFailed))
        else
          var created := inserted.(
            sessions := inserted.sessions + [session],
            effects := inserted.effects + [SessionCreated(session)]);
          var cookie := env.sessionCookie(session.id);
          var responded := created.(
            cookies := created.cookies[cookie.name := CookieEntry(cookie.value, cookie.attributes)],
            effects := created.effects + [CookieSet(cookie)]);
          Step(responded, Responded(SuccessResponse()))
  }

  /**
   * A successful signup appends exactly one user, whose id is the generated 15-character
   * id, whose username is the submitted one unchanged and whose password is the hasher's
   * output; it appends one session for that same id, and sets the cookie the session
   * library derives from that session's id, under the cookie's own name.
   */
  lemma SuccessWritesHashedUserAndSession(
    w: World, username: FormValue, password: FormValue, env: Env)
    requires Signup(w, username, password, env).outcome == Responded(SuccessResponse())
    ensures username.Text? && password.Text?
    ensures var w' := Signup(w, username, password, env).world;
      var id := env.generateId(USER_ID_LENGTH);
      var cookie := env.sessionCookie(env.sessionId);
      && w'.users == w.users + [User(id, username.value, env.hash(password.value))]
      && w'.sessions == w.sessions + [Session(env.sessionId, id, env.sessionExpiresAt)]
      && w'.cookies == w.cookies[cookie.name := CookieEntry(cookie.value, cookie.attributes)]
      && (GeneratesRequestedLength(env.generateId) ==> |id| == USER_ID_LENGTH)
  {
  }

  /**
   * The order of effects on success: the id is drawn and the password hashed, then the
   * user is inserted, then the session is created for the inserted user's id, then the
   * cookie made from that session's id is set. Nothing else happens.
   */
  lemma SuccessEffectOrder(
    w: World, username: FormValue, password: FormValue, env: Env)
    requires Signup(w, username, password, env).outcome == Responded(SuccessResponse())
    ensures exists user: User, session: Session, cookie: Cookie ::
      && Signup(w, username, password, env).world.effects ==
           w.effects + [IdGenerated(user.id), PasswordHashed(user.password),
                        UserInserted(user), SessionCreated(session), CookieSet(cookie)]
      && session.userId == user.id
      && cookie == env.sessionCookie(session.id)
      && user.password == env.hash(password.value)
  {
  }

  /**
   * A rejected request performs no effect at all: no id, no hash, no insert, no session,
   * no cookie.
   */
  lemma RejectedRequestHasNoEffects(w: World, username: FormValue, password: FormValue, env: Env)
    requires Validate(username, password).Err?
    ensures Signup(w, username, password, env).world.effects == w.effects
    ensures Signup(w, username, password, env).outcome.response.TextResponse?
    ensures Signup(w, username, password, env).outcome.response.status == 400
  {
  }

  /**
   * The user insert is not guarded: when the username or the generated id is taken,
   * the store's exception escapes the handler after the id was drawn and the password
   * hashed, and no row, session or cookie is written.
   */
  lemma UserInsertFailureIsNotCaught(
    w: World, username: FormValue, password: FormValue, env: Env)
    requires Validate(username, password).Ok?
    requires !CanInsertUser(w.users, NewUser(Validate(username, password).value, env))
    ensures var r := Signup(w, username, password, env);
      && r.outcome == Uncaught(UserInsertFailed)
      && r.world.users == w.users && r.world.sessions == w.sessions && r.world.cookies == w.cookies
      && r.world.effects == w.effects +
           [IdGenerated(env.generateId(USER_ID_LENGTH)), PasswordHashed(env.hash(password.value))]
  {
  }

  /**
   * Signup is not atomic: when the session insert fails, the user row inserted just
   * before it stays in the table, with no session and no cookie.
   */
  lemma SessionFailureKeepsUser(
    w: World, username: FormValue, password: FormValue, env: Env)
    requires Signup(w, username, password, env).outcome == Uncaught(SessionInsertFailed)
    ensures var r := Signup(w, username, password, env);
      var row := NewUser(Validate(username, password).value, env);
      && r.world.users == w.users + [row]
      && r.world.sessions == w.sessions && r.world.cookies == w.cookies
      && r.world.effects == w.effects + [IdGenerated(row.id), PasswordHashed(row.password), UserInserted(row)]
  {
  }

  /** Whatever the outcome, the handler keeps the store's constraints. */
  lemma SignupPreservesWellFormed(
    w: World, username: FormValue, password: FormValue, env: Env)
    requires WellFormed(w)
    ensures WellFormed(Signup(w, username, password, env).world)
  {
  }

  /**
   * Signing up twice with the same username never creates a second user with that
   * name: once the first request has succeeded, a second one that passes validation
   * with the same username ends in the store's uncaught exception and adds no row.
   */
  lemma RepeatedUsernameIsRefusedByStore(
    w: World, username: FormValue, password: FormValue, env: Env,
    password2: FormValue, env2: Env)
    requires Signup(w, username, password, env).outcome == Responded(SuccessResponse())
    requires Validate(username, password2).Ok?
    ensures var w1 := Signup(w, username, password, env).world;
      var r := Signup(w1, username, password2, env2);
      r.outcome == Uncaught(UserInsertFailed) && r.world.users == w1.users
  {
  }

  /** One submitted signup form, with what the collaborators produce while serving it. */
  datatype Request = Request(username: FormValue, password: FormValue, env: Env)

  /**
   * The store after serving `requests` one after another, each by the handler. Rows are
   * only ever appended, at most one user and one session per request.
   */
  function Serve(w: World, requests: seq<Request>): (w': World)
    ensures w.users <= w'.users && |w'.users| <= |w.users| + |requests|
    ensures w.sessions <= w'.sessions && |w'.sessions| <= |w.sessions| + |requests|
    decreases |requests|
  {
    if requests == [] then w
    else
      var q := requests[0];
      Serve(Signup(w, q.username, q.password, q.env).world, requests[1..])
  }

  /**
   * However many signups are served, in whatever order and with whatever ids the
   * generator draws, no two users ever share a username or an id, and every session
   * belongs to an existing user.
   */
  lemma {:induction false} ServeKeepsUsernamesUnique(w: World, requests: seq<Request>)
    requires WellFormed(w)
    ensures WellFormed(Serve(w, requests))
    ensures var users := Serve(w, requests).users;
      forall i, j | 0 <= i < j < |users| :: users[i].username != users[j].username
    decreases |requests|
  {
    if requests != [] {
      var q := requests[0];
      SignupPreservesWellFormed(w, q.username, q.password, q.env);
      ServeKeepsUsernamesUnique(Signup(w, q.username, q.password, q.env).world, requests[1..]);
    }
  }

  /**
   * The request's context: the database tables, the cookie jar of the response and the
   * effect log, all changed in place by the handler.
   */
  class SignupContext {
    var users: seq<User>
    var sessions: seq<Session>
    var cookies: map<string, CookieEntry>
    /** The order of the effects, kept for the proofs only. */
    ghost var effects: seq<Effect>

    ghost function State(): World
      reads this
    {
      World(users, sessions, cookies, effects)
    }

    constructor (users: seq<User>, sessions: seq<Session>)
      ensures State() == World(users, sessions, map[], [])
    {
      this.users := users;
      this.sessions := sessions;
      this.cookies := map[];
      this.effects := [];
    }

    /** `db.insert(User).values([row])`; `false` stands for the thrown constraint error. */
    method InsertUser(row: User) returns (inserted: bool)
      modifies this
      ensures inserted == CanInsertUser(old(users), row)
      ensures users == if inserted then old(users) + [row] else old(users)
      ensures effects == if inserted then old(effects) + [UserInserted(row)] else old(effects)
      ensures sessions == old(sessions) && cookies == old(cookies)
    {
      inserted := CanInsertUser(users, row);
      if inserted {
        users := users + [row];
        effects := effects + [UserInserted(row)];
      }
    }

    /** `createSession(userId, {})`, which stores the new session in the `Session` table. */
    method CreateSession(userId: string, env: Env) returns (session: Session, created: bool)
      modifies this
      ensures session == NewSession(userId, env)
      ensures created == CanInsertSession(old(sessions), session)
      ensures sessions == if created then old(sessions) + [session] else old(sessions)
      ensures effects == if created then old(effects) + [SessionCreated(session)] else old(effects)
      ensures users == old(users) && cookies == old(cookies)
    {
      session := NewSession(userId, env);
      created := CanInsertSession(sessions, session);
      if created {
        sessions := sessions + [session];
        effects := effects + [SessionCreated(session)];
      }
    }

    /** `cookies.set(name, value, attributes)`: a later cookie of the same name replaces it. */
    method SetCookie(cookie: Cookie)
      modifies this
      ensures cookies == old(cookies)[cookie.name := CookieEntry(cookie.value, cookie.attributes)]
      ensures effects == old(effects) + [CookieSet(cookie)]
      ensures users == old(users) && sessions == old(sessions)
    {
      cookies := cookies[cookie.name := CookieEntry(cookie.value, cookie.attributes)];
      effects := effects + [CookieSet(cookie)];
    }

    /**
     * The handler. Its new state and outcome are those of `Signup`, so every lemma
     * about `Signup` holds of it; in particular it keeps the store's constraints.
     */
    method Post(username: FormValue, password: FormValue, env: Env) returns (outcome: Outcome)
      modifies this
      ensures Step(State(), outcome) == Signup(old(State()), username, password, env)
      ensures old(WellFormed(State())) ==> WellFormed(State())
    {
      ghost var before := State();
      var validated := Validate(username, password);
      if validated.Err? {
        return Responded(RejectionResponse(validated.error));
      }
      var credentials := validated.value;
      var userId := env.generateId(USER_ID_LENGTH);
      effects := effects + [IdGenerated(userId)];
      var hashedPassword := env.hash(credentials.password);
      effects := effects + [PasswordHashed(hashedPassword)];
      var inserted := InsertUser(User(userId, credentials.username, hashedPassword));
      if !inserted {
        outcome := Uncaught(UserInsertFailed);
        assert State() == Signup(before, username, password, env).world;
      } else {
        var session, created := CreateSession(userId, env);
        if !created {
          outcome := Uncaught(SessionInsertFailed);
          assert State() == Signup(before, username, password, env).world;
        } else {
          var cookie := env.sessionCookie(session.id);
          SetCookie(cookie);
          outcome := Responded(SuccessResponse());
          assert State() == Signup(before, username, password, env).world;
        }
      }
      if WellFormed(before) {
        SignupPreservesWellFormed(before, username, password, env);
      }
    }
  }
}
