/** The grant and credential store (backend/controllers): every handler that changes users, sessions,
    one-time codes, reset tokens, clients, assignments, consents, authorization codes or tokens, as one
    atomic step on the tables; handlers that run bcrypt outside their transaction are two steps with a
    ticket in between.  A transaction that returns an error changes nothing.

    Ids, salts and random values are drawn from one counter.  A hash is its salt and what it was made
    from; random codes and tokens are known by the id of their row. */
module Grants {
  import opened Options
  import opened Instants

  type Id = nat
  type Scope = set<string>

  datatype Hash = Hash(salt: Id, plain: nat)

  datatype User = User(password: Hash, super: bool, active: bool, verified: bool)

  datatype Otp = Otp(code: nat, attempts: nat, lastSent: Time, expires: Time)

  datatype Session = Session(user: Id, expires: Time, revoked: bool,
    // Not a column: the user's password hash when the session was made, or kept by a password change.
    basis: Hash)

  type Uint64 = n: nat | n <= 0xFFFF_FFFF_FFFF_FFFF

  datatype Client = Client(owner: Id, secret: Hash, version: Uint64, assignedOnly: bool, suspended: bool,
      redirects: set<nat>, deleted: bool)

  datatype Pair = Pair(client: Id, user: Id)

  datatype Assignment = Assignment(active: bool, deleted: bool)

  datatype Consent = Consent(scope: Scope, revoked: bool)

  datatype Code = Code(client: Id, user: Id, redirect: nat, challenge: nat, scope: Scope, expires: Time,
    // Not a column: the user's password hash when the code was issued.
    basis: Hash)

  datatype Token = Token(family: Id, client: Id, user: Id, scope: Scope, refreshExpires: Time, revoked: bool,
    // Not columns: the user's password hash and the client's secret hash when the token was issued.
    basis: Hash, secret: Hash)

  datatype Reset = Reset(user: Id, created: Time, used: bool, revoked: bool,
    // Not a column: how many passwords it has set.
    sets: nat)

  /** What the exchange that started a family redeemed and granted. */
  datatype Origin = Origin(code: Id, client: Id, user: Id, scope: Scope)

  /** One reset token created for a user. */
  datatype Stamp = Stamp(reset: Id, at: Time)

  /** What Login carries from the password check into its transaction. */
  datatype LoginTicket = LoginTicket(user: Id, hash: Hash, expires: Time)

  /** What ChangePassword carries: the user and session the middleware loaded, and the new password. */
  datatype ChangeTicket = ChangeTicket(user: Id, session: Id, hash: Hash, password: nat)

  /** What OAuthAuthorize carries from its checks into its transaction. */
  datatype Approval = Approval(session: Id, code: Code,
    // Not used by the transaction: whether this very request approved, or relied on the stored consent.
    approved: bool)

  datatype Accounts = Accounts(users: map<Id, User>, otps: map<Id, Otp>, sessions: map<Id, Session>,
      resets: map<Id, Reset>)

  datatype Registry = Registry(clients: map<Id, Client>, assignments: map<Pair, Assignment>)

  datatype Ledger = Ledger(consents: map<Pair, Consent>, codes: map<Id, Code>, tokens: map<Id, Token>)

  /** Not tables: every family started and every reset token created. */
  datatype Past = Past(families: map<Id, Origin>, requests: map<Id, seq<Stamp>>)

  /** Not tables: the tickets of requests between their two phases. */
  datatype Pending = Pending(logins: map<Id, LoginTicket>, changes: map<Id, ChangeTicket>, approvals: map<Id, Approval>)

  datatype Db = Db(clock: Time, next: Id, accounts: Accounts, registry: Registry, ledger: Ledger, past: Past,
      pending: Pending)

  datatype AccountEvent =
    | Register(password: nat, otp: nat, minutes: int)
    | VerifyEmail(user: Id, otp: nat, promote: bool)
    | Resend(user: Id, otp: nat, minutes: int)
    | LoginCheck(user: Id, password: nat)
    | LoginCommit(ticket: Id)
    | DropSession(session: Id)
    | RequestReset(user: Id)
    | ConfirmReset(reset: Id, password: nat)
    | CleanResets
    | ChangeCheck(session: Id, password: nat, replacement: nat)
    | ChangeCommit(ticket: Id)

  datatype ClientEvent =
    | CreateClient(owner: Id, assignedOnly: bool, redirects: set<nat>)
    | UpdateClient(actor: Actor, client: Id, assignedOnly: bool, redirects: set<nat>, provisioned: bool)
    | Suspend(client: Id, suspended: bool)
    | Regenerate(actor: Actor, client: Id, expected: Uint64)
    | DeleteClient(actor: Actor, client: Id)
    | Assign(actor: Actor, client: Id, user: Id)
    | Unassign(actor: Actor, client: Id, user: Id)

  datatype GrantEvent =
    | AuthorizeCheck(session: Id, ask: Ask)
    | AuthorizeCommit(ticket: Id)
    | PurgeCodes
    | Exchange(client: Id, secret: nat, code: Id, redirect: nat, verifier: nat)
    | Rotate(client: Id, secret: nat, token: Id)
    | RevokeToken(client: Id, secret: nat, token: Id)
    | DropToken(token: Id)
    | DropUserTokens(user: Id)
    | Disconnect(user: Id, client: Id)

  datatype AdminEvent =
    | SetRole(user: Id, super: bool)
    | SetStatus(user: Id, active: bool)
    | DeleteUser(user: Id)

  datatype Event =
    | Pass(duration: nat)
    | Account(account: AccountEvent)
    | Manage(manage: ClientEvent)
    | Grant(grant: GrantEvent)
    | Admin(admin: AdminEvent)

  /** Who manages a client: the session's user and the role the middleware loaded with it. */
  datatype Actor = Actor(id: Id, super: bool)

  datatype Ask = Ask(client: Id, redirect: nat, challenge: nat, scope: Scope, nonce: bool, silent: bool, approved: bool)

  const SESSION_LIFETIME := 24 * HOUR
  const CODE_LIFETIME := 5 * MINUTE
  const REFRESH_LIFETIME := 30 * DAY
  const RESET_LIFETIME := 15 * MINUTE
  const OTP_ATTEMPTS: nat := 5
  const HOURLY_RESETS: nat := 5
  const OLD := 7 * DAY
  const MAX_VERSION: Uint64 := 0xFFFF_FFFF_FFFF_FFFF
  const SUPPORTED: Scope := {"email", "openid", "profile"}

  /** accountAccessError denies everyone else. */
  predicate Usable(u: User) {
    u.active && u.verified
  }

  predicate CanUse(db: Db, user: Id) {
    user in db.accounts.users && Usable(db.accounts.users[user])
  }

  predicate SessionLive(db: Db, session: Id, user: Id) {
    session in db.accounts.sessions && db.accounts.sessions[session].user == user
        && !db.accounts.sessions[session].revoked
        && db.accounts.sessions[session].expires > db.clock
  }

  /** RequireSession lets the request through, with this user. */
  predicate SignedIn(db: Db, session: Id) {
    session in db.accounts.sessions && SessionLive(db, session, db.accounts.sessions[session].user)
        && CanUse(db, db.accounts.sessions[session].user)
  }

  /** RequireAuthToken lets the request through, given an access token that is genuine and unexpired. */
  predicate Passes(db: Db, token: Id) {
    token in db.ledger.tokens && !db.ledger.tokens[token].revoked
    && CanUse(db, db.ledger.tokens[token].user)
        && MayEnter(db, db.ledger.tokens[token].client, db.ledger.tokens[token].user)
  }

  predicate ClientLive(r: Registry, client: Id) {
    client in r.clients && !r.clients[client].deleted
  }

  /** findClientForManagement. */
  predicate Manages(db: Db, actor: Actor, client: Id) {
    ClientLive(db.registry, client) && (actor.super || db.registry.clients[client].owner == actor.id)
  }

  predicate AssignmentLive(assignments: map<Pair, Assignment>, client: Id, user: Id) {
    Pair(client, user) in assignments && assignments[Pair(client, user)] == Assignment(true, false)
  }

  /** applicationAccess, apart from the client's status. */
  predicate Admitted(r: Registry, client: Id, user: Id) {
    ClientLive(r, client) && (r.clients[client].assignedOnly ==> AssignmentLive(r.assignments, client, user))
  }

  predicate MayEnter(db: Db, client: Id, user: Id) {
    Admitted(db.registry, client, user) && !db.registry.clients[client].suspended
  }

  /** consentCovers; the scopes are normalized, so ScopeAllowed is inclusion of non-empty sets. */
  predicate Covers(consents: map<Pair, Consent>, client: Id, user: Id, scope: Scope) {
    var p := Pair(client, user);
    p in consents && !consents[p].revoked && scope != {} && scope <= consents[p].scope
  }

  // ---------------------------------------------------------------- bulk updates

  datatype Where = OfUser(id: Id) | OfClient(id: Id) | OfPair(pair: Pair) | OfFamily(id: Id)

  predicate HitsToken(w: Where, t: Token) {
    match w
    case OfUser(id) => t.user == id
    case OfClient(id) => t.client == id
    case OfPair(pair) => Pair(t.client, t.user) == pair
    case OfFamily(id) => t.family == id
  }

  predicate HitsCode(w: Where, c: Code) {
    match w
    case OfUser(id) => c.user == id
    case OfClient(id) => c.client == id
    case OfPair(pair) => Pair(c.client, c.user) == pair
    case OfFamily(_) => false
  }

  function RevokeTokens(tokens: map<Id, Token>, w: Where): map<Id, Token> {
    map i | i in tokens :: if HitsToken(w, tokens[i]) then tokens[i].(revoked := true) else tokens[i]
  }

  function DropCodes(codes: map<Id, Code>, w: Where): map<Id, Code> {
    map i | i in codes && !HitsCode(w, codes[i]) :: codes[i]
  }

  function RevokeSessions(sessions: map<Id, Session>, user: Id, except: Option<Id>): map<Id, Session> {
    map i | i in sessions ::
      if sessions[i].user == user && except != Some(i) then sessions[i].(revoked := true) else sessions[i]
  }

  /** RevokeUserResetAccess, on the token table. */
  function RevokeResets(resets: map<Id, Reset>, user: Id): map<Id, Reset> {
    map i | i in resets ::
      if resets[i].user == user && !resets[i].used then resets[i].(revoked := true) else resets[i]
  }

  function RevokeConsent(consents: map<Pair, Consent>, pair: Pair): map<Pair, Consent> {
    map p | p in consents :: if p == pair then consents[p].(revoked := true) else consents[p]
  }

  /** Every token that the condition hits revoked, every such code gone. */
  function Close(l: Ledger, w: Where): Ledger {
    l.(tokens := RevokeTokens(l.tokens, w), codes := DropCodes(l.codes, w))
  }

  /** revokeClientUserGrant. */
  function RevokeGrant(l: Ledger, pair: Pair): Ledger {
    Close(l, OfPair(pair)).(consents := RevokeConsent(l.consents, pair))
  }

  function Without<T>(m: map<Id, T>, id: Id): map<Id, T> {
    map i | i in m && i != id :: m[i]
  }

  // ---------------------------------------------------------------- accounts

  function OtpLifetime(minutes: int): Time {
    if 5 <= minutes <= 30 then minutes * MINUTE else 10 * MINUTE
  }

  function FreshOtp(db: Db, otp: nat, minutes: int): Otp {
    Otp(otp, 0, db.clock, db.clock + OtpLifetime(minutes))
  }

  function RegisterStep(db: Db, password: nat, otp: nat, minutes: int): Db {
    db.(next := db.next + 1,
        accounts := db.accounts.(
          users := db.accounts.users[db.next := User(Hash(db.next, password), false, true, false)],
          otps := db.accounts.otps[db.next := FreshOtp(db, otp, minutes)]))
  }

  /** A wrong code counts; the fifth wrong one, an expired record and a right one remove the record. */
  function VerifyEmailStep(db: Db, user: Id, otp: nat, promote: bool): Db {
    if user !in db.accounts.users || !db.accounts.users[user].active || db.accounts.users[user].verified
        || user !in db.accounts.otps then db else
      var u, record := db.accounts.users[user], db.accounts.otps[user];
      var expired := db.clock >= record.expires;
      var right := !expired && record.attempts < OTP_ATTEMPTS && otp == record.code;
      db.(accounts := db.accounts.(
            users := if right then db.accounts.users[user := u.(verified := true, super := promote || u.super)]
                else db.accounts.users,
            otps := if right || expired || record.attempts + 1 >= OTP_ATTEMPTS
                  then Without(db.accounts.otps, user)
                  else db.accounts.otps[user := record.(attempts := record.attempts + 1)]))
  }

  /** ResendVerification with prepareEmailOTP under the cooldown. */
  function ResendStep(db: Db, user: Id, otp: nat, minutes: int): Db {
    if user !in db.accounts.users || !db.accounts.users[user].active || db.accounts.users[user].verified then db
    else if user in db.accounts.otps && db.clock < db.accounts.otps[user].lastSent + MINUTE then db
    else db.(accounts := db.accounts.(otps := db.accounts.otps[user := FreshOtp(db, otp, minutes)]))
  }

  function LoginCheckStep(db: Db, user: Id, password: nat): Db {
    if !CanUse(db, user) || db.accounts.users[user].password.plain != password then db else
      db.(next := db.next + 1,
          pending := db.pending.(logins := db.pending.logins[db.next :=
              LoginTicket(user, db.accounts.users[user].password, db.clock + SESSION_LIFETIME)]))
  }

  /** The account, its password and its session are as the password check saw them. */
  predicate LoginHolds(db: Db, t: LoginTicket) {
    CanUse(db, t.user) && db.accounts.users[t.user].password == t.hash
  }

  predicate ChangeHolds(db: Db, t: ChangeTicket) {
    t.user in db.accounts.users && db.accounts.users[t.user].password == t.hash && db.accounts.users[t.user].active
        && SessionLive(db, t.session, t.user)
  }

  function LoginCommitStep(db: Db, ticket: Id): Db {
    if ticket !in db.pending.logins then db else
      var t := db.pending.logins[ticket];
      var holds := LoginHolds(db, t);
      db.(pending := db.pending.(logins := Without(db.pending.logins, ticket)),
          next := if holds then db.next + 1 else db.next,
          accounts := db.accounts.(sessions := if holds then db.accounts.sessions[db.next :=
              Session(t.user, t.expires, false, t.hash)] else db.accounts.sessions))
  }

  function DropSessionStep(db: Db, session: Id): Db {
    if session !in db.accounts.sessions then db else
      db.(accounts :=
          db.accounts.(sessions := db.accounts.sessions[session := db.accounts.sessions[session].(revoked := true)]))
  }

  function ChangeCheckStep(db: Db, session: Id, password: nat, replacement: nat): Db {
    if !SignedIn(db, session) then db else
      var user := db.accounts.sessions[session].user;
      var hash := db.accounts.users[user].password;
      if hash.plain != password || hash.plain == replacement then db else
        db.(next := db.next + 1,
            pending := db.pending.(changes :=
                db.pending.changes[db.next := ChangeTicket(user, session, hash, replacement)]))
  }

  function ChangeCommitStep(db: Db, ticket: Id): Db {
    if ticket !in db.pending.changes then db else
      var t := db.pending.changes[ticket];
      if !ChangeHolds(db, t) then db.(pending := db.pending.(changes := Without(db.pending.changes, ticket))) else
        var hash := Hash(db.next, t.password);
        var others := RevokeSessions(db.accounts.sessions, t.user, Some(t.session));
        db.(pending := db.pending.(changes := Without(db.pending.changes, ticket)),
            next := db.next + 1,
            accounts := db.accounts.(
              users := db.accounts.users[t.user := db.accounts.users[t.user].(password := hash)],
              sessions := others[t.session := others[t.session].(basis := hash)],
              resets := RevokeResets(db.accounts.resets, t.user)),
            ledger := Close(db.ledger, OfUser(t.user)))
  }

  // ---------------------------------------------------------------- password reset

  function Created(resets: map<Id, Reset>, user: Id, after: Time): set<Id> {
    set r | r in resets && resets[r].user == user && resets[r].created > after
  }

  /** The latest token is younger than the cooldown, or five are younger than an hour. */
  predicate Throttled(db: Db, user: Id) {
    Created(db.accounts.resets, user, db.clock - MINUTE) != {}
        || |Created(db.accounts.resets, user, db.clock - HOUR)| >= HOURLY_RESETS
  }

  function Requests(db: Db, user: Id): seq<Stamp> {
    if user in db.past.requests then db.past.requests[user] else []
  }

  function RequestResetStep(db: Db, user: Id): Db {
    if !CanUse(db, user) || Throttled(db, user) then db else
      db.(next := db.next + 1,
          accounts := db.accounts.(resets :=
              RevokeResets(db.accounts.resets, user)[db.next := Reset(user, db.clock, false, false, 0)]),
          past := db.past.(requests := db.past.requests[user := Requests(db, user) + [Stamp(db.next, db.clock)]]))
  }

  predicate ResetUsable(r: Reset) {
    !r.used && !r.revoked
  }

  function ConfirmResetStep(db: Db, reset: Id, password: nat): Db {
    if reset !in db.accounts.resets then db else
      var r := db.accounts.resets[reset];
      if !ResetUsable(r) || r.created + RESET_LIFETIME <= db.clock || !CanUse(db, r.user)
          || db.accounts.users[r.user].password.plain == password
      then db else
        db.(next := db.next + 1,
            accounts := db.accounts.(
              users := db.accounts.users[r.user := db.accounts.users[r.user].(password := Hash(db.next, password))],
              resets := RevokeResets(db.accounts.resets[reset := r.(used := true, sets := r.sets + 1)], r.user),
              sessions := RevokeSessions(db.accounts.sessions, r.user, None)),
            ledger := Close(db.ledger, OfUser(r.user)))
  }

  function CleanResetsStep(db: Db): Db {
    db.(accounts := db.accounts.(resets := map r | r in db.accounts.resets
        && !(db.accounts.resets[r].created + RESET_LIFETIME < db.clock - OLD) :: db.accounts.resets[r]))
  }

  // ---------------------------------------------------------------- clients and assignments

  /** The owner's row is a foreign key, so an owner deleted meanwhile fails the insert. */
  function CreateClientStep(db: Db, owner: Id, assignedOnly: bool, redirects: set<nat>): Db {
    if owner !in db.accounts.users then db else
      db.(next := db.next + 1,
          registry := db.registry.(
            clients := db.registry.clients[db.next := Client(owner, Hash(db.next, db.next), 1, assignedOnly, false,
                redirects, false)],
            assignments := db.registry.assignments[Pair(db.next, owner) := Assignment(true, false)]))
  }

  /** The unique index on assignments also counts soft-deleted rows, which the lookup before it does not
      see: then the insert fails and the whole update is rolled back. */
  predicate OwnerRowBlocks(db: Db, client: Id)
    requires client in db.registry.clients
  {
    var p := Pair(client, db.registry.clients[client].owner);
    p in db.registry.assignments && db.registry.assignments[p].deleted
  }

  function UpdateClientStep(db: Db, actor: Actor, client: Id, assignedOnly: bool, redirects: set<nat>,
      provisioned: bool): Db {
    if !Manages(db, actor, client) || (provisioned && !assignedOnly) then db
    else if assignedOnly && OwnerRowBlocks(db, client) then db
    else
      var c := db.registry.clients[client];
      db.(registry := db.registry.(
            clients := db.registry.clients[client := c.(assignedOnly := assignedOnly, redirects := redirects)],
            assignments := if assignedOnly
                then db.registry.assignments[Pair(client, c.owner) := Assignment(true, false)]
                else db.registry.assignments),
          ledger := if c.assignedOnly != assignedOnly
            then Close(db.ledger, OfClient(client))
            else db.ledger.(codes := DropCodes(db.ledger.codes, OfClient(client))))
  }

  /** Nothing in the program suspends a client; an operator may. */
  function SuspendStep(db: Db, client: Id, suspended: bool): Db {
    if client !in db.registry.clients then db else db.(registry :=
        db.registry.(clients := db.registry.clients[client := db.registry.clients[client].(suspended := suspended)]))
  }

  function NextVersion(current: Uint64, expected: Uint64): Option<Uint64> {
    var c := if current == 0 then 1 else current;
    if c != expected || c == MAX_VERSION then None else Some(c + 1)
  }

  function RegenerateStep(db: Db, actor: Actor, client: Id, expected: Uint64): Db {
    if !Manages(db, actor, client) then db else
      match NextVersion(db.registry.clients[client].version, expected)
      case None => db
      case Some(version) =>
        db.(next := db.next + 1,
            registry := db.registry.(clients := db.registry.clients[client :=
                db.registry.clients[client].(secret := Hash(db.next, db.next), version := version)]),
            ledger := Close(db.ledger, OfClient(client)))
  }

  function DeleteClientStep(db: Db, actor: Actor, client: Id): Db {
    if !Manages(db, actor, client) then db else
      db.(registry := db.registry.(
            clients := db.registry.clients[client := db.registry.clients[client].(deleted := true)],
            assignments := map p | p in db.registry.assignments ::
            if p.client == client then db.registry.assignments[p].(deleted := true) else db.registry.assignments[p]),
          ledger := Close(db.ledger, OfClient(client)).(
            consents := map p | p in db.ledger.consents && p.client != client :: db.ledger.consents[p]))
  }

  function AssignStep(db: Db, actor: Actor, client: Id, user: Id): Db {
    if !Manages(db, actor, client) || !CanUse(db, user) then db else
      db.(registry :=
          db.registry.(assignments := db.registry.assignments[Pair(client, user) := Assignment(true, false)]),
          ledger := RevokeGrant(db.ledger, Pair(client, user)))
  }

  function UnassignStep(db: Db, actor: Actor, client: Id, user: Id): Db {
    var p := Pair(client, user);
    if !Manages(db, actor, client) then db
    else if db.registry.clients[client].assignedOnly && db.registry.clients[client].owner == user then db
    else if p !in db.registry.assignments || db.registry.assignments[p].deleted then db
    else
      db.(registry :=
          db.registry.(assignments := db.registry.assignments[p := db.registry.assignments[p].(deleted := true)]),
          ledger := RevokeGrant(db.ledger, p))
  }

  // ---------------------------------------------------------------- authorization

  /** Everything OAuthAuthorize checks before its transaction. */
  predicate Authorizable(db: Db, user: Id, ask: Ask) {
    && MayEnter(db, ask.client, user)
    && ask.redirect in db.registry.clients[ask.client].redirects
    && ask.scope != {} && ask.scope <= SUPPORTED
    && ("openid" in ask.scope ==> ask.nonce)
    && (Covers(db.ledger.consents, ask.client, user, ask.scope) || (!ask.silent && ask.approved))
  }

  function AuthorizeCheckStep(db: Db, session: Id, ask: Ask): Db {
    if !SignedIn(db, session) || !Authorizable(db, db.accounts.sessions[session].user, ask) then db else
      var user := db.accounts.sessions[session].user;
      var code := Code(ask.client, user, ask.redirect, ask.challenge, ask.scope, db.clock + CODE_LIFETIME,
          db.accounts.users[user].password);
      db.(next := db.next + 1,
          pending := db.pending.(approvals := db.pending.approvals[db.next := Approval(session, code, ask.approved)]))
  }

  /** The scope persistOAuthConsent writes. */
  function Merged(consents: map<Pair, Consent>, p: Pair, scope: Scope): Scope {
    if p in consents then consents[p].scope + scope else scope
  }

  /** User and session are still good; the consent's foreign key needs the client's row. */
  predicate ApprovalHolds(db: Db, t: Approval) {
    CanUse(db, t.code.user) && SessionLive(db, t.session, t.code.user) && t.code.client in db.registry.clients
  }

  function AuthorizeCommitStep(db: Db, ticket: Id): Db {
    if ticket !in db.pending.approvals then db else
      var t := db.pending.approvals[ticket];
      var code := t.code;
      var p := Pair(code.client, code.user);
      if !ApprovalHolds(db, t) then db.(pending := db.pending.(approvals := Without(db.pending.approvals, ticket)))
      else
        db.(pending := db.pending.(approvals := Without(db.pending.approvals, ticket)),
            next := db.next + 1,
            ledger := db.ledger.(
              codes := db.ledger.codes[db.next := code.(basis := db.accounts.users[code.user].password)],
              consents := db.ledger.consents[p := Consent(Merged(db.ledger.consents, p, code.scope), false)]))
  }

  /** OAuthAuthorize drops expired codes before its transaction. */
  function PurgeCodesStep(db: Db): Db {
    db.(ledger := db.ledger.(codes := map i | i in db.ledger.codes
        && db.ledger.codes[i].expires > db.clock :: db.ledger.codes[i]))
  }

  // ---------------------------------------------------------------- tokens

  /** authenticateClient, and lockAndVerifyOAuthClient again under the lock. */
  predicate Authentic(db: Db, client: Id, secret: nat) {
    ClientLive(db.registry, client) && !db.registry.clients[client].suspended
        && db.registry.clients[client].secret.plain == secret
  }

  function Issued(db: Db, family: Id, client: Id, user: Id, scope: Scope): Token
    requires user in db.accounts.users && client in db.registry.clients
  {
    Token(family, client, user, scope, db.clock + REFRESH_LIFETIME, false, db.accounts.users[user].password,
        db.registry.clients[client].secret)
  }

  /** The code is found, unexpired and presented with its redirect URI and verifier. */
  predicate Redeemable(db: Db, client: Id, code: Id, redirect: nat, verifier: nat) {
    && code in db.ledger.codes && db.ledger.codes[code].client == client
    && db.clock <= db.ledger.codes[code].expires && db.ledger.codes[code].redirect == redirect
        && db.ledger.codes[code].challenge == verifier
  }

  /** issueTokenPair succeeds. */
  predicate Issuable(db: Db, client: Id, user: Id) {
    CanUse(db, user) && MayEnter(db, client, user)
  }

  /** Any failure, even after the code was deleted inside the transaction, rolls back. */
  function ExchangeStep(db: Db, client: Id, secret: nat, code: Id, redirect: nat, verifier: nat): Db {
    if !Authentic(db, client, secret) || !Redeemable(db, client, code, redirect, verifier)
        || !Issuable(db, client, db.ledger.codes[code].user)
    then db else
      var c := db.ledger.codes[code];
      db.(next := db.next + 2,
          ledger := db.ledger.(
            codes := Without(db.ledger.codes, code),
            tokens := db.ledger.tokens[db.next + 1 := Issued(db, db.next, client, c.user, c.scope)]),
          past := db.past.(families := db.past.families[db.next := Origin(code, client, c.user, c.scope)]))
  }

  predicate Presentable(db: Db, client: Id, secret: nat, token: Id) {
    Authentic(db, client, secret) && token in db.ledger.tokens && db.ledger.tokens[token].client == client
        && db.ledger.tokens[token].user in db.accounts.users
  }

  /** The presented token is spent and its successor joins the family. */
  function Renewed(db: Db, token: Id): Db
    requires token in db.ledger.tokens && db.ledger.tokens[token].user in db.accounts.users
        && db.ledger.tokens[token].client in db.registry.clients
  {
    var t := db.ledger.tokens[token];
    db.(next := db.next + 1,
        ledger := db.ledger.(tokens := db.ledger.tokens[token := t.(revoked := true)][db.next :=
            Issued(db, t.family, t.client, t.user, t.scope)]))
  }

  /** A rotated token presented again revokes its family, and that commits. */
  function RotateStep(db: Db, client: Id, secret: nat, token: Id): Db {
    if !Presentable(db, client, secret, token) then db else
      var t := db.ledger.tokens[token];
      if t.revoked then db.(ledger := db.ledger.(tokens := RevokeTokens(db.ledger.tokens, OfFamily(t.family))))
      else if db.clock > t.refreshExpires || !Issuable(db, client, t.user) then db
      else Renewed(db, token)
  }

  function RevokeTokenStep(db: Db, client: Id, secret: nat, token: Id): Db {
    if !Authentic(db, client, secret) || token !in db.ledger.tokens
        || db.ledger.tokens[token].client != client then db else
      var t := db.ledger.tokens[token];
      db.(ledger := db.ledger.(tokens := map i | i in db.ledger.tokens ::
            if HitsToken(OfFamily(t.family), db.ledger.tokens[i])
                && HitsToken(OfPair(Pair(client, t.user)), db.ledger.tokens[i])
            then db.ledger.tokens[i].(revoked := true)
            else db.ledger.tokens[i]))
  }

  function DropTokenStep(db: Db, token: Id): Db {
    if token !in db.ledger.tokens then db else
      db.(ledger := db.ledger.(tokens := db.ledger.tokens[token := db.ledger.tokens[token].(revoked := true)]))
  }

  function DropUserTokensStep(db: Db, user: Id): Db {
    db.(ledger := db.ledger.(tokens := RevokeTokens(db.ledger.tokens, OfUser(user))))
  }

  /** What RequireSession does to the store. */
  function SessionCheck(db: Db, session: Id): Db {
    if session in db.accounts.sessions && SessionLive(db, session, db.accounts.sessions[session].user)
        && !CanUse(db, db.accounts.sessions[session].user)
    then DropSessionStep(db, session)
    else db
  }

  /** What RequireAuthToken does to it. */
  function TokenCheck(db: Db, token: Id): Db {
    if token !in db.ledger.tokens || db.ledger.tokens[token].revoked then db else
      var t := db.ledger.tokens[token];
      if !ClientLive(db.registry, t.client) then DropTokenStep(db, token)
      else if t.user !in db.accounts.users then db
      else if !Usable(db.accounts.users[t.user]) then DropUserTokensStep(db, t.user)
      else if !MayEnter(db, t.client, t.user) then DropTokenStep(db, token)
      else db
  }

  function DisconnectStep(db: Db, user: Id, client: Id): Db {
    if exists i :: i in db.ledger.tokens && db.ledger.tokens[i].client == client && db.ledger.tokens[i].user == user
        && !db.ledger.tokens[i].revoked
    then db.(ledger := RevokeGrant(db.ledger, Pair(client, user)))
    else db
  }

  // ---------------------------------------------------------------- administration

  function SetRoleStep(db: Db, user: Id, super: bool): Db {
    if user !in db.accounts.users then db else
      db.(accounts := db.accounts.(users := db.accounts.users[user := db.accounts.users[user].(super := super)]),
          ledger := Close(db.ledger, OfUser(user)))
  }

  function SetStatusStep(db: Db, user: Id, active: bool): Db {
    if user !in db.accounts.users then db else
      var users := db.accounts.users[user := db.accounts.users[user].(active := active)];
      if active then db.(accounts := db.accounts.(users := users)) else
        db.(accounts := db.accounts.(
              users := users,
              sessions := RevokeSessions(db.accounts.sessions, user, None),
              otps := Without(db.accounts.otps, user),
              resets := RevokeResets(db.accounts.resets, user)),
            ledger := Close(db.ledger, OfUser(user)))
  }

  function OwnedBy(r: Registry, user: Id): set<Id> {
    set c | c in r.clients && r.clients[c].owner == user
  }

  function PurgeAccounts(a: Accounts, user: Id): Accounts {
    Accounts(
      Without(a.users, user),
      Without(a.otps, user),
      map i | i in a.sessions && a.sessions[i].user != user :: a.sessions[i],
      map i | i in a.resets && a.resets[i].user != user :: a.resets[i])
  }

  function PurgeRegistry(r: Registry, user: Id, owned: set<Id>): Registry {
    Registry(
      map c | c in r.clients && c !in owned :: r.clients[c],
      map p | p in r.assignments && p.user != user && p.client !in owned :: r.assignments[p])
  }

  function PurgeLedger(l: Ledger, user: Id, owned: set<Id>): Ledger {
    Ledger(
      map p | p in l.consents && p.user != user && p.client !in owned :: l.consents[p],
      map i | i in l.codes && l.codes[i].user != user && l.codes[i].client !in owned :: l.codes[i],
      map i | i in l.tokens && l.tokens[i].user != user && l.tokens[i].client !in owned :: l.tokens[i])
  }

  /** AdminDeleteUser: the user and the clients it owns go, with every row that refers to them. */
  function DeleteUserStep(db: Db, user: Id): Db {
    if user !in db.accounts.users then db else
      var owned := OwnedBy(db.registry, user);
      db.(accounts := PurgeAccounts(db.accounts, user),
          registry := PurgeRegistry(db.registry, user, owned),
          ledger := PurgeLedger(db.ledger, user, owned))
  }

  // ---------------------------------------------------------------- runs

  function AccountStep(db: Db, e: AccountEvent): Db {
    match e
    case Register(password, otp, minutes) => RegisterStep(db, password, otp, minutes)
    case VerifyEmail(user, otp, promote) => VerifyEmailStep(db, user, otp, promote)
    case Resend(user, otp, minutes) => ResendStep(db, user, otp, minutes)
    case LoginCheck(user, password) => LoginCheckStep(db, user, password)
    case LoginCommit(ticket) => LoginCommitStep(db, ticket)
    case DropSession(session) => DropSessionStep(db, session)
    case RequestReset(user) => RequestResetStep(db, user)
    case ConfirmReset(reset, password) => ConfirmResetStep(db, reset, password)
    case CleanResets => CleanResetsStep(db)
    case ChangeCheck(session, password, replacement) => ChangeCheckStep(db, session, password, replacement)
    case ChangeCommit(ticket) => ChangeCommitStep(db, ticket)
  }

  function ClientStep(db: Db, e: ClientEvent): Db {
    match e
    case CreateClient(owner, assignedOnly, redirects) => CreateClientStep(db, owner, assignedOnly, redirects)
    case UpdateClient(actor, client, assignedOnly, redirects, provisioned) =>
      UpdateClientStep(db, actor, client, assignedOnly, redirects, provisioned)
    case Suspend(client, suspended) => SuspendStep(db, client, suspended)
    case Regenerate(actor, client, expected) => RegenerateStep(db, actor, client, expected)
    case DeleteClient(actor, client) => DeleteClientStep(db, actor, client)
    case Assign(actor, client, user) => AssignStep(db, actor, client, user)
    case Unassign(actor, client, user) => UnassignStep(db, actor, client, user)
  }

  function GrantStep(db: Db, e: GrantEvent): Db {
    match e
    case AuthorizeCheck(session, ask) => AuthorizeCheckStep(db, session, ask)
    case AuthorizeCommit(ticket) => AuthorizeCommitStep(db, ticket)
    case PurgeCodes => PurgeCodesStep(db)
    case Exchange(client, secret, code, redirect, verifier) => ExchangeStep(db, client, secret, code, redirect,
        verifier)
    case Rotate(client, secret, token) => RotateStep(db, client, secret, token)
    case RevokeToken(client, secret, token) => RevokeTokenStep(db, client, secret, token)
    case DropToken(token) => DropTokenStep(db, token)
    case DropUserTokens(user) => DropUserTokensStep(db, user)
    case Disconnect(user, client) => DisconnectStep(db, user, client)
  }

  function AdminStep(db: Db, e: AdminEvent): Db {
    match e
    case SetRole(user, super) => SetRoleStep(db, user, super)
    case SetStatus(user, active) => SetStatusStep(db, user, active)
    case DeleteUser(user) => DeleteUserStep(db, user)
  }

  /** One request's transaction, or the passing of time. */
  function Step(db: Db, e: Event): Db {
    match e
    case Pass(duration) => db.(clock := db.clock + duration)
    case Account(account) => AccountStep(db, account)
    case Manage(manage) => ClientStep(db, manage)
    case Grant(grant) => GrantStep(db, grant)
    case Admin(admin) => AdminStep(db, admin)
  }

  function Run(db: Db, events: seq<Event>): Db
    decreases |events|
  {
    if events == [] then db else Step(Run(db, events[..|events| - 1]), events[|events| - 1])
  }

  /** A store nothing has been written to. */
  predicate Empty(db: Db) {
    && db.accounts == Accounts(map[], map[], map[], map[]) && db.registry == Registry(map[], map[])
        && db.ledger == Ledger(map[], map[], map[])
    && db.past == Past(map[], map[]) && db.pending == Pending(map[], map[], map[])
  }
}
