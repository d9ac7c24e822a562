/** The joint invariant of the grant store: every live credential rests on a usable account, on the
    password it was issued under, on a consent and, for a token, on admission and the client's secret. */
module GrantsSafety {
  import opened Options
  import opened Instants
  import opened Grants

  /** The account can be used and its password is still the one this hash stands for. */
  predicate Rests(users: map<Id, User>, user: Id, basis: Hash) {
    user in users && Usable(users[user]) && users[user].password == basis
  }

  // ---------------------------------------------------------------- accounts

  ghost predicate SessionsRest(a: Accounts) {
    forall i :: i in a.sessions && !a.sessions[i].revoked ==> Rests(a.users, a.sessions[i].user, a.sessions[i].basis)
  }

  ghost predicate OtpsSound(a: Accounts) {
    forall u :: u in a.otps ==>
      u in a.users && a.users[u].active && !a.users[u].verified && a.otps[u].attempts < OTP_ATTEMPTS
  }

  ghost predicate ResetsRest(a: Accounts) {
    forall i :: i in a.resets && ResetUsable(a.resets[i]) ==>
        a.resets[i].user in a.users && Usable(a.users[a.resets[i].user])
  }

  ghost predicate ResetsSingle(a: Accounts) {
    && (forall i :: i in a.resets ==> a.resets[i].sets == if a.resets[i].used then 1 else 0)
    && (forall i, k ::
          i in a.resets && k in a.resets && ResetUsable(a.resets[i]) && ResetUsable(a.resets[k])
              && a.resets[i].user == a.resets[k].user
          ==> i == k)
  }

  ghost predicate AccountsSound(a: Accounts) {
    SessionsRest(a) && OtpsSound(a) && ResetsRest(a) && ResetsSingle(a)
  }

  // ---------------------------------------------------------------- clients and grants

  ghost predicate OwnersAssigned(r: Registry) {
    forall c :: ClientLive(r, c) && r.clients[c].assignedOnly ==> AssignmentLive(r.assignments, c, r.clients[c].owner)
  }

  predicate CodeRests(users: map<Id, User>, consents: map<Pair, Consent>, c: Code) {
    Rests(users, c.user, c.basis) && Covers(consents, c.client, c.user, c.scope)
  }

  predicate TokenRests(users: map<Id, User>, consents: map<Pair, Consent>, t: Token) {
    Rests(users, t.user, t.basis) && Covers(consents, t.client, t.user, t.scope)
  }

  predicate TokenAdmitted(r: Registry, t: Token) {
    Admitted(r, t.client, t.user) && r.clients[t.client].secret == t.secret
  }

  ghost predicate CodesRest(users: map<Id, User>, l: Ledger) {
    forall i :: i in l.codes ==> CodeRests(users, l.consents, l.codes[i])
  }

  ghost predicate TokensRest(users: map<Id, User>, l: Ledger) {
    forall i :: i in l.tokens && !l.tokens[i].revoked ==> TokenRests(users, l.consents, l.tokens[i])
  }

  ghost predicate TokensAdmitted(r: Registry, tokens: map<Id, Token>) {
    forall i :: i in tokens && !tokens[i].revoked ==> TokenAdmitted(r, tokens[i])
  }

  ghost predicate LedgerSound(users: map<Id, User>, r: Registry, l: Ledger) {
    CodesRest(users, l) && TokensRest(users, l) && TokensAdmitted(r, l.tokens)
  }

  // ---------------------------------------------------------------- the whole store

  /** Drawn ids lie below the counter. */
  ghost predicate AccountsDrawn(a: Accounts, next: Id) {
    && (forall i :: i in a.users ==> i < next)
    && (forall i :: i in a.sessions ==> i < next)
    && (forall i :: i in a.resets ==> i < next)
  }

  /** And an assignment's client row exists. */
  ghost predicate RegistryDrawn(r: Registry, next: Id) {
    && (forall i :: i in r.clients ==> i < next && r.clients[i].secret.salt < next)
    && (forall p :: p in r.assignments ==> p.client in r.clients)
  }

  ghost predicate GrantsDrawn(l: Ledger, past: Past, next: Id) {
    && (forall i :: i in l.codes ==> i < next)
    && (forall i :: i in l.tokens ==> i < next)
    && (forall i :: i in past.families ==> i < next)
  }

  ghost predicate Drawn(db: Db) {
    AccountsDrawn(db.accounts, db.next) && RegistryDrawn(db.registry, db.next)
        && GrantsDrawn(db.ledger, db.past, db.next)
  }

  /** A pending authorization asked for something. */
  ghost predicate AsksNamed(pending: Pending) {
    forall t :: t in pending.approvals ==> pending.approvals[t].code.scope != {}
  }

  ghost predicate Sound(db: Db) {
    && Drawn(db) && AsksNamed(db.pending)
    && AccountsSound(db.accounts) && OwnersAssigned(db.registry)
    && LedgerSound(db.accounts.users, db.registry, db.ledger)
  }

  // ---------------------------------------------------------------- bulk updates

  /** A user's grants closed: whatever happens to that user's row, the rest stands. */
  lemma UserClosed(users: map<Id, User>, users': map<Id, User>, r: Registry, l: Ledger, user: Id)
    requires LedgerSound(users, r, l)
    requires forall u :: u in users && u != user ==> u in users' && users'[u] == users[u]
    ensures LedgerSound(users', r, Close(l, OfUser(user)))
  {}

  /** Nothing about another client changes. */
  ghost predicate SameElsewhere(r: Registry, r': Registry, client: Id) {
    && (forall c :: c in r.clients && c != client ==> c in r'.clients && r'.clients[c] == r.clients[c])
    && (forall p :: p in r.assignments && p.client != client ==>
        p in r'.assignments && r'.assignments[p] == r.assignments[p])
  }

  lemma ClientClosed(users: map<Id, User>, r: Registry, r': Registry, l: Ledger, consents: map<Pair, Consent>,
      client: Id)
    requires LedgerSound(users, r, l) && SameElsewhere(r, r', client)
    requires forall p :: p in l.consents && p.client != client ==> p in consents && consents[p] == l.consents[p]
    ensures LedgerSound(users, r', Close(l, OfClient(client)).(consents := consents))
  {}

  /** One pair's grants closed, with its consent: its assignment may go either way. */
  lemma PairClosed(users: map<Id, User>, r: Registry, r': Registry, l: Ledger, pair: Pair)
    requires LedgerSound(users, r, l) && r'.clients == r.clients
    requires forall p :: p in r.assignments && p != pair ==>
        p in r'.assignments && r'.assignments[p] == r.assignments[p]
    ensures LedgerSound(users, r', RevokeGrant(l, pair))
  {}

  /** Tokens only revoked, codes only dropped. */
  ghost predicate Narrowed(l: Ledger, l': Ledger) {
    && l'.consents == l.consents
    && (forall i :: i in l'.codes ==> i in l.codes && l'.codes[i] == l.codes[i])
    && (forall i :: i in l'.tokens && !l'.tokens[i].revoked ==> i in l.tokens && l'.tokens[i] == l.tokens[i])
  }

  lemma NarrowedSound(users: map<Id, User>, r: Registry, l: Ledger, l': Ledger)
    requires LedgerSound(users, r, l) && Narrowed(l, l')
    ensures LedgerSound(users, r, l')
  {}

  /** New rows and rows that stay usable with their password take nothing away. */
  lemma UsersGrow(users: map<Id, User>, users': map<Id, User>, r: Registry, l: Ledger)
    requires LedgerSound(users, r, l)
    requires forall u :: u in users && Usable(users[u]) ==>
        u in users' && Usable(users'[u]) && users'[u].password == users[u].password
    ensures LedgerSound(users', r, l)
  {}

  /** Clients keep what their tokens rest on. */
  lemma RegistryGrows(users: map<Id, User>, r: Registry, r': Registry, l: Ledger)
    requires LedgerSound(users, r, l)
    requires forall c :: ClientLive(r, c) ==>
               && ClientLive(r', c) && r'.clients[c].assignedOnly == r.clients[c].assignedOnly
               && r'.clients[c].secret == r.clients[c].secret
    requires forall p :: p in r.assignments && r.assignments[p] == Assignment(true, false) ==>
        p in r'.assignments && r'.assignments[p] == Assignment(true, false)
    ensures LedgerSound(users, r', l)
  {}

  // ---------------------------------------------------------------- accounts, step by step

  lemma RegisterSound(db: Db, password: nat, otp: nat, minutes: int)
    requires Sound(db)
    ensures Sound(RegisterStep(db, password, otp, minutes))
  {}

  lemma VerifyEmailSound(db: Db, user: Id, otp: nat, promote: bool)
    requires Sound(db)
    ensures Sound(VerifyEmailStep(db, user, otp, promote))
  {}

  lemma ResendSound(db: Db, user: Id, otp: nat, minutes: int)
    requires Sound(db)
    ensures Sound(ResendStep(db, user, otp, minutes))
  {}

  lemma LoginCheckSound(db: Db, user: Id, password: nat)
    requires Sound(db)
    ensures Sound(LoginCheckStep(db, user, password))
  {}

  lemma LoginCommitSound(db: Db, ticket: Id)
    requires Sound(db)
    ensures Sound(LoginCommitStep(db, ticket))
  {}

  lemma DropSessionSound(db: Db, session: Id)
    requires Sound(db)
    ensures Sound(DropSessionStep(db, session))
  {}

  lemma RequestResetSound(db: Db, user: Id)
    requires Sound(db)
    ensures Sound(RequestResetStep(db, user))
  {}

  /** A new password: the sessions that stay rest on it, no reset token is left. */
  lemma PasswordSet(a: Accounts, a': Accounts, user: Id)
    requires AccountsSound(a) && user in a.users && user in a'.users
    requires a'.users == a.users[user := a.users[user].(password := a'.users[user].password)] && a'.otps == a.otps
    requires forall i :: i in a'.sessions && !a'.sessions[i].revoked ==>
      if a'.sessions[i].user == user
      then Usable(a.users[user]) && a'.sessions[i].basis == a'.users[user].password
      else i in a.sessions && a'.sessions[i] == a.sessions[i]
    requires forall i :: i in a'.resets && ResetUsable(a'.resets[i]) ==>
        i in a.resets && a'.resets[i] == a.resets[i] && a.resets[i].user != user
    requires forall i :: i in a'.resets ==> a'.resets[i].sets == if a'.resets[i].used then 1 else 0
    ensures AccountsSound(a')
  {}

  lemma ConfirmResetSound(db: Db, reset: Id, password: nat)
    requires Sound(db)
    ensures Sound(ConfirmResetStep(db, reset, password))
  {
    var d := ConfirmResetStep(db, reset, password);
    if d != db {
      var user := db.accounts.resets[reset].user;
      PasswordSet(db.accounts, d.accounts, user);
      UserClosed(db.accounts.users, d.accounts.users, db.registry, db.ledger, user);
    }
  }

  lemma CleanResetsSound(db: Db)
    requires Sound(db)
    ensures Sound(CleanResetsStep(db))
  {}

  lemma ChangeCheckSound(db: Db, session: Id, password: nat, replacement: nat)
    requires Sound(db)
    ensures Sound(ChangeCheckStep(db, session, password, replacement))
  {}

  lemma ChangeCommitSound(db: Db, ticket: Id)
    requires Sound(db)
    ensures Sound(ChangeCommitStep(db, ticket))
  {
    if ticket in db.pending.changes && ChangeHolds(db, db.pending.changes[ticket]) {
      var t, d := db.pending.changes[ticket], ChangeCommitStep(db, ticket);
      PasswordSet(db.accounts, d.accounts, t.user);
      UserClosed(db.accounts.users, d.accounts.users, db.registry, db.ledger, t.user);
    }
  }

  // ---------------------------------------------------------------- clients, step by step

  lemma CreateClientSound(db: Db, owner: Id, assignedOnly: bool, redirects: set<nat>)
    requires Sound(db)
    ensures Sound(CreateClientStep(db, owner, assignedOnly, redirects))
  {}

  lemma UpdateClientSound(db: Db, actor: Actor, client: Id, assignedOnly: bool, redirects: set<nat>, provisioned: bool)
    requires Sound(db)
    ensures Sound(UpdateClientStep(db, actor, client, assignedOnly, redirects, provisioned))
  {
    var d := UpdateClientStep(db, actor, client, assignedOnly, redirects, provisioned);
    if d != db {
      UpdatedOwner(db.registry, d.registry, client);
      if db.registry.clients[client].assignedOnly != assignedOnly {
        ClientClosed(db.accounts.users, db.registry, d.registry, db.ledger, db.ledger.consents, client);
      } else {
        RegistryGrows(db.accounts.users, db.registry, d.registry, db.ledger);
        NarrowedSound(db.accounts.users, d.registry, db.ledger, d.ledger);
      }
    }
  }

  lemma UpdatedOwner(r: Registry, r': Registry, client: Id)
    requires OwnersAssigned(r) && ClientLive(r, client) && ClientLive(r', client)
    requires r'.clients == r.clients[client := r'.clients[client]]
        && r'.clients[client].owner == r.clients[client].owner
    requires r'.assignments == if r'.clients[client].assignedOnly
        then r.assignments[Pair(client, r.clients[client].owner) := Assignment(true, false)] else r.assignments
    ensures OwnersAssigned(r')
  {}

  lemma SuspendSound(db: Db, client: Id, suspended: bool)
    requires Sound(db)
    ensures Sound(SuspendStep(db, client, suspended))
  {}

  lemma RegenerateSound(db: Db, actor: Actor, client: Id, expected: Uint64)
    requires Sound(db)
    ensures Sound(RegenerateStep(db, actor, client, expected))
  {}

  lemma DeleteClientSound(db: Db, actor: Actor, client: Id)
    requires Sound(db)
    ensures Sound(DeleteClientStep(db, actor, client))
  {
    var d := DeleteClientStep(db, actor, client);
    if Manages(db, actor, client) {
      ClientClosed(db.accounts.users, db.registry, d.registry, db.ledger, d.ledger.consents, client);
    }
  }

  lemma AssignSound(db: Db, actor: Actor, client: Id, user: Id)
    requires Sound(db)
    ensures Sound(AssignStep(db, actor, client, user))
  {
    var d := AssignStep(db, actor, client, user);
    if Manages(db, actor, client) && CanUse(db, user) {
      PairClosed(db.accounts.users, db.registry, d.registry, db.ledger, Pair(client, user));
    }
  }

  lemma UnassignSound(db: Db, actor: Actor, client: Id, user: Id)
    requires Sound(db)
    ensures Sound(UnassignStep(db, actor, client, user))
  {
    var d := UnassignStep(db, actor, client, user);
    if d != db {
      PairClosed(db.accounts.users, db.registry, d.registry, db.ledger, Pair(client, user));
    }
  }

  // ---------------------------------------------------------------- grants, step by step

  lemma AuthorizeCheckSound(db: Db, session: Id, ask: Ask)
    requires Sound(db)
    ensures Sound(AuthorizeCheckStep(db, session, ask))
  {}

  lemma AuthorizeCommitSound(db: Db, ticket: Id)
    requires Sound(db)
    ensures Sound(AuthorizeCommitStep(db, ticket))
  {}

  lemma PurgeCodesSound(db: Db)
    requires Sound(db)
    ensures Sound(PurgeCodesStep(db))
  {}

  lemma ExchangeSound(db: Db, client: Id, secret: nat, code: Id, redirect: nat, verifier: nat)
    requires Sound(db)
    ensures Sound(ExchangeStep(db, client, secret, code, redirect, verifier))
  {}

  lemma FamilySound(db: Db, family: Id)
    requires Sound(db)
    ensures Sound(db.(ledger := db.ledger.(tokens := RevokeTokens(db.ledger.tokens, OfFamily(family)))))
  {}

  lemma RenewedSound(db: Db, token: Id)
    requires Sound(db) && token in db.ledger.tokens && !db.ledger.tokens[token].revoked
    requires Issuable(db, db.ledger.tokens[token].client, db.ledger.tokens[token].user)
    ensures Sound(Renewed(db, token))
  {}

  lemma RotateSound(db: Db, client: Id, secret: nat, token: Id)
    requires Sound(db)
    ensures Sound(RotateStep(db, client, secret, token))
  {
    if Presentable(db, client, secret, token) {
      var t := db.ledger.tokens[token];
      if t.revoked {
        FamilySound(db, t.family);
      } else if db.clock <= t.refreshExpires && Issuable(db, client, t.user) {
        RenewedSound(db, token);
      }
    }
  }

  lemma RevokeTokenSound(db: Db, client: Id, secret: nat, token: Id)
    requires Sound(db)
    ensures Sound(RevokeTokenStep(db, client, secret, token))
  {}

  lemma DropTokenSound(db: Db, token: Id)
    requires Sound(db)
    ensures Sound(DropTokenStep(db, token))
  {}

  lemma DropUserTokensSound(db: Db, user: Id)
    requires Sound(db)
    ensures Sound(DropUserTokensStep(db, user))
  {}

  lemma DisconnectSound(db: Db, user: Id, client: Id)
    requires Sound(db)
    ensures Sound(DisconnectStep(db, user, client))
  {}

  // ---------------------------------------------------------------- administration, step by step

  lemma SetRoleSound(db: Db, user: Id, super: bool)
    requires Sound(db)
    ensures Sound(SetRoleStep(db, user, super))
  {}

  lemma Deactivated(a: Accounts, user: Id)
    requires AccountsSound(a) && user in a.users
    ensures AccountsSound(Accounts(a.users[user := a.users[user].(active := false)], Without(a.otps, user),
                                   RevokeSessions(a.sessions, user, None), RevokeResets(a.resets, user)))
  {}

  lemma SetStatusSound(db: Db, user: Id, active: bool)
    requires Sound(db)
    ensures Sound(SetStatusStep(db, user, active))
  {
    if user in db.accounts.users {
      var d := SetStatusStep(db, user, active);
      if active {
        UsersGrow(db.accounts.users, d.accounts.users, db.registry, db.ledger);
      } else {
        Deactivated(db.accounts, user);
        UserClosed(db.accounts.users, d.accounts.users, db.registry, db.ledger, user);
      }
    }
  }

  lemma LedgerPurged(users: map<Id, User>, r: Registry, l: Ledger, user: Id)
    requires LedgerSound(users, r, l)
    ensures var owned := OwnedBy(r, user);
            LedgerSound(Without(users, user), PurgeRegistry(r, user, owned), PurgeLedger(l, user, owned))
  {}

  lemma OwnersPurged(r: Registry, user: Id)
    requires OwnersAssigned(r)
    ensures OwnersAssigned(PurgeRegistry(r, user, OwnedBy(r, user)))
  {}

  lemma AccountsPurged(a: Accounts, user: Id)
    requires AccountsSound(a)
    ensures AccountsSound(PurgeAccounts(a, user))
  {}

  lemma DeleteUserSound(db: Db, user: Id)
    requires Sound(db)
    ensures Sound(DeleteUserStep(db, user))
  {
    LedgerPurged(db.accounts.users, db.registry, db.ledger, user);
    OwnersPurged(db.registry, user);
    AccountsPurged(db.accounts, user);
  }

  // ---------------------------------------------------------------- every step

  lemma AccountSound(db: Db, e: AccountEvent)
    requires Sound(db)
    ensures Sound(AccountStep(db, e))
  {
    match e
    case Register(password, otp, minutes) => RegisterSound(db, password, otp, minutes);
    case VerifyEmail(user, otp, promote) => VerifyEmailSound(db, user, otp, promote);
    case Resend(user, otp, minutes) => ResendSound(db, user, otp, minutes);
    case LoginCheck(user, password) => LoginCheckSound(db, user, password);
    case LoginCommit(ticket) => LoginCommitSound(db, ticket);
    case DropSession(session) => DropSessionSound(db, session);
    case RequestReset(user) => RequestResetSound(db, user);
    case ConfirmReset(reset, password) => ConfirmResetSound(db, reset, password);
    case CleanResets => CleanResetsSound(db);
    case ChangeCheck(session, password, replacement) => ChangeCheckSound(db, session, password, replacement);
    case ChangeCommit(ticket) => ChangeCommitSound(db, ticket);
  }

  lemma ClientSound(db: Db, e: ClientEvent)
    requires Sound(db)
    ensures Sound(ClientStep(db, e))
  {
    match e
    case CreateClient(owner, assignedOnly, redirects) => CreateClientSound(db, owner, assignedOnly, redirects);
    case UpdateClient(actor, client, assignedOnly, redirects, provisioned) =>
      UpdateClientSound(db, actor, client, assignedOnly, redirects, provisioned);
    case Suspend(client, suspended) => SuspendSound(db, client, suspended);
    case Regenerate(actor, client, expected) => RegenerateSound(db, actor, client, expected);
    case DeleteClient(actor, client) => DeleteClientSound(db, actor, client);
    case Assign(actor, client, user) => AssignSound(db, actor, client, user);
    case Unassign(actor, client, user) => UnassignSound(db, actor, client, user);
  }

  lemma GrantSound(db: Db, e: GrantEvent)
    requires Sound(db)
    ensures Sound(GrantStep(db, e))
  {
    match e
    case AuthorizeCheck(session, ask) => AuthorizeCheckSound(db, session, ask);
    case AuthorizeCommit(ticket) => AuthorizeCommitSound(db, ticket);
    case PurgeCodes => PurgeCodesSound(db);
    case Exchange(client, secret, code, redirect, verifier) => ExchangeSound(db, client, secret, code, redirect,
        verifier);
    case Rotate(client, secret, token) => RotateSound(db, client, secret, token);
    case RevokeToken(client, secret, token) => RevokeTokenSound(db, client, secret, token);
    case DropToken(token) => DropTokenSound(db, token);
    case DropUserTokens(user) => DropUserTokensSound(db, user);
    case Disconnect(user, client) => DisconnectSound(db, user, client);
  }

  lemma AdminSound(db: Db, e: AdminEvent)
    requires Sound(db)
    ensures Sound(AdminStep(db, e))
  {
    match e
    case SetRole(user, super) => SetRoleSound(db, user, super);
    case SetStatus(user, active) => SetStatusSound(db, user, active);
    case DeleteUser(user) => DeleteUserSound(db, user);
  }

  lemma PassSound(db: Db, duration: nat)
    requires Sound(db)
    ensures Sound(db.(clock := db.clock + duration))
  {}

  lemma StepSound(db: Db, e: Event)
    requires Sound(db)
    ensures Sound(Step(db, e))
  {
    match e
    case Pass(duration) => PassSound(db, duration);
    case Account(account) => AccountSound(db, account);
    case Manage(manage) => ClientSound(db, manage);
    case Grant(grant) => GrantSound(db, grant);
    case Admin(admin) => AdminSound(db, admin);
  }
}
