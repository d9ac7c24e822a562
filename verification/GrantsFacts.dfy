/** What each handler of the grant store demands and does, written out in the columns it reads and writes:
    exactly when it takes effect, what it leaves behind, and that every other row stays as it is.  Nothing
    here is stated through the predicates that the handlers themselves are built from. */
module GrantsFacts {
  import opened Options
  import opened Instants
  import opened Grants

  // ---------------------------------------------------------------- what stays

  /** The user's tokens are revoked and its codes gone; nothing else of the ledger changes. */
  ghost predicate ClosesUser(l: Ledger, l': Ledger, user: Id) {
    && l'.consents == l.consents && l'.tokens.Keys == l.tokens.Keys
    && (forall i :: i in l.tokens ==>
          l'.tokens[i] == l.tokens[i].(revoked := l.tokens[i].revoked || l.tokens[i].user == user))
    && (forall i :: i in l'.codes <==> i in l.codes && l.codes[i].user != user)
    && (forall i :: i in l'.codes ==> l'.codes[i] == l.codes[i])
  }

  ghost predicate ClosesClient(l: Ledger, l': Ledger, client: Id) {
    && l'.tokens.Keys == l.tokens.Keys
    && (forall i :: i in l.tokens ==>
          l'.tokens[i] == l.tokens[i].(revoked := l.tokens[i].revoked || l.tokens[i].client == client))
    && (forall i :: i in l'.codes <==> i in l.codes && l.codes[i].client != client)
    && (forall i :: i in l'.codes ==> l'.codes[i] == l.codes[i])
  }

  /** The pair's tokens and consent are revoked, its codes gone. */
  ghost predicate ClosesPair(l: Ledger, l': Ledger, client: Id, user: Id) {
    && l'.tokens.Keys == l.tokens.Keys && l'.consents.Keys == l.consents.Keys
    && (forall i :: i in l.tokens ==>
          var hit := l.tokens[i].client == client && l.tokens[i].user == user;
          l'.tokens[i] == l.tokens[i].(revoked := l.tokens[i].revoked || hit))
    && (forall i :: i in l'.codes <==> i in l.codes && !(l.codes[i].client == client && l.codes[i].user == user))
    && (forall i :: i in l'.codes ==> l'.codes[i] == l.codes[i])
    && (forall p :: p in l.consents ==>
          var hit := p.client == client && p.user == user;
          l'.consents[p] == l.consents[p].(revoked := l.consents[p].revoked || hit))
  }

  /** Rows of other users stay. */
  ghost predicate OthersKept(a: Accounts, a': Accounts, user: Id) {
    && (forall u :: u != user ==> (u in a'.users <==> u in a.users) && (u in a'.otps <==> u in a.otps))
    && (forall u :: u != user && u in a.users ==> a'.users[u] == a.users[u])
    && (forall u :: u != user && u in a.otps ==> a'.otps[u] == a.otps[u])
    && (forall i :: i in a.sessions && a.sessions[i].user != user ==>
          i in a'.sessions && a'.sessions[i] == a.sessions[i])
    && (forall i :: i in a.resets && a.resets[i].user != user ==> i in a'.resets && a'.resets[i] == a.resets[i])
  }

  // ---------------------------------------------------------------- accounts

  /** A registration adds one active, unverified, ordinary member with an uncounted code; the configured
      lifetime counts only between five and thirty minutes. */
  lemma RegisterExactly(db: Db, password: nat, otp: nat, minutes: int)
    ensures var d, u := RegisterStep(db, password, otp, minutes), db.next;
            && d.next == u + 1 && u in d.accounts.users && u in d.accounts.otps
            && d.accounts.users[u].password.plain == password && d.accounts.users[u].active
            && !d.accounts.users[u].verified && !d.accounts.users[u].super
            && d.accounts.otps[u].code == otp && d.accounts.otps[u].attempts == 0
            && d.accounts.otps[u].expires == db.clock + (if minutes < 5 || minutes > 30 then 10 else minutes) * MINUTE
            && OthersKept(db.accounts, d.accounts, u) && d.ledger == db.ledger && d.registry == db.registry
  {}

  /** The code counts for an active unverified account with a record that has not expired and has fewer than
      five wrong attempts. */
  predicate CodeAccepted(db: Db, user: Id, otp: nat) {
    && user in db.accounts.users && db.accounts.users[user].active && !db.accounts.users[user].verified
    && user in db.accounts.otps && db.clock < db.accounts.otps[user].expires
    && db.accounts.otps[user].attempts < 5 && otp == db.accounts.otps[user].code
  }

  lemma VerifyEmailExactly(db: Db, user: Id, otp: nat, promote: bool)
    ensures var d := VerifyEmailStep(db, user, otp, promote);
            && OthersKept(db.accounts, d.accounts, user)
            && d.accounts.sessions == db.accounts.sessions && d.accounts.resets == db.accounts.resets
            && d.ledger == db.ledger && d.registry == db.registry && d.next == db.next
            && (CodeAccepted(db, user, otp) ==>
                  && user !in d.accounts.otps && user in d.accounts.users
                  && d.accounts.users[user] == db.accounts.users[user].(verified := true,
                       super := promote || db.accounts.users[user].super))
            && (!CodeAccepted(db, user, otp) ==> d.accounts.users == db.accounts.users)
    ensures var d := VerifyEmailStep(db, user, otp, promote);
            user in db.accounts.otps && user in db.accounts.users && db.accounts.users[user].active
            && !db.accounts.users[user].verified && !CodeAccepted(db, user, otp) ==>
              var record := db.accounts.otps[user];
              && (user !in d.accounts.otps <==> db.clock >= record.expires || record.attempts + 1 >= 5)
              && (user in d.accounts.otps ==> d.accounts.otps[user] == record.(attempts := record.attempts + 1))
  {}

  /** A new code is stored exactly for an active unverified account whose last one is a minute old. */
  lemma ResendExactly(db: Db, user: Id, otp: nat, minutes: int)
    ensures var d := ResendStep(db, user, otp, minutes);
            var sent := user in db.accounts.users && db.accounts.users[user].active && !db.accounts.users[user].verified
              && (user in db.accounts.otps ==> db.clock >= db.accounts.otps[user].lastSent + 60 * SECOND);
            && (!sent ==> d == db)
            && (sent ==>
                  && OthersKept(db.accounts, d.accounts, user) && d.accounts.users == db.accounts.users
                  && user in d.accounts.otps && d.accounts.otps[user].code == otp && d.accounts.otps[user].attempts == 0
                  && d.accounts.otps[user].lastSent == db.clock
                  && d.accounts.otps[user].expires
                     == db.clock + (if minutes < 5 || minutes > 30 then 10 else minutes) * MINUTE)
  {}

  lemma LoginCheckExactly(db: Db, user: Id, password: nat)
    ensures var d := LoginCheckStep(db, user, password);
            && (d.next > db.next <==>
                  && user in db.accounts.users && db.accounts.users[user].active && db.accounts.users[user].verified
                  && db.accounts.users[user].password.plain == password)
            && d.accounts == db.accounts && d.ledger == db.ledger
            && (d.next > db.next ==>
                  && db.next in d.pending.logins && d.pending.logins[db.next].user == user
                  && d.pending.logins[db.next].hash == db.accounts.users[user].password
                  && d.pending.logins[db.next].expires == db.clock + 24 * HOUR)
            && (d.next == db.next ==> d == db)
  {}

  /** Login's transaction makes a session exactly if the account is still active and verified and its hash is
      the very one that was checked. */
  lemma LoginCommitExactly(db: Db, ticket: Id)
    requires ticket in db.pending.logins && ticket < db.next && forall i :: i in db.accounts.sessions ==> i < db.next
    ensures var d, t := LoginCommitStep(db, ticket), db.pending.logins[ticket];
            && (db.next in d.accounts.sessions <==>
                  && t.user in db.accounts.users && db.accounts.users[t.user].active
                  && db.accounts.users[t.user].verified
                  && db.accounts.users[t.user].password == t.hash)
            && d.accounts.users == db.accounts.users && d.ledger == db.ledger && ticket !in d.pending.logins
            && (forall i :: i in d.accounts.sessions && i != db.next ==>
                  i in db.accounts.sessions && d.accounts.sessions[i] == db.accounts.sessions[i])
            && (db.next in d.accounts.sessions ==>
                  && d.accounts.sessions[db.next].user == t.user && !d.accounts.sessions[db.next].revoked
                  && d.accounts.sessions[db.next].expires == t.expires)
  {}

  /** A session signs its user in. */
  lemma SignedInExactly(db: Db, session: Id)
    ensures SignedIn(db, session) <==>
            && session in db.accounts.sessions && !db.accounts.sessions[session].revoked
            && db.accounts.sessions[session].expires > db.clock
            && db.accounts.sessions[session].user in db.accounts.users
            && db.accounts.users[db.accounts.sessions[session].user].active
            && db.accounts.users[db.accounts.sessions[session].user].verified
  {}

  lemma ChangeCheckExactly(db: Db, session: Id, password: nat, replacement: nat)
    ensures var d := ChangeCheckStep(db, session, password, replacement);
            && (d.next > db.next <==>
                  && session in db.accounts.sessions && !db.accounts.sessions[session].revoked
                  && db.accounts.sessions[session].expires > db.clock
                  && var user := db.accounts.sessions[session].user;
                     && user in db.accounts.users && db.accounts.users[user].active && db.accounts.users[user].verified
                     && db.accounts.users[user].password.plain == password && password != replacement)
            && (d.next == db.next ==> d == db) && d.accounts == db.accounts
  {}

  lemma ChangeCommitExactly(db: Db, ticket: Id)
    requires ticket in db.pending.changes
    ensures var d, t := ChangeCommitStep(db, ticket), db.pending.changes[ticket];
            && ticket !in d.pending.changes && OthersKept(db.accounts, d.accounts, t.user)
            && (d.next > db.next <==>
                  && t.user in db.accounts.users && db.accounts.users[t.user].password == t.hash
                  && db.accounts.users[t.user].active && t.session in db.accounts.sessions
                  && db.accounts.sessions[t.session].user == t.user && !db.accounts.sessions[t.session].revoked
                  && db.accounts.sessions[t.session].expires > db.clock)
            && (d.next == db.next ==> d.accounts == db.accounts && d.ledger == db.ledger)
            && (d.next > db.next ==>
                  && ClosesUser(db.ledger, d.ledger, t.user)
                  && d.accounts.users[t.user].password.plain == t.password
                  && d.accounts.users[t.user]
                      == db.accounts.users[t.user].(password := d.accounts.users[t.user].password)
                  && (forall i :: i in db.accounts.sessions && db.accounts.sessions[i].user == t.user ==>
                        i in d.accounts.sessions
                        && d.accounts.sessions[i].revoked == (db.accounts.sessions[i].revoked || i != t.session)))
  {}

  // ---------------------------------------------------------------- password reset

  /** A reset link is made exactly for an active verified account that has none from the last minute and fewer
      than five from the last hour; it closes the older ones. */
  lemma RequestResetExactly(db: Db, user: Id)
    ensures var d := RequestResetStep(db, user);
            && (d.next > db.next <==>
                  && user in db.accounts.users && db.accounts.users[user].active && db.accounts.users[user].verified
                  && (forall r :: r in db.accounts.resets && db.accounts.resets[r].user == user ==>
                        db.accounts.resets[r].created + 60 * SECOND <= db.clock)
                  && |set r | r in db.accounts.resets && db.accounts.resets[r].user == user
                        && db.accounts.resets[r].created > db.clock - 3600 * SECOND| < 5)
            && (d.next == db.next ==> d == db)
            && (d.next > db.next ==>
                  && db.next in d.accounts.resets && d.accounts.resets[db.next].user == user
                  && d.accounts.resets[db.next].created == db.clock
                  && !d.accounts.resets[db.next].used && !d.accounts.resets[db.next].revoked
                  && d.accounts.users == db.accounts.users && d.accounts.sessions == db.accounts.sessions
                  && d.ledger == db.ledger
                  && forall r :: r in db.accounts.resets && r != db.next ==>
                       && r in d.accounts.resets
                       && (db.accounts.resets[r].user == user && !db.accounts.resets[r].used ==>
                             d.accounts.resets[r].revoked)
                       && (db.accounts.resets[r].user != user || db.accounts.resets[r].used ==>
                             d.accounts.resets[r] == db.accounts.resets[r]))
  {
    var recent := set r | r in db.accounts.resets && db.accounts.resets[r].user == user
                      && db.accounts.resets[r].created > db.clock - 3600 * SECOND;
    assert recent == Created(db.accounts.resets, user, db.clock - HOUR);
    assert Created(db.accounts.resets, user, db.clock - MINUTE) == {} <==>
           forall r :: r in db.accounts.resets && db.accounts.resets[r].user == user ==>
             db.accounts.resets[r].created + 60 * SECOND <= db.clock by {
      if r :| r in db.accounts.resets && db.accounts.resets[r].user == user
              && db.accounts.resets[r].created + 60 * SECOND > db.clock {
        assert r in Created(db.accounts.resets, user, db.clock - MINUTE);
      }
    }
  }

  /** The link works: unused, unrevoked, younger than fifteen minutes, for an active verified account whose
      password it really changes. */
  predicate LinkAccepted(db: Db, reset: Id, password: nat) {
    && reset in db.accounts.resets && !db.accounts.resets[reset].used && !db.accounts.resets[reset].revoked
    && db.clock < db.accounts.resets[reset].created + 15 * MINUTE
    && db.accounts.resets[reset].user in db.accounts.users
    && db.accounts.users[db.accounts.resets[reset].user].active
    && db.accounts.users[db.accounts.resets[reset].user].verified
    && db.accounts.users[db.accounts.resets[reset].user].password.plain != password
  }

  lemma ConfirmResetExactly(db: Db, reset: Id, password: nat)
    ensures var d := ConfirmResetStep(db, reset, password);
            && (!LinkAccepted(db, reset, password) ==> d == db)
            && (LinkAccepted(db, reset, password) ==>
                  var user := db.accounts.resets[reset].user;
                  && d.next > db.next && OthersKept(db.accounts, d.accounts, user)
                  && ClosesUser(db.ledger, d.ledger, user)
                  && d.accounts.users[user].password.plain == password
                  && d.accounts.users[user] == db.accounts.users[user].(password := d.accounts.users[user].password)
                  && reset in d.accounts.resets && d.accounts.resets[reset].used
                  && (forall i :: i in d.accounts.sessions && d.accounts.sessions[i].user == user ==>
                        d.accounts.sessions[i].revoked)
                  && (forall r :: r in db.accounts.resets && r != reset && db.accounts.resets[r].user == user ==>
                        r in d.accounts.resets && (d.accounts.resets[r].revoked || d.accounts.resets[r].used)))
  {}

  lemma CleanResetsExactly(db: Db, reset: Id)
    ensures var d := CleanResetsStep(db);
            && (reset in d.accounts.resets <==>
                  reset in db.accounts.resets && db.accounts.resets[reset].created + 15 * MINUTE >= db.clock - 7 * DAY)
            && (reset in d.accounts.resets ==> d.accounts.resets[reset] == db.accounts.resets[reset])
            && d.accounts.users == db.accounts.users && d.accounts.sessions == db.accounts.sessions
            && d.ledger == db.ledger
  {}

  // ---------------------------------------------------------------- clients and assignments

  /** The actor is a super admin or owns the client, which is not deleted. */
  predicate MayManage(db: Db, actor: Actor, client: Id) {
    && client in db.registry.clients && !db.registry.clients[client].deleted
    && (actor.super || db.registry.clients[client].owner == actor.id)
  }

  /** For everybody else the five management handlers change nothing. */
  lemma OnlyManagersChange(db: Db, actor: Actor, client: Id, assignedOnly: bool, redirects: set<nat>,
      provisioned: bool, expected: Uint64, user: Id)
    requires !MayManage(db, actor, client)
    ensures UpdateClientStep(db, actor, client, assignedOnly, redirects, provisioned) == db
    ensures RegenerateStep(db, actor, client, expected) == db
    ensures DeleteClientStep(db, actor, client) == db
    ensures AssignStep(db, actor, client, user) == db && UnassignStep(db, actor, client, user) == db
  {}

  lemma CreateClientExactly(db: Db, owner: Id, assignedOnly: bool, redirects: set<nat>)
    ensures var d, c := CreateClientStep(db, owner, assignedOnly, redirects), db.next;
            && (owner !in db.accounts.users ==> d == db)
            && (owner in db.accounts.users ==>
                  && c in d.registry.clients && d.registry.clients[c].owner == owner
                  && d.registry.clients[c].assignedOnly == assignedOnly && d.registry.clients[c].redirects == redirects
                  && !d.registry.clients[c].deleted && !d.registry.clients[c].suspended
                  && d.registry.clients[c].version == 1
                  && Pair(c, owner) in d.registry.assignments && d.registry.assignments[Pair(c, owner)].active
                  && !d.registry.assignments[Pair(c, owner)].deleted
                  && (forall k :: k in db.registry.clients && k != c ==>
                        k in d.registry.clients && d.registry.clients[k] == db.registry.clients[k])
                  && (forall p :: p in db.registry.assignments && p != Pair(c, owner) ==>
                        p in d.registry.assignments && d.registry.assignments[p] == db.registry.assignments[p])
                  && d.ledger == db.ledger && d.accounts == db.accounts)
  {}

  /** The update is refused for an open policy on a provisioned client, and for a soft-deleted assignment of
      the owner when the client is to be closed. */
  lemma UpdateClientExactly(db: Db, actor: Actor, client: Id, assignedOnly: bool, redirects: set<nat>,
      provisioned: bool)
    requires MayManage(db, actor, client)
    ensures var d, c := UpdateClientStep(db, actor, client, assignedOnly, redirects, provisioned),
              db.registry.clients[client];
            var p := Pair(client, c.owner);
            var refused := (!assignedOnly && provisioned)
              || (assignedOnly && p in db.registry.assignments && db.registry.assignments[p].deleted);
            && (refused ==> d == db)
            && (!refused ==>
                  && client in d.registry.clients
                  && d.registry.clients[client] == c.(assignedOnly := assignedOnly, redirects := redirects)
                  && (assignedOnly ==>
                        p in d.registry.assignments && d.registry.assignments[p].active
                        && !d.registry.assignments[p].deleted)
                  && (forall k :: k in db.registry.clients && k != client ==>
                        k in d.registry.clients && d.registry.clients[k] == db.registry.clients[k])
                  && (forall q :: q in db.registry.assignments && (q != p || !assignedOnly) ==>
                        q in d.registry.assignments && d.registry.assignments[q] == db.registry.assignments[q])
                  && d.accounts == db.accounts && d.ledger.consents == db.ledger.consents
                  && (c.assignedOnly != assignedOnly ==> ClosesClient(db.ledger, d.ledger, client))
                  && (c.assignedOnly == assignedOnly ==> d.ledger.tokens == db.ledger.tokens)
                  && (forall i :: i in d.ledger.codes <==> i in db.ledger.codes && db.ledger.codes[i].client != client)
                  && (forall i :: i in d.ledger.codes ==> d.ledger.codes[i] == db.ledger.codes[i]))
  {}

  /** The secret changes exactly for the present version (an unset one counts as 1), short of overflow. */
  lemma RegenerateExactly(db: Db, actor: Actor, client: Id, expected: Uint64)
    requires MayManage(db, actor, client)
    ensures var d, c := RegenerateStep(db, actor, client, expected), db.registry.clients[client];
            var version := if c.version == 0 then 1 else c.version;
            var accepted := expected == version && version < 0xFFFF_FFFF_FFFF_FFFF;
            && (!accepted ==> d == db)
            && (accepted ==>
                  && client in d.registry.clients && d.registry.clients[client].version == version + 1
                  && d.registry.clients[client].secret.salt == db.next
                  && d.registry.clients[client]
                     == c.(version := version + 1, secret := d.registry.clients[client].secret)
                  && ClosesClient(db.ledger, d.ledger, client) && d.ledger.consents == db.ledger.consents
                  && d.accounts == db.accounts && d.registry.assignments == db.registry.assignments
                  && (forall k :: k in db.registry.clients && k != client ==>
                        k in d.registry.clients && d.registry.clients[k] == db.registry.clients[k]))
  {}

  lemma DeleteClientExactly(db: Db, actor: Actor, client: Id)
    requires MayManage(db, actor, client)
    ensures var d := DeleteClientStep(db, actor, client);
            && ClosesClient(db.ledger, d.ledger, client) && d.accounts == db.accounts
            && client in d.registry.clients && d.registry.clients[client].deleted
            && (forall p :: p in d.ledger.consents <==> p in db.ledger.consents && p.client != client)
            && (forall p :: p in d.ledger.consents ==> d.ledger.consents[p] == db.ledger.consents[p])
            && (forall k :: k in db.registry.clients && k != client ==>
                  k in d.registry.clients && d.registry.clients[k] == db.registry.clients[k])
            && (forall p :: p in db.registry.assignments ==>
                  p in d.registry.assignments && d.registry.assignments[p]
                    == db.registry.assignments[p].(deleted := db.registry.assignments[p].deleted || p.client == client))
  {}

  lemma AssignExactly(db: Db, actor: Actor, client: Id, user: Id)
    requires MayManage(db, actor, client)
    ensures var d, p := AssignStep(db, actor, client, user), Pair(client, user);
            var usable :=
              && user in db.accounts.users
              && db.accounts.users[user].active && db.accounts.users[user].verified;
            && (!usable ==> d == db)
            && (usable ==>
                  && p in d.registry.assignments && d.registry.assignments[p].active
                  && !d.registry.assignments[p].deleted
                  && ClosesPair(db.ledger, d.ledger, client, user) && d.registry.clients == db.registry.clients
                  && d.accounts == db.accounts
                  && (forall q :: q in db.registry.assignments && q != p ==>
                        q in d.registry.assignments && d.registry.assignments[q] == db.registry.assignments[q]))
  {}

  lemma UnassignExactly(db: Db, actor: Actor, client: Id, user: Id)
    requires MayManage(db, actor, client)
    ensures var d, p := UnassignStep(db, actor, client, user), Pair(client, user);
            var removable := p in db.registry.assignments && !db.registry.assignments[p].deleted
              && !(db.registry.clients[client].assignedOnly && db.registry.clients[client].owner == user);
            && (!removable ==> d == db)
            && (removable ==>
                  && p in d.registry.assignments && d.registry.assignments[p].deleted
                  && ClosesPair(db.ledger, d.ledger, client, user) && d.registry.clients == db.registry.clients
                  && d.accounts == db.accounts
                  && (forall q :: q in db.registry.assignments && q != p ==>
                        q in d.registry.assignments && d.registry.assignments[q] == db.registry.assignments[q]))
  {}

  // ---------------------------------------------------------------- authorization

  /** The client admits the user: open to all, or the user's assignment is active and not deleted. */
  predicate AdmittedTo(db: Db, client: Id, user: Id) {
    && client in db.registry.clients && !db.registry.clients[client].deleted && !db.registry.clients[client].suspended
    && (db.registry.clients[client].assignedOnly ==>
          && Pair(client, user) in db.registry.assignments && db.registry.assignments[Pair(client, user)].active
          && !db.registry.assignments[Pair(client, user)].deleted)
  }

  /** An authorization passes its checks exactly for a signed-in user the client admits, with a registered
      redirect URI, a non-empty scope among the three supported, a nonce if it asks for openid, and either a
      live stored consent for the scope, or the user's approval in a request that may ask for it. */
  predicate Askable(db: Db, session: Id, ask: Ask) {
    && session in db.accounts.sessions && !db.accounts.sessions[session].revoked
    && db.accounts.sessions[session].expires > db.clock
    && var user := db.accounts.sessions[session].user;
       && user in db.accounts.users && db.accounts.users[user].active && db.accounts.users[user].verified
       && AdmittedTo(db, ask.client, user) && ask.redirect in db.registry.clients[ask.client].redirects
       && ask.scope != {} && ask.scope <= {"openid", "profile", "email"}
       && ("openid" in ask.scope ==> ask.nonce)
       && ((Pair(ask.client, user) in db.ledger.consents
             && !db.ledger.consents[Pair(ask.client, user)].revoked
             && ask.scope <= db.ledger.consents[Pair(ask.client, user)].scope)
           || (ask.approved && !ask.silent))
  }

  lemma AuthorizeCheckExactly(db: Db, session: Id, ask: Ask)
    ensures var d := AuthorizeCheckStep(db, session, ask);
            && (d.next > db.next <==> Askable(db, session, ask))
            && (d.next == db.next ==> d == db)
            && d.accounts == db.accounts && d.ledger == db.ledger && d.registry == db.registry
            && (d.next > db.next ==>
                  && db.next in d.pending.approvals
                  && d.pending.approvals[db.next].code.client == ask.client
                  && d.pending.approvals[db.next].code.user == db.accounts.sessions[session].user
                  && d.pending.approvals[db.next].code.redirect == ask.redirect
                  && d.pending.approvals[db.next].code.challenge == ask.challenge
                  && d.pending.approvals[db.next].code.scope == ask.scope
                  && d.pending.approvals[db.next].code.expires == db.clock + 300 * SECOND)
  {}

  /** The transaction stores the code, and the consent with the union of the scopes, exactly if account,
      session and client row are still there. */
  lemma AuthorizeCommitExactly(db: Db, ticket: Id)
    requires ticket in db.pending.approvals
    ensures var d, t := AuthorizeCommitStep(db, ticket), db.pending.approvals[ticket];
            var user, p := t.code.user, Pair(t.code.client, t.code.user);
            && d.accounts == db.accounts && d.registry == db.registry && d.ledger.tokens == db.ledger.tokens
            && ticket !in d.pending.approvals
            && (d.next > db.next <==>
                  && user in db.accounts.users && db.accounts.users[user].active && db.accounts.users[user].verified
                  && t.session in db.accounts.sessions && db.accounts.sessions[t.session].user == user
                  && !db.accounts.sessions[t.session].revoked && db.accounts.sessions[t.session].expires > db.clock
                  && t.code.client in db.registry.clients)
            && (d.next == db.next ==> d.ledger == db.ledger)
            && (d.next > db.next ==>
                  && db.next in d.ledger.codes && d.ledger.codes[db.next].client == t.code.client
                  && d.ledger.codes[db.next].user == user && d.ledger.codes[db.next].scope == t.code.scope
                  && d.ledger.codes[db.next].redirect == t.code.redirect
                  && d.ledger.codes[db.next].challenge == t.code.challenge
                  && d.ledger.codes[db.next].expires == t.code.expires
                  && p in d.ledger.consents && !d.ledger.consents[p].revoked
                  && (forall s :: s in d.ledger.consents[p].scope <==>
                        s in t.code.scope || (p in db.ledger.consents && s in db.ledger.consents[p].scope))
                  && (forall i :: i in db.ledger.codes && i != db.next ==>
                        i in d.ledger.codes && d.ledger.codes[i] == db.ledger.codes[i])
                  && (forall q :: q in db.ledger.consents && q != p ==>
                        q in d.ledger.consents && d.ledger.consents[q] == db.ledger.consents[q]))
  {}

  lemma PurgeCodesExactly(db: Db, code: Id)
    ensures var d := PurgeCodesStep(db);
            && (code in d.ledger.codes <==> code in db.ledger.codes && db.ledger.codes[code].expires > db.clock)
            && (code in d.ledger.codes ==> d.ledger.codes[code] == db.ledger.codes[code])
            && d == db.(ledger := db.ledger.(codes := d.ledger.codes))
  {}

  // ---------------------------------------------------------------- tokens

  /** The client exists, is neither deleted nor suspended, and this is its secret. */
  predicate KnowsSecret(db: Db, client: Id, secret: nat) {
    && client in db.registry.clients && !db.registry.clients[client].deleted && !db.registry.clients[client].suspended
    && db.registry.clients[client].secret.plain == secret
  }

  /** Without the client's secret the token endpoints change nothing. */
  lemma WrongSecretChangesNothing(db: Db, client: Id, secret: nat, code: Id, redirect: nat, verifier: nat, token: Id)
    requires client in db.registry.clients ==>
               || db.registry.clients[client].secret.plain != secret
               || db.registry.clients[client].deleted || db.registry.clients[client].suspended
    ensures ExchangeStep(db, client, secret, code, redirect, verifier) == db
    ensures RotateStep(db, client, secret, token) == db && RevokeTokenStep(db, client, secret, token) == db
  {}

  predicate Exchangeable(db: Db, client: Id, secret: nat, code: Id, redirect: nat, verifier: nat) {
    && KnowsSecret(db, client, secret)
    && code in db.ledger.codes && db.ledger.codes[code].client == client && db.clock <= db.ledger.codes[code].expires
    && db.ledger.codes[code].redirect == redirect && db.ledger.codes[code].challenge == verifier
    && db.ledger.codes[code].user in db.accounts.users && db.accounts.users[db.ledger.codes[code].user].active
    && db.accounts.users[db.ledger.codes[code].user].verified && AdmittedTo(db, client, db.ledger.codes[code].user)
  }

  lemma ExchangeExactly(db: Db, client: Id, secret: nat, code: Id, redirect: nat, verifier: nat)
    ensures var d, token := ExchangeStep(db, client, secret, code, redirect, verifier), db.next + 1;
            && (!Exchangeable(db, client, secret, code, redirect, verifier) ==> d == db)
            && (Exchangeable(db, client, secret, code, redirect, verifier) ==>
                  && d.next > db.next && d.accounts == db.accounts && d.registry == db.registry
                  && d.ledger.consents == db.ledger.consents && token in d.ledger.tokens
                  && !d.ledger.tokens[token].revoked && d.ledger.tokens[token].client == client
                  && d.ledger.tokens[token].user == db.ledger.codes[code].user
                  && d.ledger.tokens[token].scope == db.ledger.codes[code].scope
                  && d.ledger.tokens[token].refreshExpires == db.clock + 30 * DAY
                  && (forall i :: i in d.ledger.codes <==> i in db.ledger.codes && i != code)
                  && (forall i :: i in d.ledger.codes ==> d.ledger.codes[i] == db.ledger.codes[i])
                  && (forall i :: i in db.ledger.tokens && i != token ==>
                        i in d.ledger.tokens && d.ledger.tokens[i] == db.ledger.tokens[i]))
  {}

  predicate OwnToken(db: Db, client: Id, secret: nat, token: Id) {
    KnowsSecret(db, client, secret) && token in db.ledger.tokens && db.ledger.tokens[token].client == client
  }

  /** A refresh token of the client: revoked before, it takes its family with it; unexpired and with account
      and access intact, it is replaced; otherwise nothing happens. */
  lemma RotateExactly(db: Db, client: Id, secret: nat, token: Id)
    requires OwnToken(db, client, secret, token) && db.ledger.tokens[token].user in db.accounts.users
    ensures var d, t := RotateStep(db, client, secret, token), db.ledger.tokens[token];
            var allowed := db.clock <= t.refreshExpires && db.accounts.users[t.user].active
              && db.accounts.users[t.user].verified && AdmittedTo(db, client, t.user);
            && d.accounts == db.accounts && d.registry == db.registry && d.ledger.codes == db.ledger.codes
            && d.ledger.consents == db.ledger.consents
            && (t.revoked ==>
                  && d.ledger.tokens.Keys == db.ledger.tokens.Keys
                  && forall i :: i in db.ledger.tokens ==>
                       var hit := db.ledger.tokens[i].family == t.family;
                       d.ledger.tokens[i] == db.ledger.tokens[i].(revoked := db.ledger.tokens[i].revoked || hit))
            && (!t.revoked && !allowed ==> d == db)
            && (!t.revoked && allowed && db.next !in db.ledger.tokens ==>
                  && d.ledger.tokens.Keys == db.ledger.tokens.Keys + {db.next}
                  && d.ledger.tokens[token] == t.(revoked := true) && !d.ledger.tokens[db.next].revoked
                  && d.ledger.tokens[db.next].family == t.family && d.ledger.tokens[db.next].client == client
                  && d.ledger.tokens[db.next].user == t.user && d.ledger.tokens[db.next].scope == t.scope
                  && d.ledger.tokens[db.next].refreshExpires == db.clock + 30 * DAY
                  && forall i :: i in db.ledger.tokens && i != token ==> d.ledger.tokens[i] == db.ledger.tokens[i])
  {}

  lemma RevokeExactly(db: Db, client: Id, secret: nat, token: Id)
    ensures var d := RevokeTokenStep(db, client, secret, token);
            && (!OwnToken(db, client, secret, token) ==> d == db)
            && (OwnToken(db, client, secret, token) ==>
                  var t := db.ledger.tokens[token];
                  && d == db.(ledger := db.ledger.(tokens := d.ledger.tokens))
                  && d.ledger.tokens.Keys == db.ledger.tokens.Keys
                  && forall i :: i in db.ledger.tokens ==>
                       var hit := db.ledger.tokens[i].family == t.family && db.ledger.tokens[i].client == client
                         && db.ledger.tokens[i].user == t.user;
                       d.ledger.tokens[i] == db.ledger.tokens[i].(revoked := db.ledger.tokens[i].revoked || hit))
  {}

  /** The middleware lets an access token through. */
  lemma PassesExactly(db: Db, token: Id)
    ensures Passes(db, token) <==>
            && token in db.ledger.tokens && !db.ledger.tokens[token].revoked
            && db.ledger.tokens[token].user in db.accounts.users
            && db.accounts.users[db.ledger.tokens[token].user].active
            && db.accounts.users[db.ledger.tokens[token].user].verified
            && AdmittedTo(db, db.ledger.tokens[token].client, db.ledger.tokens[token].user)
  {}

  lemma DisconnectExactly(db: Db, user: Id, client: Id)
    ensures var d := DisconnectStep(db, user, client);
            var found := exists i ::
                           i in db.ledger.tokens && db.ledger.tokens[i].client == client
                           && db.ledger.tokens[i].user == user && !db.ledger.tokens[i].revoked;
            && (!found ==> d == db)
            && (found ==> ClosesPair(db.ledger, d.ledger, client, user) && d == db.(ledger := d.ledger))
  {}

  // ---------------------------------------------------------------- administration

  lemma SetRoleExactly(db: Db, user: Id, super: bool)
    ensures var d := SetRoleStep(db, user, super);
            && (user !in db.accounts.users ==> d == db)
            && (user in db.accounts.users ==>
                  && user in d.accounts.users && d.accounts.users[user] == db.accounts.users[user].(super := super)
                  && OthersKept(db.accounts, d.accounts, user) && d.accounts.sessions == db.accounts.sessions
                  && ClosesUser(db.ledger, d.ledger, user) && d.registry == db.registry)
  {}

  /** An account is switched on or off; switching it off closes everything it has, switching it on opens
      nothing. */
  lemma SetStatusExactly(db: Db, user: Id, active: bool)
    ensures var d := SetStatusStep(db, user, active);
            && (user !in db.accounts.users ==> d == db)
            && (user in db.accounts.users ==>
                  && user in d.accounts.users && d.accounts.users[user].active == active
                  && d.accounts.users[user] == db.accounts.users[user].(active := active)
                  && OthersKept(db.accounts, d.accounts, user) && d.registry == db.registry
                  && (active ==> d == db.(accounts := db.accounts.(users := d.accounts.users)))
                  && (!active ==>
                        && ClosesUser(db.ledger, d.ledger, user) && user !in d.accounts.otps
                        && (forall i :: i in db.accounts.sessions && db.accounts.sessions[i].user == user ==>
                              i in d.accounts.sessions && d.accounts.sessions[i].revoked)
                        && (forall r :: r in db.accounts.resets && db.accounts.resets[r].user == user ==>
                              r in d.accounts.resets && (d.accounts.resets[r].used || d.accounts.resets[r].revoked))))
  {}

  /** The user and its clients go, with exactly the rows that refer to either. */
  lemma DeleteUserExactly(db: Db, user: Id)
    requires user in db.accounts.users
    ensures var d := DeleteUserStep(db, user);
            && user !in d.accounts.users && user !in d.accounts.otps && OthersKept(db.accounts, d.accounts, user)
            && (forall i :: i in d.accounts.sessions <==>
                  i in db.accounts.sessions && db.accounts.sessions[i].user != user)
            && (forall r :: r in d.accounts.resets <==> r in db.accounts.resets && db.accounts.resets[r].user != user)
            && (forall c :: c in d.registry.clients <==>
                  c in db.registry.clients && db.registry.clients[c].owner != user)
            && (forall c :: c in d.registry.clients ==> d.registry.clients[c] == db.registry.clients[c])
    ensures var d := DeleteUserStep(db, user);
            && (forall p :: p in d.registry.assignments <==>
                  p in db.registry.assignments && p.user != user && !OwnClient(db, p.client, user))
            && (forall p :: p in d.ledger.consents <==>
                  p in db.ledger.consents && p.user != user && !OwnClient(db, p.client, user))
            && (forall i :: i in d.ledger.codes <==>
                  i in db.ledger.codes && db.ledger.codes[i].user != user
                  && !OwnClient(db, db.ledger.codes[i].client, user))
            && (forall i :: i in d.ledger.tokens <==>
                  i in db.ledger.tokens && db.ledger.tokens[i].user != user
                  && !OwnClient(db, db.ledger.tokens[i].client, user))
    ensures var d := DeleteUserStep(db, user);
            && (forall p :: p in d.registry.assignments ==> d.registry.assignments[p] == db.registry.assignments[p])
            && (forall p :: p in d.ledger.consents ==> d.ledger.consents[p] == db.ledger.consents[p])
            && (forall i :: i in d.ledger.codes ==> d.ledger.codes[i] == db.ledger.codes[i])
            && (forall i :: i in d.ledger.tokens ==> d.ledger.tokens[i] == db.ledger.tokens[i])
  {}

  predicate OwnClient(db: Db, client: Id, user: Id) {
    client in db.registry.clients && db.registry.clients[client].owner == user
  }
}
