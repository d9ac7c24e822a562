/** Whole runs of the grant store: the credential promises, the life of a token family, the pace of
    password resets, and what the two-phase handlers can no longer do. */
module GrantsRuns {
  import opened Options
  import opened Instants
  import opened Grants
  import opened GrantsSafety

  lemma {:induction false} RunsAreSound(db: Db, events: seq<Event>)
    requires Empty(db)
    ensures Sound(Run(db, events))
    decreases |events|
  {
    if events != [] {
      RunsAreSound(db, events[..|events| - 1]);
      StepSound(Run(db, events[..|events| - 1]), events[|events| - 1]);
    }
  }

  /** After every run, whatever the interleaving of requests:
      a live session or token and a stored code belong to an account that is active and verified and
      still has the password they were issued under; a live token and a code have a live consent that
      covers them; a live token was obtained with the client's present secret, for a user the client
      admits; the owner of a client for assigned users is assigned; a one-time code exists only for an
      active unverified account and has at most four wrong attempts. */
  lemma EveryRunKeepsCredentials(db: Db, events: seq<Event>)
    requires Empty(db)
    ensures var d := Run(db, events);
            && (forall i :: i in d.accounts.sessions && !d.accounts.sessions[i].revoked ==>
                  && CanUse(d, d.accounts.sessions[i].user)
                  && d.accounts.users[d.accounts.sessions[i].user].password == d.accounts.sessions[i].basis)
            && (forall i :: i in d.ledger.codes ==>
                  && CanUse(d, d.ledger.codes[i].user)
                      && d.accounts.users[d.ledger.codes[i].user].password == d.ledger.codes[i].basis
                  && Covers(d.ledger.consents, d.ledger.codes[i].client, d.ledger.codes[i].user,
                      d.ledger.codes[i].scope))
            && (forall i :: i in d.ledger.tokens && !d.ledger.tokens[i].revoked ==>
                  && CanUse(d, d.ledger.tokens[i].user)
                      && d.accounts.users[d.ledger.tokens[i].user].password == d.ledger.tokens[i].basis
                  && Covers(d.ledger.consents, d.ledger.tokens[i].client, d.ledger.tokens[i].user,
                      d.ledger.tokens[i].scope)
                  && Admitted(d.registry, d.ledger.tokens[i].client, d.ledger.tokens[i].user)
                      && d.registry.clients[d.ledger.tokens[i].client].secret == d.ledger.tokens[i].secret)
            && (forall c :: ClientLive(d.registry, c) && d.registry.clients[c].assignedOnly ==>
                AssignmentLive(d.registry.assignments, c, d.registry.clients[c].owner))
            && (forall u :: u in d.accounts.otps ==>
                  u in d.accounts.users && d.accounts.users[u].active && !d.accounts.users[u].verified
                      && d.accounts.otps[u].attempts <= 4)
  {
    RunsAreSound(db, events);
  }

  // ---------------------------------------------------------------- token families

  ghost predicate FamiliesSound(db: Db) {
    && (forall i :: i in db.ledger.tokens ==>
          var t := db.ledger.tokens[i];
          t.family in db.past.families
              && db.past.families[t.family] == Origin(db.past.families[t.family].code, t.client,
              t.user, t.scope))
    && (forall i, k ::
          i in db.ledger.tokens && k in db.ledger.tokens && !db.ledger.tokens[i].revoked && !db.ledger.tokens[k].revoked
              && db.ledger.tokens[i].family == db.ledger.tokens[k].family
          ==> i == k)
    && (forall f :: f in db.past.families ==>
          f < db.next && db.past.families[f].code < db.next && db.past.families[f].code !in db.ledger.codes)
    && (forall f, g ::
          f in db.past.families && g in db.past.families && db.past.families[f].code == db.past.families[g].code ==>
              f == g)
  }

  /** A step that issues nothing: tokens stay, are revoked or go; new codes are newly drawn. */
  ghost predicate Quiet(db: Db, db': Db) {
    && db'.past.families == db.past.families && db'.next >= db.next
    && (forall i :: i in db'.ledger.tokens ==>
          && i in db.ledger.tokens
          && db'.ledger.tokens[i] == db.ledger.tokens[i].(revoked := db'.ledger.tokens[i].revoked)
          && (db.ledger.tokens[i].revoked ==> db'.ledger.tokens[i].revoked))
    && (forall i :: i in db'.ledger.codes ==> i in db.ledger.codes || i >= db.next)
  }

  lemma AccountQuiet(db: Db, e: AccountEvent)
    ensures Quiet(db, AccountStep(db, e))
  {}

  lemma ClientQuiet(db: Db, e: ClientEvent)
    ensures Quiet(db, ClientStep(db, e))
  {}

  lemma GrantQuiet(db: Db, e: GrantEvent)
    requires !e.Exchange? && !e.Rotate?
    ensures Quiet(db, GrantStep(db, e))
  {}

  lemma AdminQuiet(db: Db, e: AdminEvent)
    ensures Quiet(db, AdminStep(db, e))
  {}

  predicate Issues(e: Event) {
    e.Grant? && (e.grant.Exchange? || e.grant.Rotate?)
  }

  lemma OthersAreQuiet(db: Db, e: Event)
    requires !Issues(e)
    ensures Quiet(db, Step(db, e))
  {
    match e
    case Pass(_) =>
    case Account(account) => AccountQuiet(db, account);
    case Manage(manage) => ClientQuiet(db, manage);
    case Grant(grant) => GrantQuiet(db, grant);
    case Admin(admin) => AdminQuiet(db, admin);
  }

  lemma QuietKeepsFamilies(db: Db, db': Db)
    requires FamiliesSound(db) && Quiet(db, db')
    ensures FamiliesSound(db')
  {}

  lemma ExchangeKeepsFamilies(db: Db, client: Id, secret: nat, code: Id, redirect: nat, verifier: nat)
    requires Sound(db) && FamiliesSound(db)
    ensures FamiliesSound(ExchangeStep(db, client, secret, code, redirect, verifier))
  {}

  lemma RotateKeepsFamilies(db: Db, client: Id, secret: nat, token: Id)
    requires Sound(db) && FamiliesSound(db)
    ensures FamiliesSound(RotateStep(db, client, secret, token))
  {
    if Presentable(db, client, secret, token) && !db.ledger.tokens[token].revoked
        && Issuable(db, client, db.ledger.tokens[token].user) {
      RenewKeepsFamilies(db, token);
    }
  }

  lemma RenewKeepsFamilies(db: Db, token: Id)
    requires Sound(db) && FamiliesSound(db)
    requires token in db.ledger.tokens && !db.ledger.tokens[token].revoked
        && db.ledger.tokens[token].user in db.accounts.users && db.ledger.tokens[token].client in db.registry.clients
    ensures FamiliesSound(Renewed(db, token))
  {}

  lemma {:induction false} RunsKeepFamilies(db: Db, events: seq<Event>)
    requires Empty(db)
    ensures Sound(Run(db, events)) && FamiliesSound(Run(db, events))
    decreases |events|
  {
    RunsAreSound(db, events);
    if events != [] {
      var before, e := events[..|events| - 1], events[|events| - 1];
      var d := Run(db, before);
      RunsKeepFamilies(db, before);
      if !Issues(e) {
        OthersAreQuiet(d, e);
        QuietKeepsFamilies(d, Step(d, e));
      } else if e.grant.Exchange? {
        ExchangeKeepsFamilies(d, e.grant.client, e.grant.secret, e.grant.code, e.grant.redirect, e.grant.verifier);
      } else {
        RotateKeepsFamilies(d, e.grant.client, e.grant.secret, e.grant.token);
      }
    }
  }

  ghost predicate Extinct(db: Db, family: Id) {
    forall i :: i in db.ledger.tokens && db.ledger.tokens[i].family == family ==> db.ledger.tokens[i].revoked
  }

  /** A family without a live token never gets one again, and what its exchange granted stands. */
  lemma ExtinctStays(db: Db, e: Event, family: Id)
    requires Sound(db) && FamiliesSound(db) && family in db.past.families
    ensures family in Step(db, e).past.families && Step(db, e).past.families[family] == db.past.families[family]
    ensures Extinct(db, family) ==> Extinct(Step(db, e), family)
  {
    if !Issues(e) {
      OthersAreQuiet(db, e);
    } else if e.grant.Rotate? {
      var token := e.grant.token;
      if token in db.ledger.tokens && db.ledger.tokens[token].revoked {
        assert forall i :: i in RotateStep(db, e.grant.client, e.grant.secret, token).ledger.tokens ==>
            i in db.ledger.tokens;
      }
    }
  }

  /** After every run: each token belongs to a family that one exchange of one code started, for that
      code's client, user and scope; the code is gone and started no other family; at most one token of
      a family is live. */
  lemma EveryRunKeepsFamilies(db: Db, events: seq<Event>)
    requires Empty(db)
    ensures var d := Run(db, events);
            && (forall i :: i in d.ledger.tokens ==>
                  var t := d.ledger.tokens[i];
                  && t.family in d.past.families && d.past.families[t.family].client == t.client
                  && d.past.families[t.family].user == t.user && d.past.families[t.family].scope == t.scope)
            && (forall i, k :: i in d.ledger.tokens && k in d.ledger.tokens && i != k ==>
                  || d.ledger.tokens[i].family != d.ledger.tokens[k].family
                  || d.ledger.tokens[i].revoked || d.ledger.tokens[k].revoked)
            && (forall f :: f in d.past.families ==> d.past.families[f].code !in d.ledger.codes)
            && (forall f, g :: f in d.past.families && g in d.past.families && f != g ==>
                d.past.families[f].code != d.past.families[g].code)
  {
    RunsKeepFamilies(db, events);
  }

  lemma {:induction false} ExtinctForGood(db: Db, before: seq<Event>, after: seq<Event>, family: Id)
    requires Empty(db) && family in Run(db, before).past.families && Extinct(Run(db, before), family)
    ensures var d := Run(db, before + after);
            family in d.past.families && d.past.families[family] == Run(db, before).past.families[family]
                && Extinct(d, family)
    decreases |after|
  {
    if after == [] {
      assert before + after == before;
    } else {
      var n := |after| - 1;
      ExtinctForGood(db, before, after[..n], family);
      var all := before + after;
      assert all[..|all| - 1] == before + after[..n];
      RunsKeepFamilies(db, before + after[..n]);
      ExtinctStays(Run(db, before + after[..n]), all[|all| - 1], family);
    }
  }

  /** Presenting a refresh token that was rotated or revoked leaves its family without a live token,
      even past its expiry, and nothing revives it (section 4.14.2 of RFC 9700). */
  lemma ReplayEndsTheFamily(db: Db, before: seq<Event>, client: Id, secret: nat, token: Id, after: seq<Event>)
    requires Empty(db) && Presentable(Run(db, before), client, secret, token)
        && Run(db, before).ledger.tokens[token].revoked
    ensures Extinct(Run(db, before + [Grant(Rotate(client, secret, token))] + after),
        Run(db, before).ledger.tokens[token].family)
  {
    var d := Run(db, before);
    var replay := Grant(Rotate(client, secret, token));
    var played := before + [replay];
    assert played[..|played| - 1] == before;
    var family := d.ledger.tokens[token].family;
    RunsKeepFamilies(db, before);
    ExtinctStays(d, replay, family);
    assert Extinct(Run(db, played), family);
    ExtinctForGood(db, played, after, family);
  }

  /** A rotation spends the presented token and issues one to the same user and client for the same scope.
      It fails only for a token that is revoked or expired: the checks of account, assignment and client
      inside it cannot fail for any other, because whatever takes such access away revokes the token. */
  lemma RotationSucceeds(db: Db, client: Id, secret: nat, token: Id)
    requires Sound(db) && FamiliesSound(db) && Presentable(db, client, secret, token)
    ensures var d := RotateStep(db, client, secret, token);
            var t := db.ledger.tokens[token];
            d.next > db.next <==> !t.revoked && db.clock <= t.refreshExpires
    ensures var d := RotateStep(db, client, secret, token);
            var t := db.ledger.tokens[token];
            d.next > db.next ==>
              && d.ledger.tokens[token].revoked && db.next in d.ledger.tokens && !d.ledger.tokens[db.next].revoked
              && d.ledger.tokens[db.next].family == t.family && d.ledger.tokens[db.next].client == client
              && d.ledger.tokens[db.next].user == t.user && d.ledger.tokens[db.next].scope == t.scope
              && (forall i :: i in db.ledger.tokens && i != token ==>
                  i in d.ledger.tokens && d.ledger.tokens[i] == db.ledger.tokens[i])
  {}

  /** The authenticated client presents a token of its own. */
  predicate KnownToken(db: Db, client: Id, secret: nat, token: Id) {
    Authentic(db, client, secret) && token in db.ledger.tokens && db.ledger.tokens[token].client == client
  }

  /** One family has no live token any more; other families, codes and consents are as they were. */
  ghost predicate EndsFamily(db: Db, db': Db, family: Id) {
    && Extinct(db', family) && db' == db.(ledger := db.ledger.(tokens := db'.ledger.tokens))
    && db'.ledger.tokens.Keys == db.ledger.tokens.Keys
    && (forall i :: i in db.ledger.tokens && db.ledger.tokens[i].family != family ==>
          db'.ledger.tokens[i] == db.ledger.tokens[i])
  }

  /** Though the update also filters by client and user, it reaches every token of the family: they are
      all of the same client and user.  The user's consent survives the client's revocation. */
  lemma RevocationEndsTheFamily(db: Db, client: Id, secret: nat, token: Id)
    requires FamiliesSound(db)
    ensures if KnownToken(db, client, secret, token)
            then EndsFamily(db, RevokeTokenStep(db, client, secret, token), db.ledger.tokens[token].family)
            else RevokeTokenStep(db, client, secret, token) == db
  {
    if KnownToken(db, client, secret, token) {
      var family := db.ledger.tokens[token].family;
      assert forall i :: i in db.ledger.tokens && db.ledger.tokens[i].family == family ==>
          db.ledger.tokens[i].client == client && db.ledger.tokens[i].user == db.ledger.tokens[token].user;
    }
  }

  // ---------------------------------------------------------------- passwords

  /** Clients and grants leave the accounts alone. */
  ghost predicate AccountsKept(db: Db, db': Db) {
    && db'.accounts.users == db.accounts.users && db'.pending.logins == db.pending.logins
        && db'.pending.changes == db.pending.changes
    && db'.accounts.resets == db.accounts.resets && db'.past.requests == db.past.requests && db'.clock == db.clock
        && db'.next >= db.next
  }

  lemma ClientFrame(db: Db, e: ClientEvent)
    ensures AccountsKept(db, ClientStep(db, e))
  {}

  lemma GrantFrame(db: Db, e: GrantEvent)
    ensures AccountsKept(db, GrantStep(db, e))
  {
    match e
    case AuthorizeCheck(_, _) =>
    case AuthorizeCommit(ticket) => if ticket in db.pending.approvals
        && ApprovalHolds(db, db.pending.approvals[ticket]) {}
    case PurgeCodes =>
    case Exchange(_, _, _, _, _) =>
    case Rotate(client, secret, token) => if Presentable(db, client, secret, token)
        && !db.ledger.tokens[token].revoked {}
    case RevokeToken(_, _, _) =>
    case DropToken(_) =>
    case DropUserTokens(_) =>
    case Disconnect(_, _) =>
  }

  /** Passwords change only to freshly salted hashes, and user ids are never drawn twice. */
  ghost predicate Drift(db: Db, db': Db) {
    db.next <= db'.next && forall u :: u in db'.accounts.users ==>
      if u in db.accounts.users
      then db'.accounts.users[u].password == db.accounts.users[u].password
          || (db'.accounts.users[u].password.salt == db.next && db.next < db'.next)
      else u == db.next && db'.accounts.users[u].password.salt == db.next && db.next < db'.next
  }

  lemma AccountDrifts(db: Db, e: AccountEvent)
    ensures Drift(db, AccountStep(db, e))
  {}

  lemma AdminDrifts(db: Db, e: AdminEvent)
    ensures Drift(db, AdminStep(db, e))
  {}

  lemma StepDrifts(db: Db, e: Event)
    ensures Drift(db, Step(db, e))
  {
    match e
    case Pass(_) =>
    case Account(account) => AccountDrifts(db, account);
    case Manage(manage) => ClientFrame(db, manage);
    case Grant(grant) => GrantFrame(db, grant);
    case Admin(admin) => AdminDrifts(db, admin);
  }

  /** A hash that is not the user's any more: the present one was salted later. */
  ghost predicate Outdated(db: Db, user: Id, hash: Hash) {
    user < db.next && hash.salt < db.next
        && (user in db.accounts.users ==> hash.salt < db.accounts.users[user].password.salt)
  }

  lemma {:induction false} OutdatedStays(db: Db, events: seq<Event>, user: Id, hash: Hash)
    requires Outdated(db, user, hash)
    ensures Outdated(Run(db, events), user, hash)
    decreases |events|
  {
    if events != [] {
      var before := events[..|events| - 1];
      OutdatedStays(db, before, user, hash);
      StepDrifts(Run(db, before), events[|events| - 1]);
    }
  }

  /** Every hash in a stored ticket is the user's, or an older one. */
  ghost predicate TicketsSound(db: Db) {
    && (forall u :: u in db.accounts.users ==> u < db.next && db.accounts.users[u].password.salt < db.next)
    && (forall t :: t in db.pending.logins ==> TicketSound(db, db.pending.logins[t].user, db.pending.logins[t].hash))
    && (forall t :: t in db.pending.changes ==> TicketSound(db, db.pending.changes[t].user, db.pending.changes[t].hash))
  }

  predicate TicketSound(db: Db, user: Id, hash: Hash) {
    user < db.next && hash.salt < db.next && (user in db.accounts.users ==>
        hash == db.accounts.users[user].password || hash.salt < db.accounts.users[user].password.salt)
  }

  /** What a step may do to the tickets: keep them, use them up, or write one with the present hash. */
  ghost predicate TicketsKept(db: Db, db': Db) {
    && (forall t :: t in db'.pending.logins ==>
          || (t in db.pending.logins && db'.pending.logins[t] == db.pending.logins[t])
          || Current(db, db'.pending.logins[t].user, db'.pending.logins[t].hash))
    && (forall t :: t in db'.pending.changes ==>
          || (t in db.pending.changes && db'.pending.changes[t] == db.pending.changes[t])
          || Current(db, db'.pending.changes[t].user, db'.pending.changes[t].hash))
  }

  predicate Current(db: Db, user: Id, hash: Hash) {
    user in db.accounts.users && db.accounts.users[user].password == hash
  }

  lemma AccountTickets(db: Db, e: AccountEvent)
    ensures TicketsKept(db, AccountStep(db, e))
  {}

  lemma AdminTickets(db: Db, e: AdminEvent)
    ensures TicketsKept(db, AdminStep(db, e))
  {}

  lemma StepTickets(db: Db, e: Event)
    requires TicketsSound(db)
    ensures TicketsSound(Step(db, e))
  {
    StepDrifts(db, e);
    match e
    case Pass(_) =>
    case Account(account) => AccountTickets(db, account);
    case Manage(manage) => ClientFrame(db, manage);
    case Grant(grant) => GrantFrame(db, grant);
    case Admin(admin) => AdminTickets(db, admin);
  }

  lemma {:induction false} RunTickets(db: Db, events: seq<Event>)
    requires Empty(db)
    ensures TicketsSound(Run(db, events))
    decreases |events|
  {
    if events != [] {
      RunTickets(db, events[..|events| - 1]);
      StepTickets(Run(db, events[..|events| - 1]), events[|events| - 1]);
    }
  }

  /** Login and ChangePassword check a password outside their transaction.  Once the password has
      changed in between, the login makes no session and the change writes nothing, however long they
      wait: no later hash of the user equals the one they saw. */
  lemma LateCommitsFail(db: Db, before: seq<Event>, after: seq<Event>, ticket: Id)
    requires Empty(db)
    ensures var d := Run(db, before);
            var late := Run(d, after);
            && (ticket in d.pending.logins
                && !Current(d, d.pending.logins[ticket].user, d.pending.logins[ticket].hash) ==>
                  !LoginHolds(late, d.pending.logins[ticket]))
            && (ticket in d.pending.changes
                && !Current(d, d.pending.changes[ticket].user, d.pending.changes[ticket].hash) ==>
                  !ChangeHolds(late, d.pending.changes[ticket]))
  {
    var d := Run(db, before);
    RunTickets(db, before);
    if ticket in d.pending.logins && !Current(d, d.pending.logins[ticket].user, d.pending.logins[ticket].hash) {
      OutdatedStays(d, after, d.pending.logins[ticket].user, d.pending.logins[ticket].hash);
    }
    if ticket in d.pending.changes && !Current(d, d.pending.changes[ticket].user, d.pending.changes[ticket].hash) {
      OutdatedStays(d, after, d.pending.changes[ticket].user, d.pending.changes[ticket].hash);
    }
  }
}
