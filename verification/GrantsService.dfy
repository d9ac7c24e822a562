/** The handlers as they are written: transactions over mutable tables, statement by statement
    (backend/controllers).  Each is proved to be the step of the store it stands for, whatever other
    requests do between the two phases of the handlers that have two, so every theorem about runs holds
    of this code.  A rollback puts back the tables its transaction has touched. */
module GrantsService {
  import opened Options
  import opened Instants
  import opened Grants
  import opened GrantsSafety
  import opened GrantsRuns
  import opened GrantsFacts

  datatype RotateResult = InvalidClient | InvalidGrant | Reuse | Rotated(token: Id)

  datatype VerifyResult = VerifiedNow | AlreadyVerified | Expired | Wrong

  datatype ResetResult = InvalidToken | SamePassword | Done

  /** After a password change: nothing of the user works any more, except the session that is kept. */
  ghost predicate LockedOut(db: Db, user: Id, except: Option<Id>) {
    && user in db.accounts.users
    && (forall i :: i in db.accounts.sessions && db.accounts.sessions[i].user == user && except != Some(i) ==>
        db.accounts.sessions[i].revoked)
    && (forall i :: i in db.ledger.tokens && db.ledger.tokens[i].user == user ==> db.ledger.tokens[i].revoked)
    && (forall i :: i in db.ledger.codes ==> db.ledger.codes[i].user != user)
    && (forall i :: i in db.accounts.resets && db.accounts.resets[i].user == user ==>
        !ResetUsable(db.accounts.resets[i]))
  }

  lemma ChangeLocksOut(db: Db, ticket: Id)
    requires Sound(db) && ticket in db.pending.changes && ChangeHolds(db, db.pending.changes[ticket])
    ensures var t, d := db.pending.changes[ticket], ChangeCommitStep(db, ticket);
            && LockedOut(d, t.user, Some(t.session)) && SignedIn(d, t.session)
                && d.accounts.sessions[t.session].user == t.user
            && d.accounts.users[t.user].password.plain == t.password
  {}

  /** A stored code for what the session's user was asked, with a consent that covers it. */
  predicate GrantedTo(db: Db, code: Id, session: Id, ask: Ask) {
    && code in db.ledger.codes && db.ledger.codes[code].client == ask.client && db.ledger.codes[code].scope == ask.scope
    && SessionLive(db, session, db.ledger.codes[code].user) && CanUse(db, db.ledger.codes[code].user)
    && Covers(db.ledger.consents, ask.client, db.ledger.codes[code].user, ask.scope)
  }

  lemma CommitGrants(db: Db, ticket: Id, ask: Ask)
    requires ticket in db.pending.approvals && ApprovalHolds(db, db.pending.approvals[ticket])
    requires db.pending.approvals[ticket].code.client == ask.client
        && db.pending.approvals[ticket].code.scope == ask.scope != {}
    ensures GrantedTo(AuthorizeCommitStep(db, ticket), db.next, db.pending.approvals[ticket].session, ask)
  {}

  /** Login as a whole: the check, what everybody else does meanwhile, the transaction on what it finds. */
  ghost function LoginOutcome(db: Db, events: seq<Event>, user: Id, password: nat): Db {
    var d, ticket := LoginCheckStep(db, user, password), db.next;
    if d.next == db.next then db else
      var late := Run(d, events);
      if ticket in late.pending.logins && late.pending.logins[ticket] == d.pending.logins[ticket]
      then LoginCommitStep(late, ticket) else late
  }

  ghost function ChangeOutcome(db: Db, events: seq<Event>, session: Id, current: nat, replacement: nat): Db {
    var d, ticket := ChangeCheckStep(db, session, current, replacement), db.next;
    if d.next == db.next then db else
      var late := Run(d, events);
      if ticket in late.pending.changes && late.pending.changes[ticket] == d.pending.changes[ticket]
      then ChangeCommitStep(late, ticket) else late
  }

  /** OAuthAuthorize also sweeps the expired codes in between. */
  ghost function AuthorizeOutcome(db: Db, events: seq<Event>, session: Id, ask: Ask): Db {
    var d, ticket := AuthorizeCheckStep(db, session, ask), db.next;
    if d.next == db.next then db else
      var late := Run(PurgeCodesStep(d), events);
      if ticket in late.pending.approvals && late.pending.approvals[ticket] == d.pending.approvals[ticket]
      then AuthorizeCommitStep(late, ticket) else late
  }

  function OffClients<T>(m: map<Pair, T>, owned: set<Id>): map<Pair, T> {
    map p | p in m && p.client !in owned :: m[p]
  }

  function OffUser<T>(m: map<Pair, T>, user: Id): map<Pair, T> {
    map p | p in m && p.user != user :: m[p]
  }

  function LedgerOff(l: Ledger, owned: set<Id>): Ledger {
    Ledger(OffClients(l.consents, owned),
           map i | i in l.codes && l.codes[i].client !in owned :: l.codes[i],
           map i | i in l.tokens && l.tokens[i].client !in owned :: l.tokens[i])
  }

  function LedgerOffUser(l: Ledger, user: Id): Ledger {
    Ledger(OffUser(l.consents, user),
           map i | i in l.codes && l.codes[i].user != user :: l.codes[i],
           map i | i in l.tokens && l.tokens[i].user != user :: l.tokens[i])
  }

  /** First the rows of the owned clients, then those of the user: together what the step removes. */
  lemma GoneInTwo(db: Db, user: Id, owned: set<Id>)
    requires owned == OwnedBy(db.registry, user)
    ensures LedgerOffUser(LedgerOff(db.ledger, owned), user) == PurgeLedger(db.ledger, user, owned)
    ensures Registry(map c | c in db.registry.clients && db.registry.clients[c].owner != user :: db.registry.clients[c],
                     OffUser(OffClients(db.registry.assignments, owned), user))
                         == PurgeRegistry(db.registry, user, owned)
  {}

  class Server {
    var clock: Time
    var next: Id
    var accounts: Accounts
    var registry: Registry
    var ledger: Ledger
    var past: Past
    var pending: Pending

    // What other requests do while a handler is between its two phases.
    var meanwhile: seq<Event>

    ghost var trace: seq<Event>
    ghost const origin: Db

    function State(): Db
      reads this
    {
      Db(clock, next, accounts, registry, ledger, past, pending)
    }

    ghost predicate Valid()
      reads this
    {
      Empty(origin) && State() == Run(origin, trace)
    }

    constructor (start: Time, others: seq<Event>)
      ensures Valid() && Empty(State()) && clock == start && next == 0 && trace == []
    {
      clock, next := start, 0;
      accounts, registry, ledger := Accounts(map[], map[], map[], map[]), Registry(map[], map[]),
          Ledger(map[], map[], map[]);
      past, pending := Past(map[], map[]), Pending(map[], map[], map[]);
      meanwhile, trace := others, [];
      origin := Db(start, 0, Accounts(map[], map[], map[], map[]), Registry(map[], map[]), Ledger(map[], map[], map[]),
                   Past(map[], map[]), Pending(map[], map[], map[]));
    }

    ghost method Log(e: Event, before: Db)
      requires Empty(origin) && before == Run(origin, trace) && State() == Step(before, e)
      modifies `trace
      ensures Valid() && trace == old(trace) + [e]
    {
      assert (trace + [e])[..|trace|] == trace;
      trace := trace + [e];
    }

    method Load(d: Db)
      modifies this
      ensures State() == d && trace == old(trace) && meanwhile == old(meanwhile)
    {
      clock, next, accounts, registry := d.clock, d.next, d.accounts, d.registry;
      ledger, past, pending := d.ledger, d.past, d.pending;
    }

    /** The steps of everybody else. */
    method Others()
      requires Valid()
      modifies this
      ensures Valid() && State() == Run(old(State()), old(meanwhile)) && meanwhile == []
    {
      ghost var begin, all := State(), meanwhile;
      var k := 0;
      while k < |meanwhile|
        invariant 0 <= k <= |meanwhile| && meanwhile == all
        invariant Valid() && State() == Run(begin, all[..k])
      {
        ghost var before := State();
        Load(Step(State(), meanwhile[k]));
        Log(meanwhile[k], before);
        k := k + 1;
        assert all[..k][..k - 1] == all[..k - 1];
      }
      assert all[..k] == all;
      meanwhile := [];
    }

    // ---------------------------------------------------------------- middleware

    /** RequireSession: the user of a session it lets through; one whose account is closed is revoked. */
    method RequireSession(session: Id) returns (user: Option<Id>)
      requires Valid()
      modifies this
      ensures Valid() && State() == SessionCheck(old(State()), session)
      ensures user.Some? <==> SignedIn(old(State()), session)
      ensures user.Some? ==> accounts.sessions[session].user == user.value
    {
      user := None;
      if session in accounts.sessions && SessionLive(State(), session, accounts.sessions[session].user) {
        if CanUse(State(), accounts.sessions[session].user) {
          user := Some(accounts.sessions[session].user);
        } else {
          Logout(session);
        }
      }
    }

    method Logout(session: Id)
      requires Valid()
      modifies this
      ensures Valid() && State() == DropSessionStep(old(State()), session)
      ensures !SignedIn(State(), session) && accounts.sessions.Keys == old(accounts).sessions.Keys
      ensures session in accounts.sessions ==>
          accounts.sessions[session] == old(accounts).sessions[session].(revoked := true)
      ensures forall i :: i in accounts.sessions && i != session ==> accounts.sessions[i] == old(accounts).sessions[i]
      ensures State() == old(State()).(accounts := old(accounts).(sessions := accounts.sessions))
    {
      ghost var before := State();
      if session in accounts.sessions {
        accounts := accounts.(sessions := accounts.sessions[session := accounts.sessions[session].(revoked := true)]);
      }
      Log(Account(DropSession(session)), before);
    }

    /** RequireAuthToken, for a genuine access token that has not expired: a token whose client, account or
        assignment is closed is revoked, with all the others of a closed account. */
    method RequireAuthToken(token: Id) returns (ok: bool)
      requires Valid()
      modifies this
      ensures Valid() && State() == TokenCheck(old(State()), token)
      ensures ok <==> Passes(old(State()), token)
    {
      if token !in ledger.tokens || ledger.tokens[token].revoked { return false; }
      var row := ledger.tokens[token];
      ghost var before := State();
      if !ClientLive(registry, row.client) {
        DropOneToken(token);
        return false;
      }
      if row.user !in accounts.users { return false; }
      if !Usable(accounts.users[row.user]) {
        ledger := ledger.(tokens := RevokeTokens(ledger.tokens, OfUser(row.user)));
        Log(Grant(DropUserTokens(row.user)), before);
        return false;
      }
      ok := MayEnter(State(), row.client, row.user);
      if !ok { DropOneToken(token); }
    }

    method DropOneToken(token: Id)
      requires Valid() && token in ledger.tokens
      modifies this
      ensures Valid() && State() == DropTokenStep(old(State()), token)
    {
      ghost var before := State();
      ledger := ledger.(tokens := ledger.tokens[token := ledger.tokens[token].(revoked := true)]);
      Log(Grant(DropToken(token)), before);
    }

    // ---------------------------------------------------------------- accounts

    method Register(password: nat, otp: nat, minutes: int) returns (user: Id)
      requires Valid()
      modifies this
      ensures Valid() && State() == RegisterStep(old(State()), password, otp, minutes)
      ensures user == old(next) && user in accounts.users && !accounts.users[user].verified && user in accounts.otps
    {
      ghost var before := State();
      user := next;
      next := next + 1;
      accounts := accounts.(users := accounts.users[user := User(Hash(user, password), false, true, false)]);
      accounts := accounts.(otps := accounts.otps[user := Otp(otp, 0, clock, clock + OtpLifetime(minutes))]);
      Log(Account(AccountEvent.Register(password, otp, minutes)), before);
    }

    method VerifyEmail(user: Id, otp: nat, promote: bool) returns (r: VerifyResult)
      requires Valid()
      modifies this
      ensures Valid() && State() == VerifyEmailStep(old(State()), user, otp, promote)
      ensures r == VerifiedNow <==>
                && user in old(accounts).users && old(accounts).users[user].active
                && !old(accounts).users[user].verified && user in old(accounts).otps
                && clock < old(accounts).otps[user].expires && old(accounts).otps[user].attempts < 5
                && otp == old(accounts).otps[user].code
      ensures r == AlreadyVerified <==>
                user in old(accounts).users && old(accounts).users[user].active && old(accounts).users[user].verified
      ensures r == VerifiedNow ==> user in accounts.users && accounts.users[user].verified && user !in accounts.otps
      ensures r != VerifiedNow ==> accounts.users == old(accounts).users
      ensures r == Wrong && user in old(accounts).users && old(accounts).users[user].active
              && user in old(accounts).otps ==>
                var record := old(accounts).otps[user];
                if record.attempts + 1 < 5
                then user in accounts.otps && accounts.otps[user] == record.(attempts := record.attempts + 1)
                else user !in accounts.otps
      ensures OthersKept(old(accounts), accounts, user)
    {
      VerifyEmailExactly(State(), user, otp, promote);
      if user !in accounts.users || !accounts.users[user].active { return Wrong; }
      if accounts.users[user].verified { return AlreadyVerified; }
      if user !in accounts.otps { return Wrong; }
      ghost var before := State();
      r := JudgeOtp(user, otp, promote);
      Log(Account(AccountEvent.VerifyEmail(user, otp, promote)), before);
    }

    /** VerifyEmail once the account and the record are found. */
    method JudgeOtp(user: Id, otp: nat, promote: bool) returns (r: VerifyResult)
      requires user in accounts.users && accounts.users[user].active && !accounts.users[user].verified
          && user in accounts.otps
      modifies this`accounts
      ensures accounts == VerifyEmailStep(old(State()), user, otp, promote).accounts
      ensures r == VerifiedNow <==>
                && clock < old(accounts).otps[user].expires && old(accounts).otps[user].attempts < 5
                && otp == old(accounts).otps[user].code
      ensures r == Expired <==> clock >= old(accounts).otps[user].expires
      ensures r != AlreadyVerified && (r == VerifiedNow <==> accounts.users[user].verified)
      ensures r != VerifiedNow ==> accounts.users == old(accounts).users
    {
      var record := accounts.otps[user];
      if clock >= record.expires {
        accounts := accounts.(otps := Without(accounts.otps, user));
        return Expired;
      }
      if record.attempts >= OTP_ATTEMPTS || otp != record.code {
        record := record.(attempts := record.attempts + 1);
        if record.attempts >= OTP_ATTEMPTS {
          accounts := accounts.(otps := Without(accounts.otps, user));
        } else {
          accounts := accounts.(otps := accounts.otps[user := record]);
        }
        return Wrong;
      }
      accounts := accounts.(users := accounts.users[user :=
          accounts.users[user].(verified := true, super := promote || accounts.users[user].super)]);
      accounts := accounts.(otps := Without(accounts.otps, user));
      return VerifiedNow;
    }

    /** ResendVerification; true when a mail is queued. */
    method Resend(user: Id, otp: nat, minutes: int) returns (sent: bool)
      requires Valid()
      modifies this
      ensures Valid() && State() == ResendStep(old(State()), user, otp, minutes)
      ensures sent ==> user in accounts.otps && accounts.otps[user] == Otp(otp, 0, clock, clock + OtpLifetime(minutes))
      ensures !sent ==> State() == old(State())
      ensures sent <==>
                && user in old(accounts).users && old(accounts).users[user].active
                && !old(accounts).users[user].verified
                && (user in old(accounts).otps ==> clock >= old(accounts).otps[user].lastSent + 60 * SECOND)
    {
      ghost var before := State();
      sent := user in accounts.users && accounts.users[user].active && !accounts.users[user].verified
              && (user !in accounts.otps || clock >= accounts.otps[user].lastSent + MINUTE);
      if sent {
        accounts := accounts.(otps := accounts.otps[user := Otp(otp, 0, clock, clock + OtpLifetime(minutes))]);
      }
      Log(Account(AccountEvent.Resend(user, otp, minutes)), before);
    }

    /** Login: the password is checked on a row read without a lock; the transaction looks again. */
    method Login(user: Id, password: nat) returns (session: Option<Id>)
      requires Valid()
      modifies this
      ensures Valid() && State() == LoginOutcome(old(State()), old(meanwhile), user, password)
      ensures old(meanwhile) == [] ==>
                (session.Some? <==>
                  && user in old(accounts).users && old(accounts).users[user].active
                  && old(accounts).users[user].verified && old(accounts).users[user].password.plain == password)
      ensures session.Some? ==>
                && session.value in accounts.sessions && !accounts.sessions[session.value].revoked
                && accounts.sessions[session.value].user == user && user in old(accounts).users
                    && user in accounts.users
                && Usable(accounts.users[user]) && accounts.users[user].password.plain == password
                && accounts.users[user].password == accounts.sessions[session.value].basis
                    == old(accounts).users[user].password
    {
      var ticket := CheckPassword(user, password);
      if ticket.None? { return None; }
      var t := pending.logins[ticket.value];

      Others();

      if ticket.value !in pending.logins || pending.logins[ticket.value] != t { return None; }
      session := CommitLogin(ticket.value);
    }

    method CheckPassword(user: Id, password: nat) returns (ticket: Option<Id>)
      requires Valid()
      modifies this`pending, this`next, this`trace
      ensures Valid() && State() == LoginCheckStep(old(State()), user, password)
      ensures ticket == if next > old(next) then Some(old(next)) else None
      ensures ticket.Some? ==>
                && user in accounts.users && accounts.users[user].password.plain == password
                    && ticket.value in pending.logins
                && pending.logins[ticket.value].user == user
                    && pending.logins[ticket.value].hash == accounts.users[user].password
    {
      ghost var before := State();
      if user !in accounts.users { return None; }
      if accounts.users[user].password.plain != password { return None; }
      if !Usable(accounts.users[user]) { return None; }
      ticket := Some(next);
      pending := pending.(logins := pending.logins[next := LoginTicket(user, accounts.users[user].password,
          clock + SESSION_LIFETIME)]);
      next := next + 1;
      Log(Account(LoginCheck(user, password)), before);
    }

    /** Login's transaction. */
    method CommitLogin(ticket: Id) returns (session: Option<Id>)
      requires Valid() && ticket in pending.logins
      modifies this
      ensures Valid() && State() == LoginCommitStep(old(State()), ticket)
      ensures session.Some? <==> LoginHolds(old(State()), old(pending).logins[ticket])
      ensures session.Some? ==> accounts.users == old(accounts).users && session.value in accounts.sessions
      ensures session.Some? ==>
          var t := old(pending).logins[ticket]; accounts.sessions[session.value] == Session(t.user,
          t.expires, false, t.hash)
    {
      ghost var before := State();
      var t := pending.logins[ticket];
      pending := pending.(logins := Without(pending.logins, ticket));
      session := None;
      if t.user in accounts.users && accounts.users[t.user].password == t.hash && Usable(accounts.users[t.user]) {
        session := Some(next);
        accounts := accounts.(sessions := accounts.sessions[next := Session(t.user, t.expires, false, t.hash)]);
        next := next + 1;
      }
      Log(Account(LoginCommit(ticket)), before);
    }

    /** ChangePassword, behind RequireSession. */
    method ChangePassword(session: Id, current: nat, replacement: nat) returns (ok: bool)
      requires Valid()
      modifies this
      ensures Valid() && State() == ChangeOutcome(old(State()), old(meanwhile), session, current, replacement)
      ensures old(meanwhile) == [] ==>
                (ok <==>
                  && session in old(accounts).sessions && !old(accounts).sessions[session].revoked
                  && old(accounts).sessions[session].expires > clock
                  && var user := old(accounts).sessions[session].user;
                     && user in old(accounts).users && old(accounts).users[user].active
                     && old(accounts).users[user].verified
                     && old(accounts).users[user].password.plain == current != replacement)
      ensures ok ==> session in accounts.sessions && LockedOut(State(), accounts.sessions[session].user, Some(session))
      ensures ok ==>
          SignedIn(State(), session) && accounts.users[accounts.sessions[session].user].password.plain == replacement
    {
      var ticket := CheckChange(session, current, replacement);
      if ticket.None? { return false; }
      var t := pending.changes[ticket.value];

      Others();

      if ticket.value !in pending.changes || pending.changes[ticket.value] != t { return false; }
      RunsAreSound(origin, trace);
      if ChangeHolds(State(), t) {
        ChangeLocksOut(State(), ticket.value);
      }
      ok := CommitChange(ticket.value);
    }

    method CheckChange(session: Id, current: nat, replacement: nat) returns (ticket: Option<Id>)
      requires Valid()
      modifies this`pending, this`next, this`trace
      ensures Valid() && State() == ChangeCheckStep(old(State()), session, current, replacement)
      ensures ticket == if next > old(next) then Some(old(next)) else None
      ensures ticket.Some? ==>
                && ticket.value in pending.changes && pending.changes[ticket.value].session == session
                    && pending.changes[ticket.value].password == replacement
                && pending.changes[ticket.value].hash.plain == current != replacement
    {
      ghost var before := State();
      if !SignedIn(State(), session) { return None; }
      var user := accounts.sessions[session].user;
      var hash := accounts.users[user].password;
      if hash.plain != current || hash.plain == replacement { return None; }
      ticket := Some(next);
      pending := pending.(changes := pending.changes[next := ChangeTicket(user, session, hash, replacement)]);
      next := next + 1;
      Log(Account(ChangeCheck(session, current, replacement)), before);
    }

    /** ChangePassword's transaction. */
    method CommitChange(ticket: Id) returns (ok: bool)
      requires Valid() && ticket in pending.changes
      modifies this
      ensures Valid() && State() == ChangeCommitStep(old(State()), ticket)
      ensures ok <==> ChangeHolds(old(State()), old(pending).changes[ticket])
    {
      ghost var before := State();
      var t := pending.changes[ticket];
      ok := ChangeHolds(State(), t);
      pending := pending.(changes := Without(pending.changes, ticket));
      if ok {
        var hash := Hash(next, t.password);
        next := next + 1;
        accounts := accounts.(users := accounts.users[t.user := accounts.users[t.user].(password := hash)]);
        accounts := accounts.(sessions := RevokeSessions(accounts.sessions, t.user, Some(t.session)));
        accounts := accounts.(sessions := accounts.sessions[t.session := accounts.sessions[t.session].(basis := hash)]);
        ledger := ledger.(tokens := RevokeTokens(ledger.tokens, OfUser(t.user)));
        ledger := ledger.(codes := DropCodes(ledger.codes, OfUser(t.user)));
        accounts := accounts.(resets := RevokeResets(accounts.resets, t.user));
      }
      Log(Account(ChangeCommit(ticket)), before);
    }

    // ---------------------------------------------------------------- password reset

    /** RequestPasswordReset; the answer to the caller is the same either way. */
    method RequestPasswordReset(user: Id) returns (reset: Option<Id>)
      requires Valid()
      modifies this
      ensures Valid() && State() == RequestResetStep(old(State()), user)
      ensures reset.Some? <==> CanUse(old(State()), user) && !Throttled(old(State()), user)
      ensures reset == if next > old(next) then Some(old(next)) else None
    {
      ghost var before := State();
      reset := None;
      if user in accounts.users && Usable(accounts.users[user]) {
        var latest := LatestReset(user);
        var recent := Created(accounts.resets, user, clock - HOUR);
        if (latest.None? || clock >= latest.value + MINUTE) && |recent| < HOURLY_RESETS {
          reset := Some(next);
          CreateReset(user);
        }
      }
      Log(Account(RequestReset(user)), before);
    }

    /** The older links stop working as the new one is stored. */
    method CreateReset(user: Id)
      modifies this`accounts, this`past, this`next
      ensures next == old(next) + 1
      ensures accounts == old(accounts).(resets := RevokeResets(old(accounts).resets,
          user)[old(next) := Reset(user, clock, false, false, 0)])
      ensures past == old(past).(requests :=
          old(past).requests[user := Requests(old(State()), user) + [Stamp(old(next), clock)]])
    {
      accounts := accounts.(resets := RevokeResets(accounts.resets, user));
      accounts := accounts.(resets := accounts.resets[next := Reset(user, clock, false, false, 0)]);
      past := past.(requests := past.requests[user := (if user in past.requests then past.requests[user]
          else []) + [Stamp(next, clock)]]);
      next := next + 1;
    }

    /** ORDER BY created_at DESC LIMIT 1. */
    method LatestReset(user: Id) returns (at: Option<Time>)
      ensures at.None? <==> forall r :: r in accounts.resets ==> accounts.resets[r].user != user
      ensures at.Some? ==>
                && (exists r :: r in accounts.resets && accounts.resets[r].user == user
                      && accounts.resets[r].created == at.value)
                && (forall r :: r in accounts.resets && accounts.resets[r].user == user ==>
                    accounts.resets[r].created <= at.value)
      ensures (at.Some? && clock < at.value + MINUTE) <==> Created(accounts.resets, user, clock - MINUTE) != {}
    {
      at := None;
      var rest := accounts.resets.Keys;
      while rest != {}
        invariant rest <= accounts.resets.Keys
        invariant at.None? ==> forall r :: r in accounts.resets && r !in rest ==> accounts.resets[r].user != user
        invariant at.Some? ==>
                    && (exists r ::
                          r in accounts.resets && accounts.resets[r].user == user
                              && accounts.resets[r].created == at.value)
                    && (forall r :: r in accounts.resets && r !in rest && accounts.resets[r].user == user ==>
                        accounts.resets[r].created <= at.value)
        decreases |rest|
      {
        var r :| r in rest;
        rest := rest - {r};
        if accounts.resets[r].user == user && (at.None? || at.value < accounts.resets[r].created) {
          at := Some(accounts.resets[r].created);
        }
      }
      if at.Some? && clock < at.value + MINUTE {
        var r :| r in accounts.resets && accounts.resets[r].user == user && accounts.resets[r].created == at.value;
        assert r in Created(accounts.resets, user, clock - MINUTE);
      }
    }

    method ConfirmPasswordReset(reset: Id, password: nat) returns (r: ResetResult)
      requires Valid()
      modifies this
      ensures Valid() && State() == ConfirmResetStep(old(State()), reset, password)
      ensures r == Done ==> reset in old(accounts).resets && LockedOut(State(), old(accounts).resets[reset].user, None)
      ensures r == Done ==> accounts.users[old(accounts).resets[reset].user].password.plain == password
      ensures r != Done ==> State() == old(State())
      ensures r != InvalidToken <==>
                && reset in old(accounts).resets && !old(accounts).resets[reset].used
                && !old(accounts).resets[reset].revoked && clock < old(accounts).resets[reset].created + 15 * MINUTE
                && old(accounts).resets[reset].user in old(accounts).users
                && old(accounts).users[old(accounts).resets[reset].user].active
                && old(accounts).users[old(accounts).resets[reset].user].verified
      ensures r != InvalidToken ==>
                (r == Done <==> old(accounts).users[old(accounts).resets[reset].user].password.plain != password)
    {
      ghost var before := State();
      if reset !in accounts.resets || accounts.resets[reset].user !in accounts.users { return InvalidToken; }
      var token := accounts.resets[reset];
      if token.used || token.revoked || token.created + RESET_LIFETIME <= clock { return InvalidToken; }
      if !Usable(accounts.users[token.user]) { return InvalidToken; }
      if accounts.users[token.user].password.plain == password { return SamePassword; }
      SetPassword(reset, password);
      Log(Account(ConfirmReset(reset, password)), before);
      return Done;
    }

    /** The writes of ConfirmPasswordReset. */
    method SetPassword(reset: Id, password: nat)
      requires reset in accounts.resets && accounts.resets[reset].user in accounts.users
      modifies this`accounts, this`next, this`ledger
      ensures var r := old(accounts).resets[reset];
              && next == old(next) + 1
              && accounts == old(accounts).(
                   users := old(accounts).users[r.user :=
                       old(accounts).users[r.user].(password := Hash(old(next), password))],
                   resets := RevokeResets(old(accounts).resets[reset := r.(used := true, sets := r.sets + 1)], r.user),
                   sessions := RevokeSessions(old(accounts).sessions, r.user, None))
              && ledger == Close(old(ledger), OfUser(r.user))
    {
      var token := accounts.resets[reset];
      var user := token.user;
      accounts := accounts.(users := accounts.users[user := accounts.users[user].(password := Hash(next, password))]);
      next := next + 1;
      accounts := accounts.(resets := accounts.resets[reset := token.(used := true, sets := token.sets + 1)]);
      accounts := accounts.(resets := RevokeResets(accounts.resets, user));
      accounts := accounts.(sessions := RevokeSessions(accounts.sessions, user, None));
      ledger := ledger.(tokens := RevokeTokens(ledger.tokens, OfUser(user)));
      ledger := ledger.(codes := DropCodes(ledger.codes, OfUser(user)));
    }

    // ---------------------------------------------------------------- clients and assignments

    /** revokeClientUserGrant. */
    method RevokeClientUserGrant(client: Id, user: Id)
      modifies this`ledger
      ensures ledger == RevokeGrant(old(ledger), Pair(client, user))
    {
      ledger := ledger.(tokens := RevokeTokens(ledger.tokens, OfPair(Pair(client, user))));
      ledger := ledger.(codes := DropCodes(ledger.codes, OfPair(Pair(client, user))));
      ledger := ledger.(consents := RevokeConsent(ledger.consents, Pair(client, user)));
    }

    /** CreateClient; None is the foreign key that fails for an owner deleted meanwhile. */
    method CreateClient(owner: Id, assignedOnly: bool, redirects: set<nat>) returns (client: Option<Id>)
      requires Valid()
      modifies this
      ensures Valid() && State() == CreateClientStep(old(State()), owner, assignedOnly, redirects)
      ensures client.Some? <==> owner in old(accounts).users
      ensures client.Some? ==>
                && ClientLive(registry, client.value)
                && registry.clients[client.value].owner == owner
                    && AssignmentLive(registry.assignments, client.value, owner)
    {
      ghost var before := State();
      client := None;
      if owner in accounts.users {
        client := Some(next);
        registry := registry.(clients := registry.clients[next :=
            Client(owner, Hash(next, next), 1, assignedOnly, false, redirects, false)]);
        registry := registry.(assignments := registry.assignments[Pair(next, owner) := Assignment(true, false)]);
        next := next + 1;
      }
      Log(Manage(ClientEvent.CreateClient(owner, assignedOnly, redirects)), before);
    }

    method UpdateClient(actor: Actor, client: Id, assignedOnly: bool, redirects: set<nat>, provisioned: bool)
        returns (ok: bool)
      requires Valid()
      modifies this
      ensures Valid() && State() == UpdateClientStep(old(State()), actor, client, assignedOnly, redirects, provisioned)
      ensures ok ==>
                && ClientLive(State().registry, client) && registry.clients[client].assignedOnly == assignedOnly
                && registry.clients[client].redirects == redirects
      ensures !ok ==> State() == old(State())
      ensures ok <==>
                && MayManage(old(State()), actor, client) && (provisioned ==> assignedOnly)
                && var p := Pair(client, old(registry).clients[client].owner);
                   !(assignedOnly && p in old(registry).assignments && old(registry).assignments[p].deleted)
    {
      ghost var before := State();
      if !Manages(State(), actor, client) || (provisioned && !assignedOnly) { return false; }
      var row := registry.clients[client];
      var saved := registry;
      var policyChanged := row.assignedOnly != assignedOnly;
      registry := registry.(clients :=
          registry.clients[client := row.(assignedOnly := assignedOnly, redirects := redirects)]);
      if assignedOnly {
        var p := Pair(client, row.owner);
        if p in registry.assignments && !registry.assignments[p].deleted {
          if !registry.assignments[p].active {
            registry := registry.(assignments := registry.assignments[p := registry.assignments[p].(active := true)]);
          }
        } else if p in registry.assignments {
          // The insert meets the soft-deleted row in the unique index.
          registry := saved;
          return false;
        } else {
          registry := registry.(assignments := registry.assignments[p := Assignment(true, false)]);
        }
        assert registry.assignments == old(registry).assignments[p := Assignment(true, false)];
      }
      ledger := ledger.(codes := DropCodes(ledger.codes, OfClient(client)));
      if policyChanged {
        ledger := ledger.(tokens := RevokeTokens(ledger.tokens, OfClient(client)));
      }
      Log(Manage(ClientEvent.UpdateClient(actor, client, assignedOnly, redirects, provisioned)), before);
      return true;
    }

    method RegenerateClientSecret(actor: Actor, client: Id, expected: Uint64) returns (version: Option<Uint64>)
      requires Valid()
      modifies this
      ensures Valid() && State() == RegenerateStep(old(State()), actor, client, expected)
      ensures version.Some? ==>
                client in registry.clients
                    && registry.clients[client].version == version.value == expected + 1 <= MAX_VERSION
      ensures version.None? ==> State() == old(State())
      ensures version.Some? <==>
                && MayManage(old(State()), actor, client) && expected < 0xFFFF_FFFF_FFFF_FFFF
                && expected == (if old(registry).clients[client].version == 0 then 1
                                else old(registry).clients[client].version)
    {
      ghost var before := State();
      if !Manages(State(), actor, client) { return None; }
      version := NextVersion(registry.clients[client].version, expected);
      if version.None? { return; }
      registry := registry.(clients := registry.clients[client :=
          registry.clients[client].(secret := Hash(next, next), version := version.value)]);
      next := next + 1;
      ledger := ledger.(tokens := RevokeTokens(ledger.tokens, OfClient(client)));
      ledger := ledger.(codes := DropCodes(ledger.codes, OfClient(client)));
      Log(Manage(Regenerate(actor, client, expected)), before);
    }

    method DeleteClient(actor: Actor, client: Id) returns (ok: bool)
      requires Valid()
      modifies this
      ensures Valid() && State() == DeleteClientStep(old(State()), actor, client)
      ensures ok <==> MayManage(old(State()), actor, client)
      ensures ok ==> (forall u, scope ::
            !Covers(ledger.consents, client, u, scope))
                      && (forall u :: !AssignmentLive(registry.assignments, client, u))
    {
      ghost var before := State();
      ok := Manages(State(), actor, client);
      if ok {
        ledger := ledger.(tokens := RevokeTokens(ledger.tokens, OfClient(client)));
        ledger := ledger.(codes := DropCodes(ledger.codes, OfClient(client)));
        ledger := ledger.(consents := map p | p in ledger.consents && p.client != client :: ledger.consents[p]);
        registry := registry.(assignments := map p | p in registry.assignments :: if p.client == client
            then registry.assignments[p].(deleted := true) else registry.assignments[p]);
        registry := registry.(clients := registry.clients[client := registry.clients[client].(deleted := true)]);
      }
      Log(Manage(ClientEvent.DeleteClient(actor, client)), before);
    }

    /** AssignClientUser: a soft-deleted row is revived; earlier grants are revoked either way. */
    method AssignClientUser(actor: Actor, client: Id, user: Id) returns (ok: bool)
      requires Valid()
      modifies this
      ensures Valid() && State() == AssignStep(old(State()), actor, client, user)
      ensures ok ==> AssignmentLive(registry.assignments, client, user)
      ensures !ok ==> State() == old(State())
      ensures ok <==>
                && MayManage(old(State()), actor, client) && user in old(accounts).users
                && old(accounts).users[user].active && old(accounts).users[user].verified
    {
      ghost var before := State();
      ok := Manages(State(), actor, client) && CanUse(State(), user);
      if ok {
        var p := Pair(client, user);
        var row := if p in registry.assignments then registry.assignments[p] else Assignment(true, false);
        row := row.(active := true, deleted := false);
        registry := registry.(assignments := registry.assignments[p := row]);
        RevokeClientUserGrant(client, user);
      }
      Log(Manage(Assign(actor, client, user)), before);
    }

    method DeleteClientAssignment(actor: Actor, client: Id, user: Id) returns (ok: bool)
      requires Valid()
      modifies this
      ensures Valid() && State() == UnassignStep(old(State()), actor, client, user)
      ensures ok ==> !AssignmentLive(registry.assignments, client, user) && forall i ::
            i in ledger.tokens && ledger.tokens[i].client == client && ledger.tokens[i].user == user ==>
                ledger.tokens[i].revoked
      ensures ok <==>
                && MayManage(old(State()), actor, client) && Pair(client, user) in old(registry).assignments
                && !old(registry).assignments[Pair(client, user)].deleted
                && !(old(registry).clients[client].assignedOnly && old(registry).clients[client].owner == user)
      ensures !ok ==> State() == old(State())
    {
      ghost var before := State();
      if !Manages(State(), actor, client) { return false; }
      if registry.clients[client].assignedOnly && registry.clients[client].owner == user { return false; }
      var p := Pair(client, user);
      if p !in registry.assignments || registry.assignments[p].deleted { return false; }
      registry := registry.(assignments := registry.assignments[p := registry.assignments[p].(deleted := true)]);
      RevokeClientUserGrant(client, user);
      Log(Manage(Unassign(actor, client, user)), before);
      return true;
    }

    // ---------------------------------------------------------------- authorization and tokens

    /** persistOAuthConsent. */
    method PersistConsent(client: Id, user: Id, scope: Scope)
      modifies this`ledger
      ensures ledger == old(ledger).(consents := old(ledger).consents[Pair(client, user) :=
                           Consent(Merged(old(ledger).consents, Pair(client, user), scope), false)])
      ensures scope != {} ==> Covers(ledger.consents, client, user, scope)
    {
      var p := Pair(client, user);
      if p !in ledger.consents {
        ledger := ledger.(consents := ledger.consents[p := Consent(scope, false)]);
      } else {
        ledger := ledger.(consents :=
            ledger.consents[p := ledger.consents[p].(scope := ledger.consents[p].scope + scope,
            revoked := false)]);
      }
    }

    /** OAuthAuthorize: checks, then a transaction that looks at the user and the session again. */
    method Authorize(session: Id, ask: Ask) returns (code: Option<Id>)
      requires Valid()
      modifies this
      ensures Valid() && State() == AuthorizeOutcome(old(State()), old(meanwhile), session, ask)
      ensures code.Some? ==> Askable(old(State()), session, ask)
      ensures old(meanwhile) == [] ==> (code.Some? <==> Askable(old(State()), session, ask))
      ensures code.Some? ==> GrantedTo(State(), code.value, session, ask)
    {
      AuthorizeCheckExactly(State(), session, ask);
      var ticket := CheckAuthorization(session, ask);
      if ticket.None? { return None; }
      var t := pending.approvals[ticket.value];
      DropExpiredCodes();

      Others();

      if ticket.value !in pending.approvals || pending.approvals[ticket.value] != t { return None; }
      if ApprovalHolds(State(), t) {
        CommitGrants(State(), ticket.value, ask);
      }
      code := CommitAuthorization(ticket.value);
    }

    method CheckAuthorization(session: Id, ask: Ask) returns (ticket: Option<Id>)
      requires Valid()
      modifies this`pending, this`next, this`trace
      ensures Valid() && State() == AuthorizeCheckStep(old(State()), session, ask)
      ensures ticket == if next > old(next) then Some(old(next)) else None
      ensures ticket.Some? ==>
                && ticket.value in pending.approvals && pending.approvals[ticket.value].session == session
                && pending.approvals[ticket.value].code.client == ask.client
                    && pending.approvals[ticket.value].code.scope == ask.scope != {}
    {
      ghost var before := State();
      if !SignedIn(State(), session) || !Authorizable(State(), accounts.sessions[session].user, ask) { return None; }
      var user := accounts.sessions[session].user;
      ticket := Some(next);
      pending := pending.(approvals := pending.approvals[next :=
        Approval(session, Code(ask.client, user, ask.redirect, ask.challenge, ask.scope, clock + CODE_LIFETIME,
            accounts.users[user].password), ask.approved)]);
      next := next + 1;
      Log(Grant(AuthorizeCheck(session, ask)), before);
    }

    /** OAuthAuthorize deletes every expired code on its way.  No code that an exchange would accept is
        lost, except one that expires at this very instant: the exchange still takes it, the sweep does not
        leave it. */
    method DropExpiredCodes()
      requires Valid()
      modifies this`ledger, this`trace
      ensures Valid() && State() == PurgeCodesStep(old(State()))
      ensures forall i :: i in ledger.codes ==> i in old(ledger).codes && ledger.codes[i] == old(ledger).codes[i]
      ensures forall client, code, redirect, verifier ::
                Redeemable(State(), client, code, redirect, verifier) <==>
                Redeemable(old(State()), client, code, redirect, verifier) && old(ledger).codes[code].expires != clock
    {
      ghost var before := State();
      ledger := ledger.(codes := map i | i in ledger.codes && ledger.codes[i].expires > clock :: ledger.codes[i]);
      Log(Grant(PurgeCodes), before);
    }

    /** OAuthAuthorize's transaction. */
    method CommitAuthorization(ticket: Id) returns (code: Option<Id>)
      requires Valid() && ticket in pending.approvals
      modifies this
      ensures Valid() && State() == AuthorizeCommitStep(old(State()), ticket)
      ensures code == if ApprovalHolds(old(State()), old(pending).approvals[ticket]) then Some(old(next)) else None
    {
      ghost var before := State();
      var t := pending.approvals[ticket];
      var row := t.code;
      pending := pending.(approvals := Without(pending.approvals, ticket));
      code := None;
      if CanUse(State(), row.user) && SessionLive(State(), t.session, row.user) {
        var saved := ledger;
        ledger := ledger.(codes := ledger.codes[next := row.(basis := accounts.users[row.user].password)]);
        if row.client in registry.clients {
          code := Some(next);
          next := next + 1;
          PersistConsent(row.client, row.user, row.scope);
        } else {
          // The consent's foreign key fails and takes the code with it.
          ledger := saved;
        }
      }
      Log(Grant(AuthorizeCommit(ticket)), before);
    }

    /** issueTokenPair; None is its error. */
    method IssueTokenPair(user: Id, client: Id, scope: Scope, family: Id) returns (token: Option<Id>)
      modifies this`ledger, this`next
      ensures token.Some? <==> Issuable(State(), client, user)
      ensures token.Some? ==> token.value == old(next) && next == old(next) + 1
      ensures token.Some? ==> ledger == old(ledger).(tokens :=
          old(ledger).tokens[old(next) := Issued(old(State()), family, client, user, scope)])
      ensures token.None? ==> ledger == old(ledger) && next == old(next)
    {
      if user !in accounts.users || !Usable(accounts.users[user]) { return None; }
      if !MayEnter(State(), client, user) { return None; }
      token := Some(next);
      ledger := ledger.(tokens :=
          ledger.tokens[next := Token(family, client, user, scope, clock + REFRESH_LIFETIME, false,
          accounts.users[user].password, registry.clients[client].secret)]);
      next := next + 1;
    }

    /** exchangeAuthorizationCode. */
    method Exchange(client: Id, secret: nat, code: Id, redirect: nat, verifier: nat) returns (token: Option<Id>)
      requires Valid()
      modifies this
      ensures Valid() && State() == ExchangeStep(old(State()), client, secret, code, redirect, verifier)
      ensures token.Some? ==> token.value in ledger.tokens && !ledger.tokens[token.value].revoked
      ensures token.Some? <==> State() != old(State())
      ensures token.None? ==> State() == old(State())
      ensures token.Some? <==> Exchangeable(old(State()), client, secret, code, redirect, verifier)
      ensures token.Some? ==>
                && client in old(registry).clients && old(registry).clients[client].secret.plain == secret
                && !old(registry).clients[client].deleted && !old(registry).clients[client].suspended
    {
      ghost var before := State();
      if !Authentic(State(), client, secret) { return None; }
      if code !in ledger.codes || ledger.codes[code].client != client { return None; }
      var row := ledger.codes[code];
      if row.user !in accounts.users { return None; }
      var saved, counter := ledger, next;
      ledger := ledger.(codes := Without(ledger.codes, code));
      if clock > row.expires || row.redirect != redirect || row.challenge != verifier {
        ledger := saved;
        return None;
      }
      var family := next;
      next := next + 1;
      token := IssueTokenPair(row.user, client, row.scope, family);
      if token.None? {
        ledger, next := saved, counter;
        return;
      }
      past := past.(families := past.families[family := Origin(code, client, row.user, row.scope)]);
      Log(Grant(GrantEvent.Exchange(client, secret, code, redirect, verifier)), before);
    }

    /** rotateRefreshToken. */
    method Rotate(client: Id, secret: nat, token: Id) returns (r: RotateResult)
      requires Valid()
      modifies this
      ensures Valid() && State() == RotateStep(old(State()), client, secret, token)
      ensures r == Reuse ==> token in old(ledger).tokens && Extinct(State(), old(ledger).tokens[token].family)
      ensures r.Rotated? <==> next > old(next)
      ensures r.InvalidClient? || r.InvalidGrant? ==> State() == old(State())
      ensures !r.InvalidClient? <==>
                && client in old(registry).clients && old(registry).clients[client].secret.plain == secret
                && !old(registry).clients[client].deleted && !old(registry).clients[client].suspended
      ensures r.Rotated? || r.Reuse? ==>
                && token in old(ledger).tokens && old(ledger).tokens[token].client == client
                && (r.Reuse? <==> old(ledger).tokens[token].revoked)
      ensures r.Rotated? ==>
                && clock <= old(ledger).tokens[token].refreshExpires
                && AdmittedTo(old(State()), client, old(ledger).tokens[token].user)
    {
      ghost var before := State();
      if !Authentic(State(), client, secret) { return InvalidClient; }
      if token !in ledger.tokens || ledger.tokens[token].client != client
          || ledger.tokens[token].user !in accounts.users { return InvalidGrant; }
      var current := ledger.tokens[token];
      if current.revoked {
        ledger := ledger.(tokens := RevokeTokens(ledger.tokens, OfFamily(current.family)));
        Log(Grant(GrantEvent.Rotate(client, secret, token)), before);
        return Reuse;
      }
      if clock > current.refreshExpires { return InvalidGrant; }
      var saved := ledger;
      ledger := ledger.(tokens := ledger.tokens[token := current.(revoked := true)]);
      var issued := IssueTokenPair(current.user, client, current.scope, current.family);
      if issued.None? {
        ledger := saved;
        return InvalidGrant;
      }
      assert State() == Renewed(before, token);
      Log(Grant(GrantEvent.Rotate(client, secret, token)), before);
      return Rotated(issued.value);
    }

    /** OAuthRevoke: the answer is the same whether the token is known or not (section 2.1 of RFC 7009). */
    method Revoke(client: Id, secret: nat, token: Id)
      requires Valid()
      modifies this
      ensures Valid() && State() == RevokeTokenStep(old(State()), client, secret, token)
      ensures if KnownToken(old(State()), client, secret, token)
              then EndsFamily(old(State()), State(), old(ledger).tokens[token].family)
              else State() == old(State())
      ensures State() != old(State()) ==>
                && client in old(registry).clients && old(registry).clients[client].secret.plain == secret
                && !old(registry).clients[client].deleted && !old(registry).clients[client].suspended
                && token in old(ledger).tokens && old(ledger).tokens[token].client == client
    {
      RevocationFact(client, secret, token);
      RevokeRecord(client, secret, token);
    }

    lemma RevocationFact(client: Id, secret: nat, token: Id)
      requires Valid()
      ensures if KnownToken(State(), client, secret, token)
              then EndsFamily(State(), RevokeTokenStep(State(), client, secret, token), ledger.tokens[token].family)
              else State() == RevokeTokenStep(State(), client, secret, token)
    {
      RunsKeepFamilies(origin, trace);
      RevocationEndsTheFamily(State(), client, secret, token);
    }

    /** The lookup and the bulk update. */
    method RevokeRecord(client: Id, secret: nat, token: Id)
      requires Valid()
      modifies this
      ensures Valid() && State() == RevokeTokenStep(old(State()), client, secret, token)
    {
      ghost var before := State();
      if Authentic(State(), client, secret) && token in ledger.tokens && ledger.tokens[token].client == client {
        var record := ledger.tokens[token];
        ledger := ledger.(tokens := map i | i in ledger.tokens ::
          if ledger.tokens[i].family == record.family && ledger.tokens[i].client == client
              && ledger.tokens[i].user == record.user
          then ledger.tokens[i].(revoked := true)
          else ledger.tokens[i]);
      }
      Log(Grant(RevokeToken(client, secret, token)), before);
    }

    /** RevokeApplicationConnection; false is its 404. */
    method Disconnect(user: Id, client: Id) returns (found: bool)
      requires Valid()
      modifies this
      ensures Valid() && State() == DisconnectStep(old(State()), user, client)
      ensures found ==> forall i ::
            i in ledger.tokens && ledger.tokens[i].client == client && ledger.tokens[i].user == user ==>
                ledger.tokens[i].revoked
      ensures found <==> exists i ::
                i in old(ledger).tokens && old(ledger).tokens[i].client == client
                && old(ledger).tokens[i].user == user && !old(ledger).tokens[i].revoked
      ensures !found ==> State() == old(State())
    {
      ghost var before := State();
      found := exists i ::
            i in ledger.tokens && ledger.tokens[i].client == client && ledger.tokens[i].user == user
                && !ledger.tokens[i].revoked;
      if found {
        RevokeClientUserGrant(client, user);
      }
      Log(Grant(GrantEvent.Disconnect(user, client)), before);
    }

    // ---------------------------------------------------------------- administration

    method UpdateRole(user: Id, super: bool) returns (ok: bool)
      requires Valid()
      modifies this
      ensures Valid() && State() == SetRoleStep(old(State()), user, super)
      ensures ok <==> user in old(accounts).users
      ensures ok ==>
                && accounts.users == old(accounts).users[user := old(accounts).users[user].(super := super)]
                && (forall i :: i in ledger.tokens && ledger.tokens[i].user == user ==> ledger.tokens[i].revoked)
                && (forall i :: i in ledger.codes ==> ledger.codes[i].user != user)
    {
      ghost var before := State();
      ok := user in accounts.users;
      if ok {
        accounts := accounts.(users := accounts.users[user := accounts.users[user].(super := super)]);
        ledger := ledger.(tokens := RevokeTokens(ledger.tokens, OfUser(user)));
        ledger := ledger.(codes := DropCodes(ledger.codes, OfUser(user)));
      }
      Log(Admin(SetRole(user, super)), before);
    }

    method UpdateStatus(user: Id, active: bool) returns (ok: bool)
      requires Valid()
      modifies this
      ensures Valid() && State() == SetStatusStep(old(State()), user, active)
      ensures ok <==> user in old(accounts).users
      ensures ok ==>
                && user in accounts.users && accounts.users[user].active == active
                && OthersKept(old(accounts), accounts, user)
      ensures ok && !active ==>
                && (forall i :: i in accounts.sessions && accounts.sessions[i].user == user ==>
                    accounts.sessions[i].revoked)
                && (forall i :: i in ledger.tokens && ledger.tokens[i].user == user ==> ledger.tokens[i].revoked)
                && (forall i :: i in ledger.codes ==> ledger.codes[i].user != user) && user !in accounts.otps
    {
      SetStatusExactly(State(), user, active);
      ghost var before := State();
      ok := user in accounts.users;
      if ok {
        accounts := accounts.(users := accounts.users[user := accounts.users[user].(active := active)]);
        if !active {
          accounts := accounts.(sessions := RevokeSessions(accounts.sessions, user, None));
          ledger := ledger.(tokens := RevokeTokens(ledger.tokens, OfUser(user)));
          ledger := ledger.(codes := DropCodes(ledger.codes, OfUser(user)));
          accounts := accounts.(otps := Without(accounts.otps, user));
          accounts := accounts.(resets := RevokeResets(accounts.resets, user));
        }
      }
      Log(Admin(SetStatus(user, active)), before);
    }

    /** AdminDeleteUser, table by table. */
    method DeleteUser(user: Id) returns (ok: bool)
      requires Valid()
      modifies this
      ensures Valid() && State() == DeleteUserStep(old(State()), user)
      ensures ok <==> user in old(accounts).users
    {
      ghost var before := State();
      if user !in accounts.users { return false; }
      var owned := set c | c in registry.clients && registry.clients[c].owner == user;
      DropOwned(owned);
      DropPersonal(user);
      accounts := accounts.(users := Without(accounts.users, user));
      GoneInTwo(before, user, owned);
      Log(Admin(AdminEvent.DeleteUser(user)), before);
      return true;
    }

    /** The rows of clients that go with their owner. */
    method DropOwned(owned: set<Id>)
      modifies this`registry, this`ledger
      ensures registry == old(registry).(assignments := OffClients(old(registry).assignments, owned))
      ensures ledger == LedgerOff(old(ledger), owned)
    {
      registry := registry.(assignments := map p | p in registry.assignments
          && p.client !in owned :: registry.assignments[p]);
      ledger := ledger.(codes := map i | i in ledger.codes && ledger.codes[i].client !in owned :: ledger.codes[i]);
      ledger := ledger.(consents := map p | p in ledger.consents && p.client !in owned :: ledger.consents[p]);
      ledger := ledger.(tokens := map i | i in ledger.tokens && ledger.tokens[i].client !in owned :: ledger.tokens[i]);
    }

    /** The rows of the user itself; reset tokens go by cascade. */
    method DropPersonal(user: Id)
      modifies this`registry, this`ledger, this`accounts
      ensures registry == Registry(
        map c | c in old(registry).clients && old(registry).clients[c].owner != user :: old(registry).clients[c],
        OffUser(old(registry).assignments, user))
      ensures ledger == LedgerOffUser(old(ledger), user)
      ensures accounts == PurgeAccounts(old(accounts), user).(users := old(accounts).users)
    {
      registry := registry.(assignments := map p | p in registry.assignments
          && p.user != user :: registry.assignments[p]);
      ledger := ledger.(codes := map i | i in ledger.codes && ledger.codes[i].user != user :: ledger.codes[i]);
      ledger := ledger.(consents := map p | p in ledger.consents && p.user != user :: ledger.consents[p]);
      ledger := ledger.(tokens := map i | i in ledger.tokens && ledger.tokens[i].user != user :: ledger.tokens[i]);
      accounts := accounts.(sessions := map i | i in accounts.sessions && accounts.sessions[i].user != user ::
          accounts.sessions[i]);
      accounts := accounts.(otps := Without(accounts.otps, user));
      registry := registry.(clients := map c | c in registry.clients
          && registry.clients[c].owner != user :: registry.clients[c]);
      accounts := accounts.(resets := map r | r in accounts.resets
          && accounts.resets[r].user != user :: accounts.resets[r]);
    }
  }
}
