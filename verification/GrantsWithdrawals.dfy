/** What stays withdrawn: a session logged out, a connection disconnected.  A disconnect lasts until the
    user approves again, with one exception that is characterized exactly: a request that was checked
    before it, on the strength of the consent it withdraws, and commits after it. */
module GrantsWithdrawals {
  import opened Options
  import opened Instants
  import opened Grants
  import opened GrantsSafety
  import opened GrantsRuns

  /** Nothing of the pair works: no live token, no code, no live consent. */
  ghost predicate Shut(l: Ledger, pair: Pair) {
    && (forall i :: i in l.tokens && Pair(l.tokens[i].client, l.tokens[i].user) == pair ==> l.tokens[i].revoked)
    && (forall i :: i in l.codes ==> Pair(l.codes[i].client, l.codes[i].user) != pair)
    && (pair in l.consents ==> l.consents[pair].revoked)
  }

  function PairOf(a: Approval): Pair {
    Pair(a.code.client, a.code.user)
  }

  /** The step commits a pending authorization of the pair. */
  predicate Reopens(db: Db, e: Event, pair: Pair) {
    && e.Grant? && e.grant.AuthorizeCommit? && e.grant.ticket in db.pending.approvals
    && PairOf(db.pending.approvals[e.grant.ticket]) == pair
    && ApprovalHolds(db, db.pending.approvals[e.grant.ticket])
  }

  // ---------------------------------------------------------------- one step

  lemma AccountStaysShut(db: Db, e: AccountEvent, pair: Pair)
    requires Shut(db.ledger, pair)
    ensures Shut(AccountStep(db, e).ledger, pair)
  {}

  lemma ClientStaysShut(db: Db, e: ClientEvent, pair: Pair)
    requires Shut(db.ledger, pair)
    ensures Shut(ClientStep(db, e).ledger, pair)
  {}

  lemma AdminStaysShut(db: Db, e: AdminEvent, pair: Pair)
    requires Shut(db.ledger, pair)
    ensures Shut(AdminStep(db, e).ledger, pair)
  {}

  lemma CommitOpens(db: Db, ticket: Id, pair: Pair)
    requires Shut(db.ledger, pair)
    ensures Shut(AuthorizeCommitStep(db, ticket).ledger, pair) <==> !Reopens(db, Grant(AuthorizeCommit(ticket)), pair)
  {}

  lemma GrantStaysShut(db: Db, e: GrantEvent, pair: Pair)
    requires Shut(db.ledger, pair) && !e.AuthorizeCommit?
    ensures Shut(GrantStep(db, e).ledger, pair)
  {}

  /** A shut pair is opened by a commit of a pending authorization, and by nothing else. */
  lemma OnlyCommitsReopen(db: Db, e: Event, pair: Pair)
    requires Shut(db.ledger, pair)
    ensures Shut(Step(db, e).ledger, pair) <==> !Reopens(db, e, pair)
  {
    match e
    case Pass(_) =>
    case Account(account) => AccountStaysShut(db, account, pair);
    case Manage(manage) => ClientStaysShut(db, manage, pair);
    case Grant(grant) =>
      if grant.AuthorizeCommit? { CommitOpens(db, grant.ticket, pair); } else { GrantStaysShut(db, grant, pair); }
    case Admin(admin) => AdminStaysShut(db, admin, pair);
  }

  ghost predicate Connected(db: Db, pair: Pair) {
    exists i :: i in db.ledger.tokens && Pair(db.ledger.tokens[i].client, db.ledger.tokens[i].user) == pair
                && !db.ledger.tokens[i].revoked
  }

  /** The handler looks for a live token first: without one it answers 404 and leaves a live consent, so
      that a user whose tokens the client revoked itself cannot withdraw the consent. */
  lemma DisconnectShuts(db: Db, pair: Pair)
    ensures Shut(DisconnectStep(db, pair.user, pair.client).ledger, pair) <==>
        Connected(db, pair) || Shut(db.ledger, pair)
    ensures !Connected(db, pair) ==> DisconnectStep(db, pair.user, pair.client) == db
  {
    if i :| i in db.ledger.tokens && Pair(db.ledger.tokens[i].client, db.ledger.tokens[i].user) == pair
            && !db.ledger.tokens[i].revoked {
      assert db.ledger.tokens[i].client == pair.client && db.ledger.tokens[i].user == pair.user;
    }
  }

  // ---------------------------------------------------------------- what old sessions and tickets can become

  /** Sessions and client rows of before fade, time does not go back. */
  ghost predicate Fades(db: Db, db': Db) {
    && db'.next >= db.next && db'.clock >= db.clock
    && (forall i :: i in db'.accounts.sessions && i < db.next ==>
          && i in db.accounts.sessions && db'.accounts.sessions[i].user == db.accounts.sessions[i].user
          && db'.accounts.sessions[i].expires == db.accounts.sessions[i].expires
          && (db.accounts.sessions[i].revoked ==> db'.accounts.sessions[i].revoked))
    && (forall c :: c in db'.registry.clients && c < db.next ==> c in db.registry.clients)
  }

  /** Tickets are kept, used up, or written by a check under a new id. */
  ghost predicate ApprovalsKept(db: Db, db': Db) {
    forall t :: t in db'.pending.approvals && t != db.next ==>
      t in db.pending.approvals && db'.pending.approvals[t] == db.pending.approvals[t]
  }

  lemma AccountFades(db: Db, e: AccountEvent)
    requires Sound(db)
    ensures Fades(db, AccountStep(db, e)) && AccountStep(db, e).pending.approvals == db.pending.approvals
  {}

  lemma ClientFades(db: Db, e: ClientEvent)
    ensures Fades(db, ClientStep(db, e)) && ClientStep(db, e).pending.approvals == db.pending.approvals
  {}

  lemma GrantFades(db: Db, e: GrantEvent)
    ensures Fades(db, GrantStep(db, e)) && ApprovalsKept(db, GrantStep(db, e))
    ensures !e.AuthorizeCheck? ==> forall t :: t in GrantStep(db, e).pending.approvals ==> t in db.pending.approvals
  {}

  lemma AdminFades(db: Db, e: AdminEvent)
    ensures Fades(db, AdminStep(db, e)) && AdminStep(db, e).pending.approvals == db.pending.approvals
  {}

  lemma StepFades(db: Db, e: Event)
    requires Sound(db)
    ensures Fades(db, Step(db, e)) && ApprovalsKept(db, Step(db, e))
  {
    match e
    case Pass(_) =>
    case Account(account) => AccountFades(db, account);
    case Manage(manage) => ClientFades(db, manage);
    case Grant(grant) => GrantFades(db, grant);
    case Admin(admin) => AdminFades(db, admin);
  }

  lemma {:induction false} RunFades(db: Db, events: seq<Event>)
    requires Sound(db)
    ensures Sound(Run(db, events)) && Fades(db, Run(db, events))
    decreases |events|
  {
    if events != [] {
      var before := events[..|events| - 1];
      RunFades(db, before);
      StepSound(Run(db, before), events[|events| - 1]);
      StepFades(Run(db, before), events[|events| - 1]);
    }
  }

  /** A session that is logged out lets nobody in again, whatever follows. */
  lemma LogoutIsFinal(db: Db, session: Id, events: seq<Event>)
    requires Sound(db) && session in db.accounts.sessions
    ensures !SignedIn(Run(DropSessionStep(db, session), events), session)
  {
    DropSessionSound(db, session);
    RunFades(DropSessionStep(db, session), events);
  }

  // ---------------------------------------------------------------- pending authorizations

  ghost predicate TicketsDrawn(db: Db) {
    forall t :: t in db.pending.approvals ==>
      t < db.next && db.pending.approvals[t].session < db.next && db.pending.approvals[t].code.client < db.next
  }

  lemma CheckDraws(db: Db, session: Id, ask: Ask)
    requires Sound(db) && TicketsDrawn(db)
    ensures TicketsDrawn(AuthorizeCheckStep(db, session, ask))
  {}

  lemma StepDraws(db: Db, e: Event)
    requires Sound(db) && TicketsDrawn(db)
    ensures TicketsDrawn(Step(db, e))
  {
    StepFades(db, e);
    match e
    case Pass(_) =>
    case Account(account) => AccountFades(db, account);
    case Manage(manage) => ClientFades(db, manage);
    case Grant(grant) =>
      if grant.AuthorizeCheck? { CheckDraws(db, grant.session, grant.ask); } else { GrantFades(db, grant); }
    case Admin(admin) => AdminFades(db, admin);
  }

  lemma {:induction false} RunDraws(db: Db, events: seq<Event>)
    requires Empty(db)
    ensures Sound(Run(db, events)) && TicketsDrawn(Run(db, events))
    decreases |events|
  {
    if events != [] {
      var before := events[..|events| - 1];
      RunDraws(db, before);
      StepSound(Run(db, before), events[|events| - 1]);
      StepDraws(Run(db, before), events[|events| - 1]);
    }
  }

  /** A ticket that no longer holds never holds again: its session is over or its client's row gone. */
  lemma HoldsBackwards(db: Db, db': Db, a: Approval)
    requires Sound(db) && Fades(db, db') && a.session < db.next && a.code.client < db.next && ApprovalHolds(db', a)
    ensures ApprovalHolds(db, a)
  {}

  // ---------------------------------------------------------------- the exact exception

  /** The pair's pending tickets on which the user has not approved, and which still hold, are old ones. */
  ghost predicate OnlyOldUnapproved(db: Db, db': Db, pair: Pair) {
    forall t :: t in db'.pending.approvals && PairOf(db'.pending.approvals[t]) == pair
                && !db'.pending.approvals[t].approved ==>
      t in db.pending.approvals && db'.pending.approvals[t] == db.pending.approvals[t]
  }

  /** While the pair is shut no check passes without an approval. */
  lemma ChecksNeedApproval(db: Db, session: Id, ask: Ask, pair: Pair)
    requires Shut(db.ledger, pair) && TicketsDrawn(db)
    ensures OnlyOldUnapproved(db, AuthorizeCheckStep(db, session, ask), pair)
  {}

  lemma StepNeedsApproval(db: Db, e: Event, pair: Pair)
    requires Sound(db) && Shut(db.ledger, pair) && TicketsDrawn(db)
    ensures OnlyOldUnapproved(db, Step(db, e), pair)
  {
    match e
    case Pass(_) =>
    case Account(account) => AccountFades(db, account);
    case Manage(manage) => ClientFades(db, manage);
    case Grant(grant) =>
      if grant.AuthorizeCheck? { ChecksNeedApproval(db, grant.session, grant.ask, pair); }
          else { GrantFades(db, grant); }
    case Admin(admin) => AdminFades(db, admin);
  }

  ghost predicate StaysShut(db: Db, events: seq<Event>, pair: Pair) {
    forall k :: 0 <= k <= |events| ==> Shut(Run(db, events[..k]).ledger, pair)
  }

  lemma {:induction false} ShutRun(db: Db, events: seq<Event>, pair: Pair)
    requires Sound(db) && TicketsDrawn(db) && StaysShut(db, events, pair)
    ensures var d := Run(db, events);
            Sound(d) && TicketsDrawn(d) && Fades(db, d) && OnlyOldUnapproved(db, d, pair)
    decreases |events|
  {
    if events != [] {
      var n := |events| - 1;
      var before := events[..n];
      assert StaysShut(db, before, pair) by {
        assert forall k :: 0 <= k <= n ==> before[..k] == events[..k];
      }
      ShutRun(db, before, pair);
      assert Shut(Run(db, before).ledger, pair);
      StepSound(Run(db, before), events[n]);
      StepFades(Run(db, before), events[n]);
      StepDraws(Run(db, before), events[n]);
      StepNeedsApproval(Run(db, before), events[n], pair);
    }
  }

  /** After these steps, through which the pair stayed shut, the ticket's commit opens it again though
      the user did not approve in that request. */
  ghost predicate Overtaken(db: Db, events: seq<Event>, ticket: Id, pair: Pair) {
    var d := Run(db, events);
    && StaysShut(db, events, pair) && Reopens(d, Grant(AuthorizeCommit(ticket)), pair)
    && !d.pending.approvals[ticket].approved
  }

  /** A pending authorization of the pair that was let through on the stored consent, and still holds. */
  ghost predicate Underway(db: Db, ticket: Id, pair: Pair) {
    && ticket in db.pending.approvals && PairOf(db.pending.approvals[ticket]) == pair
    && !db.pending.approvals[ticket].approved && ApprovalHolds(db, db.pending.approvals[ticket])
  }

  lemma OvertakenBackwards(db: Db, events: seq<Event>, ticket: Id, pair: Pair)
    requires Sound(db) && TicketsDrawn(db) && Overtaken(db, events, ticket, pair)
    ensures Underway(db, ticket, pair)
  {
    ShutRun(db, events, pair);
    HoldsBackwards(db, Run(db, events), db.pending.approvals[ticket]);
  }

  lemma OvertakenAtOnce(db: Db, ticket: Id, pair: Pair)
    requires Shut(db.ledger, pair) && Underway(db, ticket, pair)
    ensures Overtaken(db, [], ticket, pair)
  {
    var none: seq<Event> := [];
    assert none[..0] == none;
  }

  /** From any reachable state a disconnect that finds a live token shuts the pair: no scope is covered
      any more.  It can be opened again without the user approving again if and only if, at the time of
      the disconnect, an authorization of the pair that was let through on the stored consent was
      underway and still held; and then by that very ticket. */
  lemma DisconnectLasts(origin: Db, before: seq<Event>, pair: Pair, ticket: Id)
    requires Empty(origin) && Connected(Run(origin, before), pair)
    ensures var db := Run(origin, before);
            var d := DisconnectStep(db, pair.user, pair.client);
            && Shut(d.ledger, pair) && (forall s :: !Covers(d.ledger.consents, pair.client, pair.user, s))
            && ((exists after :: Overtaken(d, after, ticket, pair)) <==> Underway(db, ticket, pair))
  {
    var db := Run(origin, before);
    var e := Grant(Disconnect(pair.user, pair.client));
    var d := Step(db, e);
    RunDraws(origin, before);
    DisconnectShuts(db, pair);
    StepSound(db, e);
    StepDraws(db, e);
    assert Underway(d, ticket, pair) <==> Underway(db, ticket, pair);
    if after :| Overtaken(d, after, ticket, pair) {
      OvertakenBackwards(d, after, ticket, pair);
    }
    if Underway(d, ticket, pair) {
      OvertakenAtOnce(d, ticket, pair);
    }
  }

  // ---------------------------------------------------------------- a run in which it happens

  function Blank(): Db {
    Db(0, 0, Accounts(map[], map[], map[], map[]), Registry(map[], map[]), Ledger(map[], map[], map[]),
        Past(map[], map[]),
       Pending(map[], map[], map[]))
  }

  /** User 0 registers, verifies, logs in to session 2 and creates client 3. */
  function SignUp(): seq<Event> {
    [Account(Register(1, 7, 10))] + [Account(VerifyEmail(0, 7, false))] + [Account(LoginCheck(0, 1))]
    + [Account(LoginCommit(1))] + [Manage(CreateClient(0, false, {0}))]
  }

  function Request(approved: bool): Event {
    Grant(AuthorizeCheck(2, Ask(3, 0, 5, {"openid"}, true, false, approved)))
  }

  /** The user approves, the client exchanges code 5 for token 7, and a second request, which asks the user
      nothing, passes its checks as ticket 8. */
  function Connect(): seq<Event> {
    [Request(true)] + [Grant(AuthorizeCommit(4))] + [Grant(Exchange(3, 3, 5, 0, 5))] + [Request(false)]
  }

  lemma Step1(db: Db, before: seq<Event>, e: Event)
    ensures Run(db, before + [e]) == Step(Run(db, before), e)
  {
    assert (before + [e])[..|before|] == before;
  }

  lemma SignedUp()
    ensures var d := Run(Blank(), SignUp());
            && d.next == 4 && d.clock == 0 && d.accounts.users.Keys == {0} && Usable(d.accounts.users[0])
            && d.accounts.sessions == map[2 := Session(0, SESSION_LIFETIME, false, d.accounts.users[0].password)]
            && d.registry.clients == map[3 := Client(0, Hash(3, 3), 1, false, false, {0}, false)]
            && d.ledger == Ledger(map[], map[], map[]) && d.pending.approvals == map[]
  {
    var e := SignUp();
    Step1(Blank(), [], e[0]);
    Step1(Blank(), [e[0]], e[1]);
    Step1(Blank(), [e[0]] + [e[1]], e[2]);
    Step1(Blank(), [e[0]] + [e[1]] + [e[2]], e[3]);
    Step1(Blank(), [e[0]] + [e[1]] + [e[2]] + [e[3]], e[4]);
  }

  lemma Exchanged(db: Db)
    requires db.next == 4 && db.clock == 0 && db.accounts.users.Keys == {0} && Usable(db.accounts.users[0])
    requires db.accounts.sessions == map[2 := Session(0, SESSION_LIFETIME, false, db.accounts.users[0].password)]
    requires db.registry.clients == map[3 := Client(0, Hash(3, 3), 1, false, false, {0}, false)]
    requires db.ledger == Ledger(map[], map[], map[]) && db.pending.approvals == map[]
    ensures var d := Step(Step(Step(db, Connect()[0]), Connect()[1]), Connect()[2]);
            && d.next == 8 && d.clock == 0 && d.accounts == db.accounts && d.registry == db.registry
            && d.ledger.tokens.Keys == {7} && !d.ledger.tokens[7].revoked
            && d.ledger.tokens[7].client == 3 && d.ledger.tokens[7].user == 0
            && Covers(d.ledger.consents, 3, 0, {"openid"})
  {
    var a := Step(db, Connect()[0]);
    var b := Step(a, Connect()[1]);
    assert a.pending.approvals.Keys == {4} && a.next == 5;
    assert b.ledger.codes.Keys == {5} && b.next == 6 && Covers(b.ledger.consents, 3, 0, {"openid"});
  }

  lemma Connects(db: Db)
    requires db == Run(Blank(), SignUp())
    ensures var d := Run(Blank(), SignUp() + Connect());
            Connected(d, Pair(3, 0)) && Underway(d, 8, Pair(3, 0)) && d.next == 9
            && d.pending.approvals[8].code.scope == {"openid"}
  {
    SignedUp();
    var e := Connect();
    Exchanged(db);
    Step1(Blank(), SignUp(), e[0]);
    Step1(Blank(), SignUp() + [e[0]], e[1]);
    Step1(Blank(), SignUp() + [e[0]] + [e[1]], e[2]);
    Step1(Blank(), SignUp() + [e[0]] + [e[1]] + [e[2]], e[3]);
    assert SignUp() + Connect() == SignUp() + [e[0]] + [e[1]] + [e[2]] + [e[3]];
  }

  /** From the empty store: the user disconnects, which is found and shuts the pair, and the request that was
      underway ends with a live consent and a stored code nobody approved. */
  lemma OvertakenFromScratch()
    ensures var connected := SignUp() + Connect();
            var pair := Pair(3, 0);
            && Empty(Blank()) && Connected(Run(Blank(), connected), pair) && Underway(Run(Blank(), connected), 8, pair)
            && Shut(Run(Blank(), connected + [Grant(Disconnect(0, 3))]).ledger, pair)
            && var d := Run(Blank(), connected + [Grant(Disconnect(0, 3))] + [Grant(AuthorizeCommit(8))]);
               && Covers(d.ledger.consents, 3, 0, {"openid"})
               && 9 in d.ledger.codes && d.ledger.codes[9].client == 3 && d.ledger.codes[9].user == 0
  {
    var connected, pair := SignUp() + Connect(), Pair(3, 0);
    var d := Run(Blank(), connected);
    Connects(Run(Blank(), SignUp()));
    DisconnectShuts(d, pair);
    Step1(Blank(), connected, Grant(Disconnect(0, 3)));
    Step1(Blank(), connected + [Grant(Disconnect(0, 3))], Grant(AuthorizeCommit(8)));
    var after := DisconnectStep(d, 0, 3);
    assert after.pending == d.pending && after.accounts == d.accounts && after.registry == d.registry
        && after.next == 9;
    assert ApprovalHolds(after, after.pending.approvals[8]);
  }
}
