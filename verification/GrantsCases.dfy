/** Single operations of the grant store looked at closely: exactly when they take effect, and where the
    code does something other than its words suggest. */
module GrantsCases {
  import opened Options
  import opened Instants
  import opened Grants
  import opened GrantsSafety
  import opened GrantsWithdrawals

  /** A code buys one token pair: the exchange succeeds exactly under these conditions; then the code is
      gone and the same request fails for good; a failed one leaves everything as it was, so that a code
      presented with a wrong verifier or redirect URI can still be redeemed: the rollback undoes the
      deletion meant to burn it. */
  lemma ExchangeOnce(db: Db, client: Id, secret: nat, code: Id, redirect: nat, verifier: nat, wrongRedirect: nat,
      wrongVerifier: nat)
    requires Sound(db)
    ensures var d := ExchangeStep(db, client, secret, code, redirect, verifier);
            d != db <==>
              && client in db.registry.clients && !db.registry.clients[client].deleted
              && !db.registry.clients[client].suspended && db.registry.clients[client].secret.plain == secret
              && code in db.ledger.codes && db.ledger.codes[code].client == client
              && db.clock <= db.ledger.codes[code].expires && db.ledger.codes[code].redirect == redirect
              && db.ledger.codes[code].challenge == verifier
              && (db.registry.clients[client].assignedOnly ==>
                    && Pair(client, db.ledger.codes[code].user) in db.registry.assignments
                    && db.registry.assignments[Pair(client, db.ledger.codes[code].user)].active
                    && !db.registry.assignments[Pair(client, db.ledger.codes[code].user)].deleted)
    ensures var d := ExchangeStep(db, client, secret, code, redirect, verifier);
            d != db ==>
              && code !in d.ledger.codes && ExchangeStep(d, client, secret, code, redirect, verifier) == d
              && (forall i :: i in d.ledger.tokens && i !in db.ledger.tokens ==>
                    && !d.ledger.tokens[i].revoked && d.ledger.tokens[i].client == client
                    && d.ledger.tokens[i].user == db.ledger.codes[code].user
                        && d.ledger.tokens[i].scope == db.ledger.codes[code].scope)
              && |d.ledger.tokens| == |db.ledger.tokens| + 1
    ensures code in db.ledger.codes
            && (db.ledger.codes[code].redirect != wrongRedirect || db.ledger.codes[code].challenge != wrongVerifier) ==>
              ExchangeStep(ExchangeStep(db, client, secret, code, wrongRedirect, wrongVerifier), client, secret, code,
                  redirect, verifier)
              == ExchangeStep(db, client, secret, code, redirect, verifier)
  {}

  /** What a committed authorization lets pass from now on without asking again: every scope within the
      union of the one just approved and the stored one, a revoked stored one included.  Approving a
      scope therefore restores what was revoked, unless that lay within it anyway. */
  lemma ConsentAfterAuthorization(db: Db, ticket: Id, scope: Scope)
    requires Sound(db) && ticket in db.pending.approvals && ApprovalHolds(db, db.pending.approvals[ticket])
    ensures var asked := db.pending.approvals[ticket].code;
            var p := Pair(asked.client, asked.user);
            var d := AuthorizeCommitStep(db, ticket);
            && (Covers(d.ledger.consents, asked.client, asked.user, scope) <==>
                  scope != {} && scope <= asked.scope + if p in db.ledger.consents then db.ledger.consents[p].scope
                      else {})
            && ((forall s :: Covers(d.ledger.consents, asked.client, asked.user, s) ==> s <= asked.scope) <==>
                  p !in db.ledger.consents || db.ledger.consents[p].scope <= asked.scope)
  {}

  /** A connection revoked between the checks and the transaction of an authorization: the disconnect
      leaves no consent, and the commit brings one back exactly if account, session and client row still
      hold.  Whether the user approved in that request makes no difference. */
  lemma DisconnectOvertaken(db: Db, ticket: Id)
    requires Sound(db) && ticket in db.pending.approvals && Connected(db, PairOf(db.pending.approvals[ticket]))
    ensures var asked := db.pending.approvals[ticket].code;
            var d := DisconnectStep(db, asked.user, asked.client);
            var late := AuthorizeCommitStep(d, ticket);
            && (forall s :: !Covers(d.ledger.consents, asked.client, asked.user, s))
            && (Covers(late.ledger.consents, asked.client, asked.user, asked.scope) <==>
                  ApprovalHolds(db, db.pending.approvals[ticket]))
            && (Shut(late.ledger, PairOf(db.pending.approvals[ticket])) <==>
                  !ApprovalHolds(db, db.pending.approvals[ticket]))
  {
    var pair := PairOf(db.pending.approvals[ticket]);
    DisconnectShuts(db, pair);
    CommitOpens(DisconnectStep(db, pair.user, pair.client), ticket, pair);
  }

  /** An update by someone who manages the client takes effect except in two cases, one of them an
      accident: the policy cannot become assigned_only while the owner's own assignment is soft-deleted. */
  lemma UpdateClientApplies(db: Db, actor: Actor, client: Id, assignedOnly: bool, redirects: set<nat>,
      provisioned: bool)
    requires Sound(db) && Manages(db, actor, client)
    ensures var d := UpdateClientStep(db, actor, client, assignedOnly, redirects, provisioned);
            var c := db.registry.clients[client];
            var blocked := assignedOnly && Pair(client, c.owner) in db.registry.assignments
                && db.registry.assignments[Pair(client, c.owner)].deleted;
            && ((provisioned && !assignedOnly) || blocked ==> d == db)
            && (!(provisioned && !assignedOnly) && !blocked ==>
                  && d.registry.clients
                      == db.registry.clients[client := c.(assignedOnly := assignedOnly, redirects := redirects)]
                  && (forall i :: i in d.ledger.codes ==> d.ledger.codes[i].client != client)
                  && (c.assignedOnly != assignedOnly ==>
                        forall i :: i in d.ledger.tokens && d.ledger.tokens[i].client == client ==>
                            d.ledger.tokens[i].revoked)
                  && (c.assignedOnly == assignedOnly ==> d.ledger.tokens == db.ledger.tokens))
  {}

  /** How the accident comes about: an owner opens a client to everyone, drops the own assignment, and
      can then not close the client again; adding the assignment back helps. */
  lemma OwnerLockedOut(db: Db, owner: Id, redirects: set<nat>)
    requires Sound(db) && CanUse(db, owner)
    ensures var actor, client := Actor(owner, false), db.next;
            var wide := CreateClientStep(db, owner, false, redirects);
            var alone := UnassignStep(wide, actor, client, owner);
            var back := AssignStep(alone, actor, client, owner);
            && alone != wide
            && UpdateClientStep(alone, actor, client, true, redirects, false) == alone
            && UpdateClientStep(back, actor, client, true, redirects, false).registry.clients[client].assignedOnly
  {}

  /** The client exists and its owner's assignment is soft-deleted. */
  predicate OwnerOut(r: Registry, client: Id, owner: Id) {
    && client in r.clients && r.clients[client].owner == owner
    && Pair(client, owner) in r.assignments && r.assignments[Pair(client, owner)].deleted
  }

  /** Nobody can restrict the client: its owner's assignment blocks it, or its row is gone for good. */
  predicate Open(db: Db, client: Id, owner: Id) {
    OwnerOut(db.registry, client, owner) || (client < db.next && client !in db.registry.clients)
  }

  predicate Revives(e: Event, client: Id, owner: Id) {
    e.Manage? && e.manage.Assign? && e.manage.client == client && e.manage.user == owner
  }

  lemma ClientStaysOpen(db: Db, e: ClientEvent, client: Id, owner: Id)
    requires Sound(db) && Open(db, client, owner) && !Revives(Manage(e), client, owner)
    ensures Open(ClientStep(db, e), client, owner)
  {}

  lemma StaysOpen(db: Db, e: Event, client: Id, owner: Id)
    requires Sound(db) && Open(db, client, owner) && !Revives(e, client, owner)
    ensures Open(Step(db, e), client, owner)
  {
    StepFades(db, e);
    match e
    case Manage(manage) => ClientStaysOpen(db, manage, client, owner);
    case Account(account) => AccountKeepsRegistry(db, account);
    case Grant(grant) => GrantKeepsRegistry(db, grant);
    case _ =>
  }

  lemma AccountKeepsRegistry(db: Db, e: AccountEvent)
    ensures AccountStep(db, e).registry == db.registry
  {}

  lemma GrantKeepsRegistry(db: Db, e: GrantEvent)
    ensures GrantStep(db, e).registry == db.registry
  {}

  /** Nothing else helps: until somebody assigns the owner again, no update by anyone makes the client
      assigned_only, in any run. */
  lemma {:induction false} OnlyAssigningHelps(db: Db, events: seq<Event>, client: Id, owner: Id)
    requires Sound(db) && OwnerOut(db.registry, client, owner)
    requires forall k :: 0 <= k < |events| ==> !Revives(events[k], client, owner)
    ensures var d := Run(db, events);
            && Sound(d) && Open(d, client, owner)
            && (forall actor, redirects, provisioned ::
                  UpdateClientStep(d, actor, client, true, redirects, provisioned) == d)
    decreases |events|
  {
    if events != [] {
      var before := events[..|events| - 1];
      OnlyAssigningHelps(db, before, client, owner);
      StepSound(Run(db, before), events[|events| - 1]);
      StaysOpen(Run(db, before), events[|events| - 1], client, owner);
    }
  }

  /** Secret rotation: it happens exactly for the caller that knows the present version, the version goes
      up by one within 64 bits, and nothing issued under the old secret survives. */
  lemma RegenerateReplaces(db: Db, actor: Actor, client: Id, expected: Uint64)
    requires Sound(db) && Manages(db, actor, client)
    ensures var d := RegenerateStep(db, actor, client, expected);
            var version := if db.registry.clients[client].version == 0 then 1 else db.registry.clients[client].version;
            && (d != db <==> expected == version && version != MAX_VERSION)
            && (d != db ==>
                  && d.registry.clients[client].version == version + 1
                      && d.registry.clients[client].secret != db.registry.clients[client].secret
                  && (forall i :: i in d.ledger.tokens && d.ledger.tokens[i].client == client ==>
                      d.ledger.tokens[i].revoked)
                  && (forall i :: i in d.ledger.codes ==> d.ledger.codes[i].client != client))
  {}

  /** What the middleware checks beside the row itself never decides, with one exception: whatever closes an
      account, a client or an assignment has already revoked the sessions and tokens that rest on it, so
      only an operator's suspension of the client can turn away a live token, which is then revoked. */
  lemma MiddlewareRechecks(db: Db, session: Id, token: Id)
    requires Sound(db)
    ensures SignedIn(db, session) <==>
            session in db.accounts.sessions && !db.accounts.sessions[session].revoked
                && db.accounts.sessions[session].expires > db.clock
    ensures Passes(db, token) <==>
            && token in db.ledger.tokens && !db.ledger.tokens[token].revoked
            && db.ledger.tokens[token].client in db.registry.clients
                && !db.registry.clients[db.ledger.tokens[token].client].suspended
    ensures SessionCheck(db, session) == db
    ensures TokenCheck(db, token) ==
            if token in db.ledger.tokens && !db.ledger.tokens[token].revoked && !Passes(db, token)
                then DropTokenStep(db, token) else db
  {}
}
