/** Assignments for the owners of clients older than the assignment table, when the program starts
    (backend/database/database.go). */
module OwnerBackfill {
  import opened Grants
  import opened GrantsSafety

  /** Some assignment row of the client exists, soft-deleted ones included. */
  ghost predicate HasRow(assignments: map<Pair, Assignment>, client: Id) {
    exists p :: p in assignments && p.client == client
  }

  /** The rows once every client outside the rest has been looked at; the query skips soft-deleted clients. */
  ghost predicate FilledBut(r: Registry, rest: set<Id>, after: map<Pair, Assignment>) {
    && (forall p :: p in r.assignments ==> p in after && after[p] == r.assignments[p])
    && (forall p :: p in after && p !in r.assignments ==>
          && ClientLive(r, p.client) && p.client !in rest && !HasRow(r.assignments, p.client)
          && p.user == r.clients[p.client].owner && after[p] == Assignment(true, false))
    && (forall c :: ClientLive(r, c) && c !in rest ==> HasRow(after, c))
  }

  ghost predicate Filled(r: Registry, after: map<Pair, Assignment>) {
    FilledBut(r, {}, after)
  }

  function RowsOf(assignments: map<Pair, Assignment>, client: Id): set<Pair> {
    set p | p in assignments && p.client == client
  }

  lemma CountsRows(assignments: map<Pair, Assignment>, client: Id)
    ensures |RowsOf(assignments, client)| == 0 <==> !HasRow(assignments, client)
  {
    if p :| p in assignments && p.client == client {
      assert p in RowsOf(assignments, client);
    } else {
      assert RowsOf(assignments, client) == {};
    }
  }

  lemma FillOne(r: Registry, rest: set<Id>, c: Id, after: map<Pair, Assignment>)
    requires FilledBut(r, rest + {c}, after) && ClientLive(r, c) && c !in rest
    ensures FilledBut(r, rest, if HasRow(after, c) then after
        else after[Pair(c, r.clients[c].owner) := Assignment(true, false)])
  {}

  /** backfillOAuthClientOwnerAssignments. */
  method BackfillOwners(r: Registry) returns (assignments: map<Pair, Assignment>)
    ensures Filled(r, assignments)
    ensures forall p :: p in r.assignments ==> p in assignments && assignments[p] == r.assignments[p]
    ensures forall p :: p in assignments && p !in r.assignments ==>
              && p.client in r.clients && !r.clients[p.client].deleted && p.user == r.clients[p.client].owner
              && assignments[p].active && !assignments[p].deleted
              && forall q :: q in r.assignments ==> q.client != p.client
    ensures forall c :: c in r.clients && !r.clients[c].deleted ==>
              Pair(c, r.clients[c].owner) in assignments || exists p :: p in r.assignments && p.client == c
  {
    assignments := r.assignments;
    var rest := set c | c in r.clients && !r.clients[c].deleted;
    while rest != {}
      invariant (forall c :: c in rest ==> ClientLive(r, c)) && FilledBut(r, rest, assignments)
      decreases |rest|
    {
      var c :| c in rest;
      assert rest == rest - {c} + {c};
      rest := rest - {c};
      FillOne(r, rest, c, assignments);
      CountsRows(assignments, c);
      if |RowsOf(assignments, c)| == 0 {
        assignments := assignments[Pair(c, r.clients[c].owner) := Assignment(true, false)];
      }
    }
    forall c | c in r.clients && !r.clients[c].deleted
      ensures Pair(c, r.clients[c].owner) in assignments || exists p :: p in r.assignments && p.client == c
    {
      assert HasRow(assignments, c);
      var p :| p in assignments && p.client == c;
    }
  }

  /** Afterwards the owners of clients for assigned users are assigned exactly when they were in every
      client that had an assignment row at all: a soft-deleted row is enough to be passed over. */
  lemma BackfillAssigns(r: Registry, after: map<Pair, Assignment>)
    requires Filled(r, after)
    ensures OwnersAssigned(r.(assignments := after)) <==>
            forall c :: ClientLive(r, c) && r.clients[c].assignedOnly && HasRow(r.assignments, c)
              ==> AssignmentLive(r.assignments, c, r.clients[c].owner)
  {
    forall c | ClientLive(r, c)
      ensures AssignmentLive(after, c, r.clients[c].owner) <==>
              !HasRow(r.assignments, c) || AssignmentLive(r.assignments, c, r.clients[c].owner)
    {
      var p :| p in after && p.client == c;
      assert Pair(c, r.clients[c].owner) in r.assignments ==> HasRow(r.assignments, c);
    }
  }

  /** No grant loses what it rests on. */
  lemma BackfillKeepsGrants(users: map<Id, User>, r: Registry, l: Ledger, after: map<Pair, Assignment>)
    requires Filled(r, after) && LedgerSound(users, r, l)
    ensures LedgerSound(users, r.(assignments := after), l)
  {}
}
