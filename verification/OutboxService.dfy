/** The dispatchers as they are written: one class for the three queues, whose methods read and write
    the outbox table and the snapshots their goroutines hold.  Every effect is proved to be a step of
    the machine, with arbitrary steps of other workers and handlers in between. */
module OutboxService {
  import opened Options
  import opened Instants
  import opened Outbox
  import opened OutboxSafety
  import opened OutboxFacts

  /** What the checks and the send of one delivery report. */
  datatype Report = Report(checked: bool, active: bool, sent: bool)

  /** What everyone else does before the next effect of this worker, and how that effect goes. */
  datatype Moment = Moment(before: seq<Event>, ok: bool, report: Report)

  datatype Ending = Crashed | Errored | Fine

  /** What the queries of ReconcileExistingAssignments find for a configured client. */
  datatype Target = Missing | Unrestricted | Listed(client: nat, users: seq<nat>)

  function KeysOf(client: nat, users: seq<nat>): (r: seq<Key>)
    ensures |r| == |users|
  {
    seq(|users|, k requires 0 <= k < |users| => Key(client, users[k]))
  }

  function KeysFor(t: Target): seq<Key> {
    if t.Listed? then KeysOf(t.client, t.users) else []
  }

  /** The keys of every listed assignment. */
  function Wanted(targets: seq<Target>): seq<Key> {
    if targets == [] then [] else Wanted(targets[..|targets| - 1]) + KeysFor(targets[|targets| - 1])
  }

  ghost predicate AllTaken(keys: seq<Key>, rows: map<Id, Row>) {
    forall k :: k in keys ==> Taken(rows, Some(k))
  }

  lemma AllTakenOn(keys: seq<Key>, more: seq<Key>, before: map<Id, Row>, after: map<Id, Row>)
    requires AllTaken(keys, before) && TakenKept(before, after) && AllTaken(more, after)
    ensures AllTaken(keys + more, after)
  {}

  lemma {:induction false} WantedPrefix(targets: seq<Target>, n: nat)
    requires n <= |targets|
    ensures Wanted(targets[..n]) <= Wanted(targets)
  {
    if n < |targets| {
      var init := targets[..|targets| - 1];
      WantedPrefix(init, n);
      assert init[..n] == targets[..n];
    } else {
      assert targets[..n] == targets;
    }
  }

  lemma WantedGrows(targets: seq<Target>, n: nat)
    requires n < |targets|
    ensures var keys := KeysFor(targets[n]);
            && Wanted(targets[..n + 1]) == Wanted(targets[..n]) + keys
            && |Wanted(targets[..n])| + |keys| <= |Wanted(targets)|
            && forall k :: k in keys ==> k in Wanted(targets)
  {
    assert targets[..n + 1][..n] == targets[..n];
    WantedPrefix(targets, n + 1);
    assert forall k :: k in Wanted(targets[..n + 1]) ==> k in Wanted(targets);
  }

  /** The first n clients are restricted and every assignment of theirs has its event. */
  ghost predicate Handled(targets: seq<Target>, n: nat, rows: map<Id, Row>)
    requires n <= |targets|
  {
    (forall k :: 0 <= k < n ==> targets[k].Listed?) && AllTaken(Wanted(targets[..n]), rows)
  }

  lemma HandledOn(targets: seq<Target>, n: nat, before: map<Id, Row>, after: map<Id, Row>)
    requires n < |targets| && Handled(targets, n, before) && TakenKept(before, after)
    requires targets[n].Listed? && AllTaken(KeysFor(targets[n]), after)
    ensures Handled(targets, n + 1, after)
  {
    WantedGrows(targets, n);
    AllTakenOn(Wanted(targets[..n]), KeysFor(targets[n]), before, after);
  }

  /** How many statements the clients from n on take at most: two queries each and the inserts. */
  function Effects(targets: seq<Target>, n: nat): int
    requires n <= |targets|
  {
    2 * (|targets| - n) + |Wanted(targets)| - |Wanted(targets[..n])|
  }

  lemma EffectsDrop(targets: seq<Target>, n: nat)
    requires n < |targets|
    ensures Effects(targets, n + 1) == Effects(targets, n) - 2 - |KeysFor(targets[n])|
    ensures Effects(targets, n) >= 2 + |KeysFor(targets[n])| && forall k :: k in KeysFor(targets[n]) ==>
        k in Wanted(targets)
  {
    WantedGrows(targets, n);
  }

  /** Nobody else acts. */
  predicate Alone(ms: seq<Moment>) {
    forall m :: m in ms ==> m.before == []
  }

  /** The process lives for n more effects, and no statement fails. */
  predicate Steady(ms: seq<Moment>, n: int) {
    n <= |ms| && forall m :: m in ms ==> m.ok
  }

  /** Nobody else acts, the process lives for n more effects, and no statement fails. */
  predicate Clear(ms: seq<Moment>, n: int) {
    Steady(ms, n) && Alone(ms)
  }

  /** deliver looks the code or the reset token up before it sends. */
  predicate LooksUp(q: Queue, kind: Kind) {
    q == Verification || (q == Password && kind == ResetLink)
  }

  /** An undisturbed worker whose deliveries succeed. */
  predicate Undisturbed(ms: seq<Moment>, n: int) {
    Steady(ms, n) && Alone(ms) && forall m :: m in ms ==> m.report == Report(true, true, true)
  }

  /** How an undisturbed delivery ends. */
  function Outcome(q: Queue, seen: Row, now: Time): Status {
    if q != Provisioning && seen.expires <= now then Superseded else Delivered
  }

  ghost predicate Oldest(rows: map<Id, Row>, id: Id, t: Time) {
    && id in rows && Claimable(rows[id], t)
    && (forall i :: i in rows && Claimable(rows[i], t) ==> rows[id].created <= rows[i].created)
  }

  function ReadyIds(rows: map<Id, Row>, t: Time): set<Id> {
    set i | i in rows && Claimable(rows[i], t)
  }

  /** n of the ready rows are settled, none of them younger than one that is left; the others are as they were. */
  ghost predicate Served(q: Queue, t: Time, before: map<Id, Row>, after: map<Id, Row>, n: nat) {
    var todo, left := ReadyIds(before, t), ReadyIds(after, t);
    && after.Keys == before.Keys && left <= todo && |left| + n == |todo|
    && (forall i :: i in before && i !in todo - left ==> after[i] == before[i])
    && (forall i :: i in todo - left ==>
          && Settled(q, after[i]) && after[i].status == Outcome(q, before[i], t)
              && after[i].created == before[i].created)
    && (forall i, k :: i in todo - left && k in left ==> before[i].created <= before[k].created)
  }

  lemma ServedNone(q: Queue, t: Time, rows: map<Id, Row>)
    ensures Served(q, t, rows, rows, 0)
  {}

  /** One row is claimed and its delivery ends at the same instant. */
  ghost predicate OneDone(q: Queue, t: Time, before: map<Id, Row>, id: Id, after: map<Id, Row>) {
    && Oldest(before, id, t) && after.Keys == before.Keys
    && (forall i :: i in before && i != id ==> after[i] == before[i])
    && Settled(q, after[id]) && after[id].status == Outcome(q, before[id], t) && after[id].created == before[id].created
  }

  lemma ServedOne(d: Desk, me: Worker, id: Id)
    requires me !in d.flights && Oldest(d.rows, id, d.clock)
    ensures var d' := FinishStep(ClaimStep(d, me, id), me, Outcome(d.queue, d.rows[id], d.clock));
            OneDone(d.queue, d.clock, d.rows, id, d'.rows) && d'.flights == d.flights
  {}

  lemma ServedOn(q: Queue, t: Time, a: map<Id, Row>, b: map<Id, Row>, n: nat, id: Id, c: map<Id, Row>)
    requires Served(q, t, a, b, n) && OneDone(q, t, b, id, c)
    ensures Served(q, t, a, c, n + 1)
  {
    var todo := ReadyIds(a, t);
    assert ReadyIds(c, t) == ReadyIds(b, t) - {id} && id in ReadyIds(b, t);
    assert todo - ReadyIds(c, t) == todo - ReadyIds(b, t) + {id};
    assert b[id] == a[id];
  }

  lemma PromptPrefix(d: Desk, before: seq<Event>, events: seq<Event>)
    requires before <= events && PromptRun(d, events)
    ensures PromptRun(d, before)
  {
    forall k | 0 <= k < |before| ensures Prompt(Run(d, before[..k]), before[k]) {
      assert before[..k] == events[..k] && before[k] == events[k];
    }
  }

  ghost predicate TakenKept(before: map<Id, Row>, after: map<Id, Row>) {
    forall key :: Taken(before, key) ==> Taken(after, key)
  }

  /** Old rows are untouched, and each new one has one of the keys, which no old row had. */
  ghost predicate Added(keys: seq<Key>, before: map<Id, Row>, after: map<Id, Row>) {
    && (forall i :: i in before ==> i in after && after[i] == before[i])
    && (forall i :: i in after && i !in before ==>
          after[i].key.Some? && after[i].key.value in keys && !Taken(before, after[i].key))
  }

  /** Keys that have an event keep it; without interference nothing else happens to the table. */
  ghost predicate Progress(keys: seq<Key>, before: map<Id, Row>, after: map<Id, Row>, future: seq<Moment>,
      left: seq<Moment>) {
    TakenKept(before, after) && (Alone(future) ==> Alone(left) && Added(keys, before, after))
  }

  lemma ProgressOn(keys: seq<Key>, a: map<Id, Row>, b: map<Id, Row>, more: seq<Key>, c: map<Id, Row>,
      future: seq<Moment>, then_: seq<Moment>, left: seq<Moment>)
    requires Progress(keys, a, b, future, then_) && Progress(more, b, c, then_, left) && forall k :: k in more ==>
        k in keys
    ensures Progress(keys, a, c, future, left)
  {
    if Alone(future) { AddedOn(keys, a, b, more, c); }
  }

  lemma AddedOn(keys: seq<Key>, a: map<Id, Row>, b: map<Id, Row>, more: seq<Key>, c: map<Id, Row>)
    requires Added(keys, a, b) && Added(more, b, c) && forall k :: k in more ==> k in keys
    ensures Added(keys, a, c)
  {
    assert forall key :: Taken(a, key) ==> Taken(b, key);
  }

  /** Once every assignment has its event, another start adds nothing. */
  lemma NothingToAdd(keys: seq<Key>, before: map<Id, Row>, after: map<Id, Row>)
    requires Added(keys, before, after) && AllTaken(keys, before)
    ensures after == before
  {}

  lemma EmitAdds(d: Desk, id: Id, user: nat, key: Key)
    requires Sound(d) && d.queue == Provisioning && id !in d.drawn
    ensures var d' := EmitStep(d, id, user, Some(key));
            Added([key], d.rows, d'.rows) && Taken(d'.rows, Some(key)) && TakenKept(d.rows, d'.rows)
  {
    var d' := EmitStep(d, id, user, Some(key));
    if !Taken(d.rows, Some(key)) {
      assert d'.rows[id].key == Some(key);
    }
    forall k | Taken(d.rows, k) ensures Taken(d'.rows, k) {
      TakenGrows(d.rows, d'.rows, k);
    }
  }

  lemma OthersKeepFlights(d: Desk, e: Event)
    ensures forall w :: !By(e, w) ==>
              (w in Step(d, e).flights <==> w in d.flights)
                  && (w in d.flights ==> Step(d, e).flights[w] == d.flights[w])
  {}

  lemma StepKeepsTaken(d: Desk, e: Event)
    requires Sound(d) && d.queue == Provisioning
    ensures TakenKept(d.rows, Step(d, e).rows)
  {
    forall key | Taken(d.rows, key) ensures Taken(Step(d, e).rows, key) {
      var i :| i in d.rows && d.rows[i].key == key;
      KeyStays(d, e, i);
    }
  }

  predicate By(e: Event, me: Worker) {
    match e
    case Claim(w, _) => w == me
    case Finish(w, _) => w == me
    case Fail(w) => w == me
    case Vanish(w) => w == me
    case _ => false
  }

  class Dispatcher {
    const queue: Queue
    const most: nat
    var rows: map<Id, Row>
    var drawn: set<Id>
    var nextId: Id
    var flights: map<Worker, Flight>
    var clock: Time

    // What will happen; the process dies where it ends.
    var future: seq<Moment>

    ghost var trace: seq<Event>
    ghost const origin: Desk

    ghost function State(): Desk
      reads this
    {
      Desk(queue, most, rows, drawn, flights, clock)
    }

    ghost predicate Valid()
      reads this
    {
      Empty(origin) && State() == Run(origin, trace) && forall i :: i in drawn ==> i < nextId
    }

    constructor (q: Queue, maxAttempts: nat, start: Time, moments: seq<Moment>)
      requires maxAttempts >= 3
      ensures Valid() && queue == q && most == maxAttempts && rows == map[] && clock == start && future == moments
    {
      queue, most, rows, drawn, nextId, flights := q, maxAttempts, map[], {}, 0, map[];
      clock, future, trace := start, moments, [];
      origin := Desk(q, maxAttempts, map[], {}, map[], start);
    }

    ghost method Log(e: Event, before: Desk)
      requires Empty(origin) && before == Run(origin, trace) && State() == Step(before, e)
      requires forall i :: i in drawn ==> i < nextId
      modifies `trace
      ensures Valid() && trace == old(trace) + [e]
    {
      RunLast(origin, trace, e);
      trace := trace + [e];
    }

    lemma Holds()
      requires Valid()
      ensures Sound(State())
    {
      RunsAreSound(origin, trace);
    }

    // ---------------------------------------------------------------- what handlers do

    /** Enqueue, EnqueueReset or EnqueuePasswordChanged; false is their error, which rolls back. */
    method Enqueue(user: nat, kind: Kind, at: Time) returns (ok: bool)
      requires Valid() && Belongs(queue, kind) && kind != Webhook
      modifies this`rows, this`drawn, this`nextId, this`trace
      ensures Valid() && State() == EnqueueStep(old(State()), old(nextId), user, kind, at)
      ensures ok <==> kind == Changed || at > clock
      ensures ok ==>
          old(nextId) in rows && rows[old(nextId)] == NewRow(kind, user, if kind == Changed then at + 24 * HOUR
          else at, None, clock)
      ensures ok && kind == Otp ==>
                forall i :: i in rows && rows[i].user == user && rows[i].status == Pending ==> i == old(nextId)
    {
      Holds();
      ghost var before := State();
      var id := nextId;
      var expires := if kind == Changed then at + 24 * HOUR else at;
      nextId := nextId + 1;
      if kind != Changed && expires <= clock {
        Log(Event.Enqueue(id, user, kind, at), before);
        return false;
      }
      if kind == Otp {
        rows := Withdrawn(rows, user, Otp, clock);
      }
      rows := rows[id := NewRow(kind, user, expires, None, clock)];
      drawn := drawn + {id};
      Log(Event.Enqueue(id, user, kind, at), before);
      return true;
    }

    /** enqueue of one provisioning event. */
    method Emit(user: nat, key: Option<Key>)
      requires Valid() && queue == Provisioning
      modifies this`rows, this`drawn, this`nextId, this`trace
      ensures Valid() && State() == EmitStep(old(State()), old(nextId), user, key) && nextId == old(nextId) + 1
    {
      ghost var before := State();
      var id := nextId;
      nextId := nextId + 1;
      if !Taken(rows, key) {
        rows := rows[id := NewRow(Webhook, user, clock, key, clock)];
        drawn := drawn + {id};
      }
      Log(Event.Emit(id, user, key), before);
    }

    /** ReconcileExistingAssignments: an event for every live assignment of every configured client.  A
        missing client, one that is not assigned_only or a failing statement ends it with an error, and other
        instances act before every statement.  What it has added by then stays, and stays unique, so that
        the next start only adds the rest. */
    method ReconcileExistingAssignments(me: Worker, targets: seq<Target>) returns (end: Ending, done: nat)
      requires Valid() && queue == Provisioning && me !in flights
      modifies this
      ensures Valid() && me !in flights && done <= |targets|
      ensures Progress(Wanted(targets), old(rows), rows, old(future), future)
      ensures Handled(targets, done, rows) && (end.Fine? ==> done == |targets|)
      ensures Steady(old(future), Effects(targets, 0)) && !end.Fine? ==>
                end.Errored? && done < |targets| && !targets[done].Listed?
    {
      done, end := 0, Fine;
      while done < |targets|
        invariant 0 <= done <= |targets| && Valid() && me !in flights && end.Fine?
        invariant Progress(Wanted(targets), old(rows), rows, old(future), future) && Handled(targets, done, rows)
        invariant Steady(old(future), Effects(targets, 0)) ==> Steady(future, Effects(targets, done))
      {
        EffectsDrop(targets, done);
        ghost var before, moments := rows, future;
        end := Reconcile(me, targets[done], Effects(targets, done));
        ProgressOn(Wanted(targets), old(rows), before, KeysFor(targets[done]), rows, old(future), moments, future);
        if !end.Fine? { return; }
        HandledOn(targets, done, before, rows);
        done := done + 1;
      }
    }

    /** One configured client: its row, its assignments, their events. */
    method Reconcile(me: Worker, target: Target, ghost budget: int) returns (end: Ending)
      requires Valid() && queue == Provisioning && me !in flights
      modifies this
      ensures Valid() && me !in flights && Progress(KeysFor(target), old(rows), rows, old(future), future)
      ensures end.Fine? ==> target.Listed? && AllTaken(KeysFor(target), rows)
      ensures Steady(old(future), budget) && budget >= 2 + |KeysFor(target)| ==>
                if target.Listed? then end.Fine? && Steady(future, budget - 2 - |KeysFor(target)|) else end.Errored?
    {
      var m := Await(me);
      if m.None? { return Crashed; }
      if !m.value.ok || !target.Listed? { return Errored; }
      ghost var before := rows;
      m := Await(me);
      if m.None? { return Crashed; }
      if !m.value.ok { return Errored; }
      end := EmitAll(me, target.client, target.users, budget - 2);
    }

    /** The inserts for one client. */
    method EmitAll(me: Worker, client: nat, users: seq<nat>, ghost budget: int) returns (end: Ending)
      requires Valid() && queue == Provisioning && me !in flights
      modifies this
      ensures Valid() && me !in flights && Progress(KeysOf(client, users), old(rows), rows, old(future), future)
      ensures end.Fine? ==> AllTaken(KeysOf(client, users), rows)
      ensures Steady(old(future), budget) && budget >= |users| ==> end.Fine? && Steady(future, budget - |users|)
    {
      var keys, n := KeysOf(client, users), 0;
      end := Fine;
      while n < |users|
        invariant 0 <= n <= |users| && Valid() && me !in flights && end.Fine?
        invariant Progress(keys, old(rows), rows, old(future), future)
        invariant AllTaken(keys[..n], rows)
        invariant Steady(old(future), budget) && budget >= |users| ==> Steady(future, budget - n)
      {
        ghost var before, moments := rows, future;
        end := EmitNext(me, keys[n], budget - n);
        ProgressOn(keys, old(rows), before, [keys[n]], rows, old(future), moments, future);
        if !end.Fine? { return; }
        AllTakenOn(keys[..n], [keys[n]], before, rows);
        assert keys[..n + 1] == keys[..n] + [keys[n]];
        n := n + 1;
      }
      assert keys[..n] == keys;
    }

    method EmitNext(me: Worker, key: Key, ghost budget: int) returns (end: Ending)
      requires Valid() && queue == Provisioning && me !in flights
      modifies this
      ensures Valid() && me !in flights && Progress([key], old(rows), rows, old(future), future)
      ensures end.Fine? ==> AllTaken([key], rows)
      ensures Steady(old(future), budget) && budget >= 1 ==> end.Fine? && Steady(future, budget - 1)
    {
      var m := Await(me);
      if m.None? { return Crashed; }
      if !m.value.ok { return Errored; }
      Holds();
      EmitAdds(State(), nextId, key.user, key);
      Emit(key.user, Some(key));
      end := Fine;
    }

    // ---------------------------------------------------------------- the worker

    ghost predicate Ended(e: Event)
      reads this
    {
      trace != [] && trace[|trace| - 1] == e
    }

    /** Lets everyone else act, then tells how the next effect goes; None when the process dies. */
    method Await(me: Worker) returns (m: Option<Moment>)
      requires Valid()
      modifies this
      ensures Valid()
      ensures m.None? ==> me !in flights && Ended(Vanish(me))
      ensures m.Some? ==> old(future) != [] && m.value == old(future)[0] && future == old(future)[1..]
      ensures m.None? ==> old(future) == [] && future == [] && rows == old(rows)
      ensures m.Some? && m.value.before == [] ==> State() == old(State())
      ensures old(trace) <= trace && (queue == Provisioning ==> TakenKept(old(rows), rows))
      ensures m.Some? ==> (me in flights <==> me in old(flights))
      ensures m.Some? && me in flights ==> flights[me] == old(flights)[me]
    {
      if future == [] {
        ghost var before := State();
        flights := flights - {me};
        Log(Vanish(me), before);
        return None;
      }
      var now := future[0];
      future := future[1..];
      var k := 0;
      while k < |now.before|
        invariant 0 <= k <= |now.before| && Valid() && future == old(future)[1..]
            && (k == 0 ==> State() == old(State()))
        invariant old(trace) <= trace && (queue == Provisioning ==> TakenKept(old(rows), rows))
        invariant me in flights <==> me in old(flights)
        invariant me in flights ==> flights[me] == old(flights)[me]
      {
        if !By(now.before[k], me) {
          Others(now.before[k]);
        }
        k := k + 1;
      }
      return Some(now);
    }

    /** A step of another worker, a handler or the clock. */
    method Others(e: Event)
      requires Valid()
      modifies this`rows, this`drawn, this`nextId, this`flights, this`clock, this`trace
      ensures Valid() && State() == Step(old(State()), e) && trace == old(trace) + [e]
      ensures queue == Provisioning ==> TakenKept(old(rows), rows)
      ensures forall w :: !By(e, w) ==>
          (w in flights <==> w in old(flights)) && (w in flights ==> flights[w] == old(flights)[w])
    {
      ghost var before := State();
      OthersKeepFlights(before, e);
      assert queue == Provisioning ==> TakenKept(rows, Step(before, e).rows) by {
        Holds();
        if queue == Provisioning { StepKeepsTaken(before, e); }
      }
      var next := Step(Desk(queue, most, rows, drawn, flights, clock), e);
      rows, drawn, flights, clock := next.rows, next.drawn, next.flights, next.clock;
      if e.Enqueue? || e.Emit? {
        nextId := nextId + e.id + 1;
      }
      Log(e, before);
    }

    /** claimOne: the oldest row that can be claimed. */
    method ClaimOne(me: Worker) returns (end: Ending, claimed: bool)
      requires Valid() && me !in flights
      modifies this
      ensures Valid() && old(trace) <= trace && (me in flights <==> claimed) && (claimed ==> end.Fine?)
      ensures claimed ==>
                var f := flights[me];
                && f.since == clock && Claimable(f.seen, clock)
                && f.id in rows && rows[f.id] == f.seen.(status := Processing, locked := Some(clock + Lease(queue)),
                    updated := clock)
                && (forall i :: i in rows && i != f.id && Claimable(rows[i], clock) ==>
                    f.seen.created <= rows[i].created)
      ensures end.Fine? && !claimed ==> !Waiting(rows, clock)
      ensures Undisturbed(old(future), 1) ==>
                && end.Fine? && future == old(future)[1..]
                && (claimed ==>
                      && Oldest(old(rows), flights[me].id, clock) && flights[me].seen == old(rows)[flights[me].id]
                      && State() == ClaimStep(old(State()), me, flights[me].id))
                && (!claimed ==> State() == old(State()))
    {
      var m := Await(me);
      if m.None? { return Crashed, false; }
      if !m.value.ok { return Errored, false; }
      var found := OldestClaimable();
      if found.None? { return Fine, false; }
      TakeRow(me, found.value);
      return Fine, true;
    }

    /** ORDER BY created_at ASC LIMIT 1 over the rows that can be claimed. */
    method OldestClaimable() returns (found: Option<Id>)
      ensures found.None? ==> !Waiting(rows, clock)
      ensures found.Some? ==> Oldest(rows, found.value, clock)
    {
      found := None;
      var rest := rows.Keys;
      while rest != {}
        invariant rest <= rows.Keys
        invariant found.Some? ==> found.value in rows && Claimable(rows[found.value], clock)
        invariant forall i :: i in rows && i !in rest && Claimable(rows[i], clock) ==>
                    found.Some? && rows[found.value].created <= rows[i].created
        decreases |rest|
      {
        var i :| i in rest;
        rest := rest - {i};
        if Claimable(rows[i], clock) && (found.None? || rows[i].created < rows[found.value].created) {
          found := Some(i);
        }
      }
    }

    /** The lease is written, and the worker keeps the row as it was read. */
    method TakeRow(me: Worker, id: Id)
      requires Valid() && me !in flights && id in rows && Claimable(rows[id], clock)
      modifies this`rows, this`flights, this`trace
      ensures Valid() && State() == ClaimStep(old(State()), me, id) && old(trace) <= trace
      ensures flights[me] == Flight(id, old(rows)[id], clock)
    {
      ghost var before := State();
      flights := flights[me := Flight(id, rows[id], clock)];
      rows := rows[id := rows[id].(status := Processing, locked := Some(clock + Lease(queue)), updated := clock)];
      Log(Claim(me, id), before);
    }

    /** finish, or provisioning's final update; a write that fails is only logged. */
    method Finish(me: Worker, status: Status) returns (end: Ending)
      requires Valid() && me in flights && Ends(queue, status)
      modifies this
      ensures Valid() && me !in flights && old(trace) <= trace
      ensures end.Fine? ==> Ended(Event.Finish(me, status))
      ensures !end.Fine? ==> Ended(Vanish(me))
      ensures Clear(old(future), 1) ==>
                end.Fine? && future == old(future)[1..] && State() == FinishStep(old(State()), me, status)
    {
      var m := Await(me);
      if m.None? { return Crashed; }
      ghost var before := State();
      var id := flights[me].id;
      flights := flights - {me};
      if !m.value.ok {
        Log(Vanish(me), before);
        return Errored;
      }
      if id in rows && rows[id].status == Processing {
        rows := rows[id := Finished(rows[id], status, clock)];
      }
      Log(Event.Finish(me, status), before);
      return Fine;
    }

    method Fail(me: Worker) returns (end: Ending)
      requires Valid() && me in flights
      modifies this
      ensures Valid() && me !in flights && old(trace) <= trace
      ensures end.Fine? ==> Ended(Event.Fail(me))
      ensures !end.Fine? ==> Ended(Vanish(me))
      ensures Clear(old(future), 1) ==>
                end.Fine? && future == old(future)[1..] && State() == FailStep(old(State()), me)
    {
      var m := Await(me);
      if m.None? { return Crashed; }
      ghost var before := State();
      var item := flights[me];
      flights := flights - {me};
      if !m.value.ok {
        Log(Vanish(me), before);
        return Errored;
      }
      if item.id in rows && rows[item.id].status == Processing {
        var attempts := item.seen.attempts + 1;
        var next := clock + RetryDelay(queue, attempts);
        var row := rows[item.id];
        row := row.(status := Pending, attempts := attempts, next := next, locked := None, updated := clock,
            failures := row.failures + 1);
        if attempts >= most || (queue != Provisioning && next >= item.seen.expires) {
          row := row.(status := Dead);
          if queue != Provisioning {
            row := row.(payload := false);
          }
        }
        rows := rows[item.id := row];
      }
      Log(Event.Fail(me), before);
      return Fine;
    }

    /** The checks of one delivery, made at one instant: go on to the send, or how it ends without one. */
    method Check(me: Worker) returns (end: Ending, checkedAt: Option<Time>)
      requires Valid() && me in flights
      modifies this
      ensures Valid() && old(trace) <= trace
      ensures checkedAt.Some? ==>
                && end.Fine? && me in flights && flights[me] == old(flights)[me] && checkedAt.value == clock
                && (queue != Provisioning ==> clock < flights[me].seen.expires)
      ensures checkedAt.Some? ==>
                && old(future) != [] && future == old(future)[1..]
                && (LooksUp(queue, flights[me].seen.kind) ==>
                      old(future)[0].report.checked && old(future)[0].report.active)
      ensures checkedAt.None? ==> me !in flights
      ensures end.Fine? && checkedAt.None? ==>
                Ended(Event.Fail(me)) || (queue != Provisioning && Ended(Event.Finish(me, Superseded)))
      ensures Clear(old(future), 2) ==>
                var seen, report := old(flights)[me].seen, old(future)[0].report;
                var expired, looksUp := queue != Provisioning && seen.expires <= clock, LooksUp(queue, seen.kind);
                && end.Fine? && (checkedAt.Some? <==> !expired && (looksUp ==> report.checked && report.active))
                && (checkedAt.Some? ==> State() == old(State()))
                && (checkedAt.None? ==>
                      && future == old(future)[2..]
                      && State() == if looksUp && !report.checked && !(queue == Password && expired)
                           then FailStep(old(State()), me) else FinishStep(old(State()), me, Superseded))
    {
      checkedAt := None;
      var m := Await(me);
      if m.None? { return Crashed, None; }
      var seen, report := flights[me].seen, m.value.report;
      var expired := queue != Provisioning && seen.expires <= clock;
      var looksUp := LooksUp(queue, seen.kind);
      if queue == Password && expired {
        end := Finish(me, Superseded);
      } else if looksUp && !report.checked {
        end := Fail(me);
      } else if (looksUp && !report.active) || expired {
        end := Finish(me, Superseded);
      } else {
        return Fine, Some(clock);
      }
    }

    /** deliver of the three queues.  A send only starts before its row expires, and never for a code or a
        reset token found inactive; the message itself may leave as late as the patience of a delivery
        allows.  "Delivered" is recorded only after the message left, so a message may leave twice, but a row
        never settles as delivered without one. */
    method Deliver(me: Worker) returns (end: Ending, checkedAt: Option<Time>, sentAt: Option<Time>)
      requires Valid() && me in flights
      modifies this
      ensures Valid() && me !in flights && old(trace) <= trace
      ensures sentAt.Some? ==> checkedAt.Some?
      ensures checkedAt.Some? && queue != Provisioning ==> checkedAt.value < old(flights)[me].seen.expires
      ensures sentAt.Some? && PromptRun(origin, trace) ==> sentAt.value <= old(flights)[me].since + Patience(queue)
      ensures checkedAt.Some? ==>
                && old(future) != []
                && (LooksUp(queue, old(flights)[me].seen.kind) ==>
                      old(future)[0].report.checked && old(future)[0].report.active)
      ensures checkedAt.Some? && |old(future)| >= 2 ==> (sentAt.Some? <==> old(future)[1].report.sent)
      ensures end.Fine? && sentAt.Some? ==> Ended(Event.Finish(me, Delivered))
      ensures end.Fine? && checkedAt.Some? && sentAt.None? ==> Ended(Event.Fail(me))
      ensures end.Fine? && sentAt.None? ==>
                Ended(Event.Fail(me)) || (queue != Provisioning && Ended(Event.Finish(me, Superseded)))
      ensures Clear(old(future), 3) && checkedAt.Some? ==>
                && end.Fine? && future == old(future)[3..]
                && State() == if sentAt.Some? then FinishStep(old(State()), me, Delivered)
                              else FailStep(old(State()), me)
      ensures Clear(old(future), 3) && checkedAt.Some? && sentAt.None? ==>
                var f := old(flights)[me];
                f.id in old(rows) && old(rows)[f.id].status == Processing ==>
                  f.id in rows && PutBack(queue, most, f.seen, old(rows)[f.id], rows[f.id], clock)
      ensures Undisturbed(old(future), 3) ==>
                && end.Fine? && Undisturbed(future, |old(future)| - 3)
                && State() == FinishStep(old(State()), me, Outcome(queue, old(flights)[me].seen, clock))
    {
      sentAt := None;
      end, checkedAt := Check(me);
      if checkedAt.None? { return; }
      var m := Await(me);
      if m.None? { return Crashed, checkedAt, None; }
      if !m.value.report.sent {
        ghost var before := State();
        FailExactly(before, me);
        end := Fail(me);
        return;
      }
      sentAt := Some(clock);
      ghost var sofar := trace;
      if PromptRun(origin, sofar) { PromptRunsAreExclusive(origin, sofar); }
      end := Finish(me, Delivered);
      if PromptRun(origin, trace) { PromptPrefix(origin, sofar, trace); }
    }

    /** dispatchBatch: up to a hundred rows; it stops early only on an error or when nothing is ready.
        Undisturbed and with sends that succeed, it settles the hundred oldest of the rows that are ready, and
        all of them if there are no more. */
    method DispatchBatch(me: Worker) returns (end: Ending, handled: nat)
      requires Valid() && me !in flights
      modifies this
      ensures Valid() && me !in flights && handled <= 100
      ensures end.Fine? && handled < 100 ==> !Waiting(rows, clock)
      ensures Undisturbed(old(future), 401) ==>
                && end.Fine? && clock == old(clock) && flights == old(flights)
                && Served(queue, clock, old(rows), rows, handled)
                && (handled == 100 || ReadyIds(rows, clock) == {})
    {
      handled, end := 0, Fine;
      ServedNone(queue, clock, rows);
      while handled < 100
        invariant Valid() && me !in flights && handled <= 100 && end.Fine?
        invariant Undisturbed(old(future), 401) ==>
                    && Undisturbed(future, 401 - 4 * handled) && clock == old(clock) && flights == old(flights)
                    && Served(queue, clock, old(rows), rows, handled)
      {
        ghost var before := rows;
        var served: bool;
        ghost var id;
        end, served, id := ServeNext(me);
        if !end.Fine? || !served { return; }
        if Undisturbed(old(future), 401) {
          ServedOn(queue, clock, old(rows), before, handled, id, rows);
        }
        handled := handled + 1;
      }
    }

    /** One round of the batch; how the delivery itself ends does not stop it. */
    method ServeNext(me: Worker) returns (end: Ending, served: bool, ghost id: Id)
      requires Valid() && me !in flights
      modifies this
      ensures Valid() && me !in flights && (served ==> end.Fine?)
      ensures end.Fine? && !served ==> !Waiting(rows, clock)
      ensures Undisturbed(old(future), 4) ==>
                && end.Fine? && clock == old(clock) && flights == old(flights)
                && (if served then Undisturbed(future, |old(future)| - 4) && OneDone(queue, clock, old(rows), id, rows)
                    else rows == old(rows))
    {
      ghost var before := State();
      id := 0;
      end, served := ClaimOne(me);
      if !end.Fine? || !served { return; }
      id := flights[me].id;
      var _, _, _ := Deliver(me);
      if Undisturbed(old(future), 4) { ServedOne(before, me, id); }
    }

    /** nextWakeDelay: between 100 ms and 30 s, late by at most 100 ms, early only for recovery. */
    method NextWakeDelay() returns (delay: Time)
      requires Valid()
      ensures PULSE <= delay <= RECOVERY
      ensures forall t :: clock <= t && Waiting(rows, t) ==> clock + delay <= t + PULSE
      ensures delay < RECOVERY ==> Waiting(rows, clock + delay)
    {
      Holds();
      var first: Option<Time> := None;
      var rest := rows.Keys;
      while rest != {}
        invariant rest <= rows.Keys
        invariant first.None? ==> forall i :: i in rows && i !in rest ==> !Live(rows[i])
        invariant first.Some? ==>
                    && (exists i :: i in rows && Live(rows[i]) && Ready(rows[i]) == first.value)
                    && (forall i :: i in rows && i !in rest && Live(rows[i]) ==> first.value <= Ready(rows[i]))
        decreases |rest|
      {
        var i :| i in rest;
        rest := rest - {i};
        if Live(rows[i]) && (first.None? || Ready(rows[i]) < first.value) {
          first := Some(Ready(rows[i]));
        }
      }
      WakeInTime(State(), first, clock);
      if first.None? { return RECOVERY; }
      delay := first.value - clock;
      if delay < PULSE { return PULSE; }
      if delay > RECOVERY { return RECOVERY; }
    }

    /** AdminRetryProvisioningEvent; false is its 404. */
    method Retry(id: Id) returns (found: bool)
      requires Valid() && queue == Provisioning
      modifies this`rows, this`trace
      ensures Valid() && State() == RetryStep(old(State()), id)
      ensures found <==> id in old(rows) && old(rows)[id].status == Dead
      ensures found ==> Claimable(rows[id], clock) && rows[id].attempts == 0
    {
      Holds();
      ghost var before := State();
      found := id in rows && rows[id].status == Dead;
      if found {
        rows := rows[id := rows[id].(status := Pending, attempts := 0, next := clock, locked := None, updated := clock,
            failures := 0)];
      }
      Log(Event.Retry(id), before);
    }
  }

  lemma TakenGrows(a: map<Id, Row>, b: map<Id, Row>, key: Option<Key>)
    requires forall i :: i in a ==> i in b && b[i] == a[i]
    ensures Taken(a, key) ==> Taken(b, key)
  {}
}
