/** The leased outboxes as one state machine: verification mail, password mail and provisioning events
    (backend/mailqueue, backend/passwordmailqueue, backend/provisioning).

    A Desk is one outbox table with its workers.  A worker that claims a row keeps a snapshot of it (a
    Flight) and later writes back what happened, so the snapshots are part of the state: between a
    claim and its outcome other workers may claim, finish or fail the same row. */
module Outbox {
  import opened Options
  import opened Instants

  type Id = nat
  type Worker = nat

  datatype Queue = Verification | Password | Provisioning

  datatype Kind = Otp | ResetLink | Changed | Webhook

  datatype Status = Pending | Processing | Delivered | Dead | Superseded

  /** The dedupe key "initial:" + client + ":" + user. */
  datatype Key = Key(client: nat, user: nat)

  datatype Row = Row(
    kind: Kind,
    user: nat,
    status: Status,
    attempts: nat,
    next: Time,
    locked: Option<Time>,
    expires: Time,
    payload: bool,
    delivered: Option<Time>,
    key: Option<Key>,
    created: Time,
    updated: Time,
    // Not a column: the failures written to this row since its creation or the last admin retry.
    failures: nat)

  /** A claimed row in the hands of a worker: the row as it was read, and when. */
  datatype Flight = Flight(id: Id, seen: Row, since: Time)

  datatype Desk = Desk(
    queue: Queue,
    most: nat,
    rows: map<Id, Row>,
    drawn: set<Id>,
    flights: map<Worker, Flight>,
    clock: Time)

  datatype Event =
    | Clock(to: Time)
    | Enqueue(id: Id, user: nat, kind: Kind, at: Time)
    | Emit(id: Id, user: nat, key: Option<Key>)
    | Revoke(user: nat)
    | Drop(user: nat)
    | Claim(worker: Worker, id: Id)
    | Finish(worker: Worker, status: Status)
    | Fail(worker: Worker)
    | Vanish(worker: Worker)
    | Retry(id: Id)
    | Cleanup

  function Lease(q: Queue): Time {
    if q == Provisioning then 30 * SECOND else MINUTE
  }

  /** How long one delivery can take: the HTTP client's timeout; dialling plus the SMTP deadline. */
  function Patience(q: Queue): Time {
    if q == Provisioning then 15 * SECOND else 40 * SECOND
  }

  function RetryDelay(q: Queue, attempts: nat): Time {
    var cap := if q == Provisioning then 9 else 8;
    var a := if attempts < 1 then 1 else if attempts > cap then cap else attempts;
    Pow2(a - 1) * (if q == Provisioning then 5 * SECOND else 2 * SECOND)
  }

  predicate Live(r: Row) {
    r.status == Pending || r.status == Processing
  }

  /** Kinds whose row carries a secret: a one-time code or a reset token. */
  predicate Secret(k: Kind) {
    k == Otp || k == ResetLink
  }

  predicate Belongs(q: Queue, k: Kind) {
    match q
    case Verification => k == Otp
    case Password => k == ResetLink || k == Changed
    case Provisioning => k == Webhook
  }

  /** The WHERE clause of claimOne; a comparison with NULL is not true. */
  predicate Claimable(r: Row, t: Time) {
    r.next <= t && (r.status == Pending || (r.status == Processing && r.locked.Some? && r.locked.value <= t))
  }

  /** The expression under MIN in nextWakeDelay. */
  function Ready(r: Row): Time {
    if r.status == Processing then
      var lock := r.locked.GetOr(r.next);
      if r.next >= lock then r.next else lock
    else r.next
  }

  /** The outcomes deliver writes through finish. */
  predicate Ends(q: Queue, s: Status) {
    match q
    case Verification => s == Delivered || s == Superseded
    case Password => s == Delivered || s == Superseded || s == Dead
    case Provisioning => s == Delivered
  }

  // ---------------------------------------------------------------- the steps

  function Expired(r: Row, now: Time): Row {
    r.(status := Superseded, payload := false, locked := None, updated := now)
  }

  /** UPDATE ... WHERE user_id = ? AND status = 'pending' [AND event_type = 'reset_link']. */
  function Withdrawn(rows: map<Id, Row>, user: nat, kind: Kind, now: Time): map<Id, Row> {
    map i | i in rows ::
      if rows[i].user == user && rows[i].kind == kind && rows[i].status == Pending
      then Expired(rows[i], now)
      else rows[i]
  }

  function NewRow(kind: Kind, user: nat, expires: Time, key: Option<Key>, now: Time): Row {
    Row(kind, user, Pending, 0, now, None, expires, kind != Changed, None, key, now, now, 0)
  }

  /** Enqueue, EnqueueReset and EnqueuePasswordChanged; "at" is the expiry, or the time of the change. */
  function EnqueueStep(d: Desk, id: Id, user: nat, kind: Kind, at: Time): Desk {
    var expires := if kind == Changed then at + 24 * HOUR else at;
    if !Belongs(d.queue, kind) || kind == Webhook || id in d.drawn then d
    else if kind != Changed && expires <= d.clock then d
    else
      var rows := if kind == Otp then Withdrawn(d.rows, user, Otp, d.clock) else d.rows;
      d.(rows := rows[id := NewRow(kind, user, expires, None, d.clock)], drawn := d.drawn + {id})
  }

  predicate Taken(rows: map<Id, Row>, key: Option<Key>) {
    key.Some? && exists i :: i in rows && rows[i].key == key
  }

  /** enqueue of a provisioning event: ON CONFLICT (dedupe_key) DO NOTHING. */
  function EmitStep(d: Desk, id: Id, user: nat, key: Option<Key>): Desk {
    if d.queue != Provisioning || id in d.drawn || Taken(d.rows, key) then d else
      d.(rows := d.rows[id := NewRow(Webhook, user, d.clock, key, d.clock)], drawn := d.drawn + {id})
  }

  function ClaimStep(d: Desk, worker: Worker, id: Id): Desk {
    if worker in d.flights || id !in d.rows || !Claimable(d.rows[id], d.clock) then d else
      var row := d.rows[id];
      d.(rows := d.rows[id := row.(status := Processing, locked := Some(d.clock + Lease(d.queue)), updated := d.clock)],
         flights := d.flights[worker := Flight(id, row, d.clock)])
  }

  function Finished(r: Row, status: Status, now: Time): Row {
    r.(status := status, locked := None, payload := false, updated := now,
       delivered := if status == Delivered then Some(now) else None)
  }

  /** The write is conditional on the row still being in processing; the worker is free either way. */
  function FinishStep(d: Desk, worker: Worker, status: Status): Desk {
    if worker !in d.flights || !Ends(d.queue, status) then d else
      var id := d.flights[worker].id;
      d.(flights := d.flights - {worker},
         rows := if id in d.rows && d.rows[id].status == Processing
                 then d.rows[id := Finished(d.rows[id], status, d.clock)]
                 else d.rows)
  }

  /** fail's update, computed from the snapshot. */
  function Failed(q: Queue, most: nat, r: Row, seen: Row, now: Time): Row {
    var attempts := seen.attempts + 1;
    var next := now + RetryDelay(q, attempts);
    var dead := attempts >= most || (q != Provisioning && next >= seen.expires);
    r.(status := if dead then Dead else Pending, attempts := attempts, next := next, locked := None,
       payload := r.payload && !(dead && q != Provisioning), updated := now, failures := r.failures + 1)
  }

  function FailStep(d: Desk, worker: Worker): Desk {
    if worker !in d.flights then d else
      var flight := d.flights[worker];
      d.(flights := d.flights - {worker},
         rows := if flight.id in d.rows && d.rows[flight.id].status == Processing
                 then d.rows[flight.id := Failed(d.queue, d.most, d.rows[flight.id], flight.seen, d.clock)]
                 else d.rows)
  }

  /** AdminRetryProvisioningEvent. */
  function RetryStep(d: Desk, id: Id): Desk {
    if d.queue != Provisioning || id !in d.rows || d.rows[id].status != Dead then d else
      d.(rows := d.rows[id := d.rows[id].(status := Pending, attempts := 0, next := d.clock, locked := None,
                                          updated := d.clock, failures := 0)])
  }

  predicate Stale(q: Queue, r: Row, now: Time) {
    if q == Provisioning
    then r.status == Delivered && r.key.None? && r.delivered.Some? && r.delivered.value < now - 30 * DAY
    else !Live(r) && r.updated < now - 7 * DAY
  }

  function Step(d: Desk, e: Event): Desk {
    match e
    case Clock(to) => d.(clock := to)
    case Enqueue(id, user, kind, at) => EnqueueStep(d, id, user, kind, at)
    case Emit(id, user, key) => EmitStep(d, id, user, key)
    case Revoke(user) =>
      if d.queue != Password then d else d.(rows := Withdrawn(d.rows, user, ResetLink, d.clock))
    case Drop(user) =>
      if d.queue == Provisioning then d else d.(rows := map i | i in d.rows && d.rows[i].user != user :: d.rows[i])
    case Claim(worker, id) => ClaimStep(d, worker, id)
    case Finish(worker, status) => FinishStep(d, worker, status)
    case Fail(worker) => FailStep(d, worker)
    case Vanish(worker) => d.(flights := d.flights - {worker})
    case Retry(id) => RetryStep(d, id)
    case Cleanup => d.(rows := map i | i in d.rows && !Stale(d.queue, d.rows[i], d.clock) :: d.rows[i])
  }

  function Run(d: Desk, events: seq<Event>): Desk
    decreases |events|
  {
    if events == [] then d else Step(Run(d, events[..|events| - 1]), events[|events| - 1])
  }

  /** An empty table; Configure admits at least three attempts. */
  predicate Empty(d: Desk) {
    d.rows == map[] && d.drawn == {} && d.flights == map[] && d.most >= 3
  }

  // ---------------------------------------------------------------- the wake-up timer

  const PULSE: Time := SECOND / 10
  const RECOVERY: Time := 30 * SECOND

  /** "first" is what SELECT MIN(...) over the live rows returns. */
  ghost predicate IsFirst(rows: map<Id, Row>, first: Option<Time>) {
    match first
    case None => forall i :: i in rows ==> !Live(rows[i])
    case Some(t) =>
      && (exists i :: i in rows && Live(rows[i]) && Ready(rows[i]) == t)
      && (forall i :: i in rows && Live(rows[i]) ==> t <= Ready(rows[i]))
  }

  function Delay(first: Option<Time>, now: Time): Time {
    if first.None? then RECOVERY
    else if first.value - now < PULSE then PULSE
    else if first.value - now > RECOVERY then RECOVERY
    else first.value - now
  }
}
