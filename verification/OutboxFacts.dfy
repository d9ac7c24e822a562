/** What each operation of the outboxes does to a row, column by column, and to no other row. */
module OutboxFacts {
  import opened Options
  import opened Instants
  import opened Outbox

  /** A failed attempt: counted, put back with its delay, or dead after the last one or past its expiry. */
  ghost predicate PutBack(q: Queue, most: nat, seen: Row, before: Row, after: Row, now: Time) {
    && after.attempts == seen.attempts + 1 && after.failures == before.failures + 1
    && after.next == now + RetryDelay(q, seen.attempts + 1) && after.locked == None && after.updated == now
    && (after.status == Dead <==> seen.attempts + 1 >= most || (q != Provisioning && after.next >= seen.expires))
    && (after.status == Dead || after.status == Pending)
    && (after.status == Pending || q == Provisioning ==> after.payload == before.payload)
    && (after.status == Dead && q != Provisioning ==> !after.payload)
    && SameMessage(before, after) && after.delivered == before.delivered
  }

  ghost predicate SameMessage(before: Row, after: Row) {
    && after.kind == before.kind && after.user == before.user && after.expires == before.expires
    && after.key == before.key && after.created == before.created
  }

  ghost predicate OnlyRow(before: map<Id, Row>, after: map<Id, Row>, id: Id) {
    && (forall i :: i in before && i != id ==> i in after && after[i] == before[i])
    && (forall i :: i in after && i != id ==> i in before)
  }

  lemma FailExactly(d: Desk, worker: Worker)
    requires worker in d.flights
    ensures var f, d' := d.flights[worker], FailStep(d, worker);
            && OnlyRow(d.rows, d'.rows, f.id) && d'.flights == d.flights - {worker}
            && (f.id in d'.rows <==> f.id in d.rows)
            && (f.id in d.rows ==>
                  if d.rows[f.id].status == Processing
                  then PutBack(d.queue, d.most, f.seen, d.rows[f.id], d'.rows[f.id], d.clock)
                  else d'.rows[f.id] == d.rows[f.id])
  {}

  /** The backoff starts at 2 s for mail and 5 s for events, doubles, and stops at 256 s and 1280 s. */
  lemma DelaysDouble(q: Queue, attempts: nat)
    ensures RetryDelay(q, 0) == RetryDelay(q, 1) == if q == Provisioning then 5 * SECOND else 2 * SECOND
    ensures 1 <= attempts < (if q == Provisioning then 9 else 8) ==>
              RetryDelay(q, attempts + 1) == 2 * RetryDelay(q, attempts)
    ensures attempts >= (if q == Provisioning then 9 else 8) ==>
              RetryDelay(q, attempts) == if q == Provisioning then 1280 * SECOND else 256 * SECOND
  {
    assert Pow2(1) == 2 && Pow2(2) == 4 && Pow2(3) == 8 && Pow2(4) == 16;
    assert Pow2(5) == 32 && Pow2(6) == 64 && Pow2(7) == 128 && Pow2(8) == 256;
  }

  /** A settled outcome is only written over a row still in processing; the ciphertext goes with it. */
  lemma FinishExactly(d: Desk, worker: Worker, status: Status)
    requires worker in d.flights && Ends(d.queue, status)
    ensures var f, d' := d.flights[worker], FinishStep(d, worker, status);
            && OnlyRow(d.rows, d'.rows, f.id) && d'.flights == d.flights - {worker}
            && (f.id in d'.rows <==> f.id in d.rows)
            && (f.id in d.rows ==>
                  var r, r' := d.rows[f.id], d'.rows[f.id];
                  if r.status == Processing
                  then r'.status == status && !r'.payload && r'.locked == None && r'.attempts == r.attempts
                    && r'.delivered == (if status == Delivered then Some(d.clock) else None) && SameMessage(r, r')
                  else r' == r)
  {}

  /** A claim takes exactly a pending row that is due, or one whose lease has run out, leases it for a minute
      (events: half a minute), and leaves its count alone. */
  lemma ClaimExactly(d: Desk, worker: Worker, id: Id)
    requires worker !in d.flights
    ensures var d' := ClaimStep(d, worker, id);
            && OnlyRow(d.rows, d'.rows, id)
            && (worker in d'.flights <==>
                  && id in d.rows && d.rows[id].next <= d.clock
                  && (d.rows[id].status == Pending
                      || (d.rows[id].status == Processing && d.rows[id].locked.Some?
                          && d.rows[id].locked.value <= d.clock)))
            && (worker !in d'.flights ==> d' == d)
            && (worker in d'.flights ==>
                  var r, r' := d.rows[id], d'.rows[id];
                  && r'.status == Processing && r'.attempts == r.attempts && r'.payload == r.payload
                  && r'.next == r.next && SameMessage(r, r')
                  && r'.locked == Some(d.clock + if d.queue == Provisioning then 30 * SECOND else 60 * SECOND)
                  && d'.flights[worker].id == id && d'.flights[worker].seen == r)
  {}

  /** Mail is queued only with an expiry in the future (a notice gets a day), pending, due at once, uncounted;
      a new code supersedes the user's pending ones and no other row. */
  lemma EnqueueExactly(d: Desk, id: Id, user: nat, kind: Kind, at: Time)
    requires Belongs(d.queue, kind) && kind != Webhook && id !in d.drawn && d.rows.Keys <= d.drawn
    ensures var d' := EnqueueStep(d, id, user, kind, at);
            && (id in d'.rows <==> kind == Changed || at > d.clock)
            && (id !in d'.rows ==> d' == d)
            && (id in d'.rows ==>
                  var r := d'.rows[id];
                  && r.kind == kind && r.user == user && r.status == Pending && r.attempts == 0 && r.failures == 0
                  && r.next == d.clock && r.created == d.clock && r.locked == None && r.delivered == None
                  && r.expires == (if kind == Changed then at + 24 * HOUR else at) && r.payload == (kind != Changed)
                  && forall i :: i in d.rows ==>
                       && i in d'.rows && SameMessage(d.rows[i], d'.rows[i])
                       && var replaced := kind == Otp && d.rows[i].user == user && d.rows[i].kind == Otp
                            && d.rows[i].status == Pending;
                       && (replaced ==> d'.rows[i].status == Superseded && !d'.rows[i].payload)
                       && (!replaced ==> d'.rows[i] == d.rows[i]))
  {}

  /** RevokeUserResetAccess supersedes the user's pending reset links, and no row a worker holds. */
  lemma RevokeExactly(d: Desk, user: nat)
    requires d.queue == Password
    ensures var d' := Step(d, Revoke(user));
            && d'.rows.Keys == d.rows.Keys && d'.flights == d.flights
            && forall i :: i in d.rows ==>
                 if d.rows[i].user == user && d.rows[i].kind == ResetLink && d.rows[i].status == Pending
                 then d'.rows[i].status == Superseded && !d'.rows[i].payload && SameMessage(d.rows[i], d'.rows[i])
                 else d'.rows[i] == d.rows[i]
  {}

  /** The insert is skipped exactly when a row has the key already. */
  lemma EmitExactly(d: Desk, id: Id, user: nat, key: Option<Key>)
    requires d.queue == Provisioning && id !in d.drawn && d.rows.Keys <= d.drawn
    ensures var d' := EmitStep(d, id, user, key);
            && OnlyRow(d.rows, d'.rows, id)
            && (id !in d'.rows <==> key.Some? && exists i :: i in d.rows && d.rows[i].key == key)
            && (id in d'.rows ==>
                  var r := d'.rows[id];
                  && r.kind == Webhook && r.user == user && r.key == key && r.status == Pending && r.attempts == 0
                  && r.next == d.clock && r.payload && r.locked == None && r.delivered == None)
  {}

  /** The clean-up deletes exactly the mail settled for a week, and delivered events without a key after
      thirty days. */
  lemma CleanupExactly(d: Desk, i: Id)
    requires i in d.rows
    ensures var d' := Step(d, Cleanup);
            && (i in d'.rows ==> d'.rows[i] == d.rows[i])
            && (d.queue == Provisioning ==>
                  (i !in d'.rows <==>
                    && d.rows[i].status == Delivered && d.rows[i].key == None
                    && d.rows[i].delivered.Some? && d.rows[i].delivered.value < d.clock - 30 * DAY))
            && (d.queue != Provisioning ==>
                  (i !in d'.rows <==>
                    && d.rows[i].status != Pending && d.rows[i].status != Processing
                    && d.rows[i].updated < d.clock - 7 * DAY))
  {}

  /** The admin's retry takes exactly dead events, and starts their count again. */
  lemma RetryExactly(d: Desk, id: Id)
    requires d.queue == Provisioning
    ensures var d' := RetryStep(d, id);
            && OnlyRow(d.rows, d'.rows, id)
            && (id in d.rows ==>
                  && id in d'.rows && SameMessage(d.rows[id], d'.rows[id])
                  && if d.rows[id].status == Dead
                     then d'.rows[id].status == Pending && d'.rows[id].attempts == 0 && d'.rows[id].next == d.clock
                       && d'.rows[id].locked == None && d'.rows[id].payload == d.rows[id].payload
                     else d'.rows[id] == d.rows[id])
  {}
}
