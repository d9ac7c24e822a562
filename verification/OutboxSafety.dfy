/** What the outboxes keep over every run: settled rows are final, secrets live exactly as long as
    their row, the wake-up query agrees with the claim query, and, when deliveries end inside their
    lease, one holder per row and an exact count of the failures. */
module OutboxSafety {
  import opened Options
  import opened Instants
  import opened Outbox

  // ---------------------------------------------------------------- every run, overlapping workers included

  predicate RowSound(q: Queue, most: nat, r: Row) {
    && Belongs(q, r.kind)
    && (Live(r) ==> r.attempts < most)
    && (r.locked.Some? <==> r.status == Processing)
    && (r.delivered.Some? <==> r.status == Delivered)
    && (r.kind == Webhook ==> r.status != Superseded)
    && (Secret(r.kind) && Live(r) ==> r.next < r.expires)
    && (r.payload <==> (Secret(r.kind) && Live(r)) || (r.kind == Webhook && r.status != Delivered))
    && (q != Provisioning ==> r.key.None? && r.attempts <= r.failures)
  }

  ghost predicate RowsSound(d: Desk) {
    forall i :: i in d.rows ==> RowSound(d.queue, d.most, d.rows[i])
  }

  /** A snapshot and the row it was taken from agree on what never changes. */
  ghost predicate FlightsSound(d: Desk) {
    forall w :: w in d.flights ==>
      var f := d.flights[w];
      && f.id in d.drawn
      && f.seen.attempts < d.most
      && (f.id in d.rows ==> d.rows[f.id].expires == f.seen.expires)
      && (f.id in d.rows && d.queue != Provisioning ==> f.seen.attempts <= d.rows[f.id].failures)
  }

  ghost predicate KeysUnique(d: Desk) {
    forall i, k :: i in d.rows && k in d.rows && d.rows[i].key.Some? && d.rows[i].key == d.rows[k].key ==> i == k
  }

  ghost predicate Sound(d: Desk) {
    d.most >= 3 && d.rows.Keys <= d.drawn && RowsSound(d) && FlightsSound(d) && KeysUnique(d)
  }

  predicate ByWorker(e: Event) {
    e.Claim? || e.Finish? || e.Fail? || e.Vanish?
  }

  lemma WorkersKeepRows(d: Desk, e: Event)
    requires Sound(d) && ByWorker(e)
    ensures RowsSound(Step(d, e))
  {}

  lemma OthersKeepRows(d: Desk, e: Event)
    requires Sound(d) && !ByWorker(e)
    ensures RowsSound(Step(d, e))
  {}

  lemma RowsStay(d: Desk, e: Event)
    requires Sound(d)
    ensures RowsSound(Step(d, e))
  {
    if ByWorker(e) { WorkersKeepRows(d, e); } else { OthersKeepRows(d, e); }
  }

  lemma FlightsStay(d: Desk, e: Event)
    requires Sound(d)
    ensures FlightsSound(Step(d, e))
  {}

  lemma KeysStay(d: Desk, e: Event)
    requires Sound(d)
    ensures KeysUnique(Step(d, e)) && Step(d, e).rows.Keys <= Step(d, e).drawn
  {}

  lemma StepSound(d: Desk, e: Event)
    requires Sound(d)
    ensures Sound(Step(d, e))
  {
    RowsStay(d, e);
    FlightsStay(d, e);
    KeysStay(d, e);
  }

  lemma {:induction false} RunsAreSound(d: Desk, events: seq<Event>)
    requires Empty(d)
    ensures Sound(Run(d, events))
    decreases |events|
  {
    if events != [] {
      RunsAreSound(d, events[..|events| - 1]);
      StepSound(Run(d, events[..|events| - 1]), events[|events| - 1]);
    }
  }

  lemma {:induction false} SoundRunsStaySound(d: Desk, events: seq<Event>)
    requires Sound(d)
    ensures Sound(Run(d, events))
    decreases |events|
  {
    if events != [] {
      SoundRunsStaySound(d, events[..|events| - 1]);
      StepSound(Run(d, events[..|events| - 1]), events[|events| - 1]);
    }
  }

  /** Whatever overlaps, a row that can still be sent has attempts left and, when it carries a secret,
      its next attempt before the secret expires; the ciphertext is there exactly while the row is live. */
  lemma EveryRunKeepsRows(d: Desk, events: seq<Event>, i: Id)
    requires Empty(d) && i in Run(d, events).rows
    ensures var d' := Run(d, events);
            var r := d'.rows[i];
            && (Live(r) ==> r.attempts < d'.most)
            && (Secret(r.kind) && Live(r) ==> r.next < r.expires)
            && (Secret(r.kind) ==> (r.payload <==> Live(r)))
            && (r.kind == Webhook ==> (r.payload <==> r.status != Delivered))
            && (r.kind == Changed ==> !r.payload)
            && (r.locked.Some? <==> r.status == Processing)
            && (r.delivered.Some? <==> r.status == Delivered)
  {
    RunsAreSound(d, events);
  }

  /** Statuses no step leaves: for mail every status that is not live, for events only delivery. */
  predicate Settled(q: Queue, r: Row) {
    if q == Provisioning then r.status == Delivered else !Live(r)
  }

  lemma {:induction false} SettledStays(d: Desk, events: seq<Event>, i: Id)
    requires i in d.drawn && d.rows.Keys <= d.drawn
    requires i in d.rows ==> Settled(d.queue, d.rows[i])
    ensures var d' := Run(d, events);
            && d'.queue == d.queue && i in d'.drawn
            && (i in d'.rows ==> i in d.rows && d'.rows[i] == d.rows[i])
    decreases |events|
  {
    if events != [] {
      SettledStays(d, events[..|events| - 1], i);
    }
  }

  /** A dead event leaves that status only through the admin's retry. */
  lemma DeadWaitsForRetry(d: Desk, e: Event, i: Id)
    requires Sound(d) && i in d.rows && d.rows[i].status == Dead && i in Step(d, e).rows
    ensures Step(d, e).rows[i] == d.rows[i] || (e == Retry(i) && Step(d, e).rows[i].status == Pending)
  {}

  // ---------------------------------------------------------------- waking up

  /** The wake-up expression and the claim condition agree, at every instant, on every stored row. */
  lemma ClaimableWhenReady(d: Desk, events: seq<Event>, i: Id, t: Time)
    requires Empty(d) && i in Run(d, events).rows
    ensures var r := Run(d, events).rows[i];
            Claimable(r, t) <==> Live(r) && Ready(r) <= t
  {}

  predicate Waiting(rows: map<Id, Row>, t: Time) {
    exists i :: i in rows && Claimable(rows[i], t)
  }

  /** The timer set at "now" rings between 100 ms and 30 s later.  It rings at most 100 ms after the
      first stored row can be claimed, and it never rings early: unless it is the 30 s recovery round,
      a row can be claimed when it rings. */
  lemma WakeInTime(d: Desk, first: Option<Time>, now: Time)
    requires Sound(d) && IsFirst(d.rows, first)
    ensures var ring := now + Delay(first, now);
            && now + PULSE <= ring <= now + RECOVERY
            && (forall t :: now <= t && Waiting(d.rows, t) ==> ring <= t + PULSE)
            && (ring < now + RECOVERY ==> Waiting(d.rows, ring))
  {
    var ring := now + Delay(first, now);
    forall t | now <= t && Waiting(d.rows, t) ensures ring <= t + PULSE {
      var i :| i in d.rows && Claimable(d.rows[i], t);
      assert Live(d.rows[i]) && Ready(d.rows[i]) <= t;
    }
    if ring < now + RECOVERY {
      var i :| i in d.rows && Live(d.rows[i]) && Ready(d.rows[i]) == first.value;
      assert Claimable(d.rows[i], ring);
    }
  }

  // ---------------------------------------------------------------- deliveries that end inside their lease

  /** The clock does not pass a flight's patience: every delivery has ended by then. */
  ghost predicate Prompt(d: Desk, e: Event) {
    e.Clock? ==> forall w :: w in d.flights ==> e.to <= d.flights[w].since + Patience(d.queue)
  }

  ghost predicate PromptRun(d: Desk, events: seq<Event>) {
    forall k :: 0 <= k < |events| ==> Prompt(Run(d, events[..k]), events[k])
  }

  ghost predicate OneHolder(d: Desk) {
    forall v, w :: v in d.flights && w in d.flights && d.flights[v].id == d.flights[w].id ==> v == w
  }

  /** A held row is leased to its holder and has not been counted since it was read. */
  ghost predicate Leased(d: Desk) {
    forall w :: w in d.flights ==> LeasedTo(d, d.flights[w])
  }

  predicate LeasedTo(d: Desk, f: Flight) {
    && d.clock <= f.since + Patience(d.queue)
    && (f.id in d.rows ==>
          && d.rows[f.id].status == Processing
          && d.rows[f.id].locked == Some(f.since + Lease(d.queue))
          && d.rows[f.id].attempts == f.seen.attempts)
  }

  ghost predicate Counted(d: Desk) {
    forall i :: i in d.rows ==> d.rows[i].attempts == d.rows[i].failures
  }

  ghost predicate Exclusive(d: Desk) {
    Sound(d) && OneHolder(d) && Leased(d) && Counted(d)
  }

  /** Nobody can claim a row that is held: a delivery's patience is shorter than the lease. */
  lemma HeldIsNotClaimable(d: Desk, f: Flight)
    requires LeasedTo(d, f) && f.id in d.rows
    ensures !Claimable(d.rows[f.id], d.clock)
  {}

  lemma LeaseStays(d: Desk, e: Event, w: Worker)
    requires OneHolder(d) && Leased(d) && Prompt(d, e) && d.rows.Keys <= d.drawn && w in d.flights
        && d.flights[w].id in d.drawn
    ensures w in Step(d, e).flights ==> LeasedTo(Step(d, e), Step(d, e).flights[w])
  {
    var f := d.flights[w];
    assert LeasedTo(d, f);
    match e
    case Claim(_, id) =>
      if id == f.id && id in d.rows { HeldIsNotClaimable(d, f); }
    case _ =>
  }

  lemma LeasedStays(d: Desk, e: Event)
    requires Exclusive(d) && Prompt(d, e)
    ensures Leased(Step(d, e))
  {
    forall w | w in d.flights ensures w in Step(d, e).flights ==> LeasedTo(Step(d, e), Step(d, e).flights[w]) {
      LeaseStays(d, e, w);
    }
    assert forall w :: w in Step(d, e).flights && w !in d.flights ==> e.Claim? && e.worker == w;
  }

  lemma OneHolderStays(d: Desk, e: Event)
    requires Exclusive(d) && Prompt(d, e)
    ensures OneHolder(Step(d, e)) && Counted(Step(d, e))
  {
    match e
    case Claim(worker, id) =>
      forall w | w in d.flights && d.flights[w].id == id && id in d.rows
        ensures !Claimable(d.rows[id], d.clock)
      {
        HeldIsNotClaimable(d, d.flights[w]);
      }
    case _ =>
  }

  lemma {:induction false} PromptRunsAreExclusive(d: Desk, events: seq<Event>)
    requires Empty(d) && PromptRun(d, events)
    ensures Exclusive(Run(d, events))
    decreases |events|
  {
    if events != [] {
      var before := events[..|events| - 1];
      forall k | 0 <= k < |before| ensures Prompt(Run(d, before[..k]), before[k]) {
        assert before[..k] == events[..k];
      }
      PromptRunsAreExclusive(d, before);
      var e := events[|events| - 1];
      StepSound(Run(d, before), e);
      LeasedStays(Run(d, before), e);
      OneHolderStays(Run(d, before), e);
    }
  }

  /** When every delivery ends in time, no two workers hold a row, "attempts" is the exact number of
      failures since creation or retry, and so no row fails more often than Configure allows. */
  lemma EveryPromptRunIsExact(d: Desk, events: seq<Event>)
    requires Empty(d) && PromptRun(d, events)
    ensures var d' := Run(d, events);
            && (forall v, w :: v in d'.flights && w in d'.flights && d'.flights[v].id == d'.flights[w].id ==> v == w)
            && (forall i :: i in d'.rows ==> d'.rows[i].attempts == d'.rows[i].failures)
            && (forall i :: i in d'.rows && Live(d'.rows[i]) ==> d'.rows[i].failures < d'.most)
  {
    PromptRunsAreExclusive(d, events);
  }

  lemma RunLast(d: Desk, trace: seq<Event>, e: Event)
    ensures Run(d, trace + [e]) == Step(Run(d, trace), e)
  {}

  function LateStory(q: Queue): seq<Event> {
    var first := if q == Provisioning then Emit(0, 7, None)
        else Enqueue(0, 7, if q == Verification then Otp else ResetLink, DAY);
    [first] + [Claim(1, 0)] + [Clock(Lease(q))] + [Claim(2, 0)]
  }

  function LateEnd(q: Queue): seq<Event> {
    [Fail(1)] + [Clock(Lease(q) + RetryDelay(q, 1))] + [Claim(1, 0)] + [Fail(2)]
  }

  lemma TwoHolders(q: Queue, d: Desk)
    requires d == Desk(q, 8, map[], {}, map[], 0)
    ensures var d' := Run(d, LateStory(q));
            && d'.queue == q && d'.most == 8 && d'.clock == Lease(q)
            && 1 in d'.flights && 2 in d'.flights && 0 in d'.rows
            && d'.flights[1].id == d'.flights[2].id == 0
            && d'.flights[1].seen.attempts == d'.flights[2].seen.attempts == 0
            && d'.rows[0].status == Processing && d'.rows[0].failures == 0
            && d'.flights[1].seen.expires == d'.flights[2].seen.expires
            && (q != Provisioning ==> d'.flights[1].seen.expires == DAY)
  {
    var e := LateStory(q);
    RunLast(d, [], e[0]);
    RunLast(d, [e[0]], e[1]);
    RunLast(d, [e[0]] + [e[1]], e[2]);
    RunLast(d, [e[0]] + [e[1]] + [e[2]], e[3]);
  }

  lemma LateFailures(q: Queue, d: Desk)
    requires d.queue == q && d.most == 8 && d.clock == Lease(q)
    requires 1 in d.flights && 2 in d.flights && 0 in d.rows && d.flights[1].id == d.flights[2].id == 0
    requires d.flights[1].seen.attempts == d.flights[2].seen.attempts == 0
    requires d.rows[0].status == Processing && d.rows[0].failures == 0
    requires d.flights[1].seen.expires == d.flights[2].seen.expires
    requires q != Provisioning ==> d.flights[1].seen.expires == DAY
    ensures var d' := Run(d, LateEnd(q));
            0 in d'.rows && d'.rows[0].attempts == 1 && d'.rows[0].failures == 2
  {
    var e := LateEnd(q);
    assert Pow2(0) == 1;
    RunLast(d, [], e[0]);
    RunLast(d, [e[0]], e[1]);
    RunLast(d, [e[0]] + [e[1]], e[2]);
    RunLast(d, [e[0]] + [e[1]] + [e[2]], e[3]);
  }

  lemma {:induction false} RunAppend(d: Desk, a: seq<Event>, b: seq<Event>)
    ensures Run(d, a + b) == Run(Run(d, a), b)
    decreases |b|
  {
    if b == [] {
      assert a + b == a;
    } else {
      var init, last := b[..|b| - 1], b[|b| - 1];
      assert a + b == (a + init) + [last];
      RunLast(d, a + init, last);
      RunAppend(d, a, init);
    }
  }

  /** Why promptness matters: a worker that outlives its lease leaves the row to a second one, both
      fail, and one of the two failures is lost. */
  lemma LateWorkerLosesAFailure(q: Queue)
    ensures exists d: Desk, events: seq<Event> ::
              && Empty(d) && d.queue == q
              && 0 in Run(d, events).rows && Run(d, events).rows[0].attempts < Run(d, events).rows[0].failures
  {
    var d := Desk(q, 8, map[], {}, map[], 0);
    TwoHolders(q, d);
    LateFailures(q, Run(d, LateStory(q)));
    RunAppend(d, LateStory(q), LateEnd(q));
    assert Empty(d) && 0 in Run(d, LateStory(q) + LateEnd(q)).rows;
  }

  /** A failure is written to a row that still has the count its worker read. */
  ghost predicate Faithful(d: Desk, e: Event) {
    e.Fail? && e.worker in d.flights ==>
      var f := d.flights[e.worker];
      f.id in d.rows && d.rows[f.id].status == Processing ==> f.seen.attempts == d.rows[f.id].attempts
  }

  lemma ExactStep(d: Desk, e: Event)
    requires Sound(d) && Counted(d)
    ensures Counted(Step(d, e)) <==> Faithful(d, e)
  {
    if e.Fail? && e.worker in d.flights {
      var f := d.flights[e.worker];
      if f.id in d.rows && d.rows[f.id].status == Processing {
        var failed := Step(d, e).rows[f.id];
        assert failed.attempts == f.seen.attempts + 1 && failed.failures == d.rows[f.id].failures + 1;
      }
    }
  }

  /** Exactly when "attempts" is a true count: it is one throughout a run if and only if no worker writes
      a failure over a count that changed since it claimed the row. */
  lemma {:induction false} CountIsExactWhileFaithful(d: Desk, events: seq<Event>)
    requires Empty(d)
    ensures AlwaysCounted(d, events) <==> AlwaysFaithful(d, events)
    decreases |events|
  {
    if events == [] {
      assert AlwaysCounted(d, events);
    } else {
      var n := |events| - 1;
      var before := events[..n];
      CountIsExactWhileFaithful(d, before);
      Prefixes(d, before, events[n]);
      assert events == before + [events[n]];
      if AlwaysCounted(d, before) {
        assert before[..n] == before;
        RunsAreSound(d, before);
        ExactStep(Run(d, before), events[n]);
        RunLast(d, before, events[n]);
      }
    }
  }

  ghost predicate AlwaysCounted(d: Desk, events: seq<Event>) {
    forall k :: 0 <= k <= |events| ==> Counted(Run(d, events[..k]))
  }

  ghost predicate AlwaysFaithful(d: Desk, events: seq<Event>) {
    forall k :: 0 <= k < |events| ==> Faithful(Run(d, events[..k]), events[k])
  }

  lemma Prefixes(d: Desk, before: seq<Event>, e: Event)
    ensures AlwaysCounted(d, before + [e]) <==> AlwaysCounted(d, before) && Counted(Run(d, before + [e]))
    ensures AlwaysFaithful(d, before + [e]) <==> AlwaysFaithful(d, before) && Faithful(Run(d, before), e)
  {
    var n, events := |before|, before + [e];
    assert forall k :: 0 <= k <= n ==> events[..k] == before[..k];
    assert before[..n] == before && events[..n + 1] == events && events[n] == e;
  }

  // ---------------------------------------------------------------- one snapshot event per assignment

  /** Once an assignment has its snapshot event it has it for good, and never a second one, however
      many instances reconcile at the same time. */
  lemma {:induction false} KeyedForever(d: Desk, events: seq<Event>, i: Id)
    requires Sound(d) && d.queue == Provisioning && i in d.rows && d.rows[i].key.Some?
    ensures var d' := Run(d, events);
            && i in d'.rows && d'.rows[i].key == d.rows[i].key
            && (forall k :: k in d'.rows && d'.rows[k].key == d.rows[i].key ==> k == i)
    decreases |events|
  {
    SoundRunsStaySound(d, events);
    if events != [] {
      var before := events[..|events| - 1];
      KeyedForever(d, before, i);
      QueueStays(d, before);
      SoundRunsStaySound(d, before);
      KeyStays(Run(d, before), events[|events| - 1], i);
    }
  }

  lemma {:induction false} QueueStays(d: Desk, events: seq<Event>)
    ensures Run(d, events).queue == d.queue && Run(d, events).most == d.most
    decreases |events|
  {
    if events != [] { QueueStays(d, events[..|events| - 1]); }
  }

  lemma KeyStays(d: Desk, e: Event, i: Id)
    requires Sound(d) && d.queue == Provisioning && i in d.rows && d.rows[i].key.Some?
    ensures i in Step(d, e).rows && Step(d, e).rows[i].key == d.rows[i].key
  {}
}
