/** Retention and the wall clock: when the backup just made survives its own closing prune, and a run in
    which it does not. */
module BackupClock {
  import opened Options
  import opened Instants
  import opened Sundays
  import opened Backup
  import opened BackupSafety
  import opened BackupRuns
  import opened BackupRecovery

  lemma NothingExceeds(jobs: map<Id, Job>)
    requires Doomed(jobs) == {} && |Good(jobs)| <= RETENTION
    ensures Excess(jobs) == [] && Survivors(jobs, Excess(jobs)) == Good(jobs)
  {
    RankedLists(jobs, Doomed(jobs));
    RankedLists(jobs, Good(jobs));
  }

  /** A success that some other one ranks below is spared; so is every one of ten or fewer. */
  lemma SparedExactly(jobs: map<Id, Job>, i: Id)
    requires Doomed(jobs) == {} && |Good(jobs)| <= RETENTION + 1 && i in Good(jobs)
    ensures i in Survivors(jobs, Excess(jobs)) <==>
            |Good(jobs)| <= RETENTION || exists s :: s in Good(jobs) && s != i && Above(jobs, i, s)
  {
    if |Good(jobs)| <= RETENTION {
      NothingExceeds(jobs);
    } else {
      VictimIsLowest(jobs, i);
      assert forall s :: s in Good(jobs) && s != i ==> (Above(jobs, s, i) <==> !Above(jobs, i, s));
    }
  }

  /** From every safe state with work to do, one undisturbed Tick makes a backup, and that backup survives
      the prune that closes the same Tick if and only if there are at most ten, or some other success is
      recorded as finished before it, or at the same instant under a lower id. */
  lemma NewestSurvivesExactly(w: World, id: Id, made: Object) returns (making: seq<Event>, closing: seq<Event>, i: Id)
    requires Safe(w) && w.worker == Idle && id !in w.drawn && HasWork(w) && made.size >= MIN_SIZE
    ensures AllCalm(making + closing) && Tidy(Run(w, making + closing))
    ensures var c, z := Run(w, making), Run(w, making + closing);
            && i in Good(c.jobs) && i in c.store && c.jobs[i].finished == Some(w.clock)
            && (i in z.store <==>
                  |Good(c.jobs)| <= RETENTION || exists s :: s in Good(c.jobs) && s != i && Above(c.jobs, i, s))
  {
    var slot;
    making, closing, i, slot := CalmTickRecovers(w, id, made);
    SparedExactly(Run(w, making).jobs, i);
  }

  // ---------------------------------------------------------------- a run that loses the newest

  ghost predicate Below(ids: set<Id>, bound: nat) {
    forall i :: i in ids ==> i < bound
  }

  lemma OneAbove(ids: set<Id>, ids': set<Id>, bound: nat)
    requires Below(ids, bound) && ids' <= ids + {bound}
    ensures Below(ids', bound + 1)
  {}

  /** n successes, all recorded at one instant, and nothing else. */
  ghost predicate Stocked(w: World, n: nat, at: Time) {
    && Safe(w) && Tidy(w) && |Good(w.jobs)| == n && Below(w.drawn, 2 * n)
    && (forall i :: i in Good(w.jobs) ==> w.jobs[i].finished == Some(at))
  }

  /** The opening prune of the next Tick will leave the successes as they are. */
  ghost predicate SparesAll(w: World, r: World) {
    && Survivors(Reopened(r).jobs, Excess(Reopened(r).jobs)) == Good(w.jobs)
    && (forall i :: i in Good(w.jobs) ==> Reopened(r).jobs[i] == w.jobs[i])
  }

  /** An idle namespace in which somebody has just asked for a backup. */
  lemma Asked(w: World, n: nat, at: Time) returns (r: World)
    requires Stocked(w, n, at) && n <= RETENTION
    ensures r == Run(w, [Request(2 * n)]) && r.clock == w.clock && SparesAll(w, r)
    ensures Safe(r) && r.worker == Idle && HasWork(r) && 2 * n + 1 !in r.drawn
    ensures Below(r.drawn, 2 * n + 1)
  {
    var id := 2 * n;
    r := RequestStep(w, id);
    RequestShape(w, id);
    RequestSafe(w, id);
    Run1(w, Request(id));
    OneAbove(w.drawn, r.drawn, id);
    QueuedIsWork(r, id);
    RequestSpares(w, r, id, NewJob(None, w.clock));
  }

  lemma QueuedIsWork(r: World, id: Id)
    requires id in r.jobs && r.jobs[id].status == Queued && r.jobs[id].nextAttempt == Some(r.clock)
    ensures HasWork(r)
  {
    assert Ready(r.jobs[id], r.clock);
  }

  lemma RequestShape(w: World, id: Id)
    requires Safe(w) && Tidy(w) && id !in w.drawn
    ensures var r := RequestStep(w, id);
            && r == w.(schedule := r.schedule, drawn := w.drawn + {id}, jobs := w.jobs[id := NewJob(None, w.clock)])
            && id !in w.jobs
  {
    NewestFinds(w.jobs);
  }

  lemma RequestSpares(w: World, r: World, id: Id, j: Job)
    requires Tidy(w) && id !in w.jobs && j.status == Queued && r.jobs == w.jobs[id := j]
    ensures SparesAll(w, r)
  {
    RewrittenActive(w.jobs, id, j);
    RecoveredKeeps(r.jobs, r.clock, r.clock);
    NothingExceeds(Reopened(r).jobs);
  }

  /** What a calm Tick from r does to the successes: c when the backup is made, z at the end. */
  ghost predicate Ticked(r: World, c: World, z: World, i: Id) {
    && Safe(z) && Tidy(z) && GrewBy(Reopened(r).jobs, i, c.jobs) && c.jobs[i].finished == Some(r.clock)
    && Doomed(c.jobs) == {} && Spares(c.jobs, Excess(c.jobs), z.jobs)
  }

  lemma TickedStocked(w: World, n: nat, at: Time, r: World, c: World, z: World, i: Id)
    requires Stocked(w, n, at) && n < RETENTION && SparesAll(w, r) && r.clock == at && Ticked(r, c, z, i)
    requires Below(z.drawn, 2 * n + 2)
    ensures Stocked(z, n + 1, at)
  {
    GrownRows(w.jobs, Reopened(r).jobs, c.jobs, z.jobs, i, at);
  }

  lemma GrownRows(a: map<Id, Job>, b: map<Id, Job>, c: map<Id, Job>, z: map<Id, Job>, i: Id, at: Time)
    requires Survivors(b, Excess(b)) == Good(a) && forall k :: k in Good(a) ==> b[k] == a[k]
    requires |Good(a)| < RETENTION && forall k :: k in Good(a) ==> a[k].finished == Some(at)
    requires GrewBy(b, i, c) && c[i].finished == Some(at) && Doomed(c) == {} && Spares(c, Excess(c), z)
    ensures |Good(z)| == |Good(a)| + 1 && forall k :: k in Good(z) ==> z[k].finished == Some(at)
  {
    assert Good(c) == Good(a) + {i};
    NothingExceeds(c);
  }

  /** A request and an undisturbed Tick while there are fewer than ten. */
  lemma OneMore(w: World, n: nat, at: Time, made: Object) returns (events: seq<Event>)
    requires Stocked(w, n, at) && n < RETENTION && w.clock == at && made.size >= MIN_SIZE
    ensures Stocked(Run(w, events), n + 1, at) && Run(w, events).clock == at
  {
    var r := Asked(w, n, at);
    var tick := TickStocks(w, n, at, r, made);
    events := [Request(2 * n)] + tick;
    RunAppend(w, [Request(2 * n)], tick);
  }

  lemma TickStocks(w: World, n: nat, at: Time, r: World, made: Object) returns (tick: seq<Event>)
    requires Stocked(w, n, at) && n < RETENTION && SparesAll(w, r) && r.clock == at && made.size >= MIN_SIZE
    requires Safe(r) && r.worker == Idle && HasWork(r) && 2 * n + 1 !in r.drawn
    requires Below(r.drawn, 2 * n + 1)
    ensures Stocked(Run(r, tick), n + 1, at) && Run(r, tick).clock == at
  {
    var making, closing, i := TickFrom(r, 2 * n + 1, made);
    tick := making + closing;
    OneAbove(r.drawn, Run(r, tick).drawn, 2 * n + 1);
    TickedStocked(w, n, at, r, Run(r, making), Run(r, tick), i);
  }

  lemma TickFrom(r: World, id: Id, made: Object) returns (making: seq<Event>, closing: seq<Event>, i: Id)
    requires Safe(r) && r.worker == Idle && id !in r.drawn && HasWork(r) && made.size >= MIN_SIZE
    ensures AllCalm(making + closing) && Ticked(r, Run(r, making), Run(r, making + closing), i)
    ensures i in Run(r, making).store && Run(r, making).jobs[i].recorded == Some(made)
    ensures Run(r, making + closing).clock == r.clock && Run(r, making + closing).drawn <= r.drawn + {id}
  {
    var slot;
    making, closing, i, slot := CalmTickRecovers(r, id, made);
  }

  lemma {:induction false} Stock(w: World, n: nat, made: Object) returns (events: seq<Event>)
    requires Initial(w) && n <= RETENTION && made.size >= MIN_SIZE
    ensures Stocked(Run(w, events), n, w.clock) && Run(w, events).clock == w.clock
  {
    if n == 0 {
      events := [];
      assert Good(w.jobs) == {} && Doomed(w.jobs) == {};
      RunsAreSafe(w, []);
    } else {
      var before := Stock(w, n - 1, made);
      var more := OneMore(Run(w, before), n - 1, w.clock, made);
      events := before + more;
      RunAppend(w, before, more);
    }
  }

  lemma NewestIsLost(a: World, at: Time, r: World, c: World, z: World, i: Id)
    requires Stocked(a, RETENTION, at) && SparesAll(a, r) && r.clock < at && Ticked(r, c, z, i)
    ensures i in Good(c.jobs) && i !in z.store && z.store.Keys == a.store.Keys
  {
    LowestIsLost(a.jobs, c.jobs, i, at);
  }

  lemma LowestIsLost(old_: map<Id, Job>, jobs: map<Id, Job>, i: Id, at: Time)
    requires |Good(old_)| == RETENTION && Doomed(jobs) == {} && i !in Good(old_) && Good(jobs) == Good(old_) + {i}
    requires forall s :: s in Good(old_) ==> jobs[s].finished == Some(at)
    requires jobs[i].finished.Some? && jobs[i].finished.value < at
    ensures Survivors(jobs, Excess(jobs)) == Good(old_)
  {
    assert forall s :: s in Good(old_) ==> Above(jobs, s, i);
    VictimIsLowest(jobs, i);
    OthersSpared(jobs, i);
  }

  lemma OthersSpared(jobs: map<Id, Job>, i: Id)
    requires Doomed(jobs) == {} && |Good(jobs)| == RETENTION + 1 && i in Excess(jobs) && i in Good(jobs)
    ensures Survivors(jobs, Excess(jobs)) == Good(jobs) - {i}
  {
    ExcessSound(jobs);
    var v := TheVictim(jobs, Excess(jobs));
  }

  /** The clock goes back below ten recorded finish times; the eleventh backup is uploaded, verified and
      recorded, and the prune of the same Tick deletes it, so that the ten older ones are all that is left. */
  lemma ClockBackCostsTheNewest(w: World, back: Time, made: Object)
      returns (asking: seq<Event>, making: seq<Event>, closing: seq<Event>, a: World, i: Id)
    requires Initial(w) && back < w.clock && made.size >= MIN_SIZE
    ensures AllCalm(making + closing) && |asking| >= 2 && asking[|asking| - 2..] == [Clock(back), Request(20)]
    ensures a == Run(w, asking[..|asking| - 2]) && Stocked(a, RETENTION, w.clock)
    ensures var c, z := Run(w, asking + making), Run(w, asking + (making + closing));
            && i in Good(c.jobs) && i in c.store && c.jobs[i].recorded == Some(made)
            && Tidy(z) && i !in z.store && z.store.Keys == a.store.Keys
  {
    var stocking := Stock(w, RETENTION, made);
    a := Run(w, stocking);
    var b := Step(a, Clock(back));
    StepSafe(a, Clock(back));
    var r := Asked(b, RETENTION, w.clock);
    asking := stocking + [Clock(back), Request(20)];
    assert asking[..|asking| - 2] == stocking;
    AskedRun(w, stocking, back);
    making, closing, i := TickFrom(r, 21, made);
    NewestIsLost(a, w.clock, r, Run(r, making), Run(r, making + closing), i);
    RunAppend(w, asking, making);
    RunAppend(w, asking, making + closing);
  }

  lemma AskedRun(w: World, stocking: seq<Event>, back: Time)
    ensures Run(w, stocking + [Clock(back), Request(20)]) == Run(Step(Run(w, stocking), Clock(back)), [Request(20)])
  {
    var a := Run(w, stocking);
    Run1(Step(a, Clock(back)), Request(20));
    Run2(a, Clock(back), Request(20));
    RunAppend(w, stocking, [Clock(back), Request(20)]);
  }
}
