/** Recovery: one undisturbed Tick repairs whatever crashes and failures have left behind. */
module BackupRecovery {
  import opened Options
  import opened Instants
  import opened Sundays
  import opened Backup
  import opened BackupSafety
  import opened BackupRuns

  /** Nothing fails, nobody interferes. */
  predicate Calm(e: Event) {
    match e
    case TryLock => true
    case Db(ok) => ok
    case Begin(ok, _) => ok
    case Exported(made) => made.Some? && made.value.size >= MIN_SIZE
    case PutDone(ok, left) => ok && left.Some?
    case GetDone(ok, intact) => ok && intact
    case DeleteDone(ok, gone) => ok && gone
    case _ => false
  }

  /** The calm events of a prune pass over n rows. */
  function SweepScript(n: nat): seq<Event> {
    if n == 0 then [Db(true), Db(true)]
    else [Db(true), DeleteDone(true, true), Db(true)] + SweepScript(n - 1)
  }

  function ExecuteScript(made: Object): seq<Event> {
    [Exported(Some(made)), Db(true), PutDone(true, Some(made)), Db(true), GetDone(true, true), Db(true)]
  }

  lemma Run1(w: World, a: Event)
    ensures Run(w, [a]) == Step(w, a)
  {}

  lemma Run2(w: World, a: Event, b: Event)
    ensures Run(w, [a, b]) == Step(Step(w, a), b)
  {
    assert [a, b][..1] == [a];
    Run1(w, a);
  }

  lemma Run3(w: World, a: Event, b: Event, c: Event)
    ensures Run(w, [a, b, c]) == Step(Step(Step(w, a), b), c)
  {
    assert [a, b, c][..2] == [a, b];
    Run2(w, a, b);
  }

  ghost predicate SameActive(jobs: map<Id, Job>, jobs': map<Id, Job>) {
    && (forall i :: i in jobs && Active(jobs[i]) ==> i in jobs' && jobs'[i] == jobs[i])
    && (forall i :: i in jobs' && Active(jobs'[i]) ==> i in jobs && jobs[i] == jobs'[i])
  }

  /** What a prune pass leaves alone. */
  ghost predicate Aside(w: World, w': World) {
    && w'.clock == w.clock && w'.drawn == w.drawn
    && (w'.schedule.Some? <==> w.schedule.Some?)
    && (w.schedule.Some? ==> w'.schedule.value.next == w.schedule.value.next)
    && SameActive(w.jobs, w'.jobs)
    && (forall i :: i in w.store && i in w.jobs && Active(w.jobs[i]) ==> i in w'.store && w'.store[i] == w.store[i])
  }

  ghost predicate Pruned(jobs: map<Id, Job>) {
    NoRunning(jobs) && Doomed(jobs) == {} && |Good(jobs)| <= RETENTION
  }

  lemma AsideTransitive(a: World, b: World, c: World)
    requires Aside(a, b) && Aside(b, c)
    ensures Aside(a, c)
  {}

  /** The successes off one list are those off the other, row by row. */
  ghost predicate SameSpared(jobs: map<Id, Job>, todo: seq<Id>, jobs': map<Id, Job>, todo': seq<Id>) {
    && Survivors(jobs', todo') == Survivors(jobs, todo)
    && (forall i :: i in Survivors(jobs, todo) ==> jobs'[i] == jobs[i])
  }

  lemma MarkSpares(jobs: map<Id, Job>, todo: seq<Id>, j: Job)
    requires todo != [] && j.status == Pruning
    ensures SameSpared(jobs, todo, jobs[todo[0] := j], todo)
  {
    assert todo[0] in todo;
  }

  lemma RetireSpares(jobs: map<Id, Job>, todo: seq<Id>, j: Job)
    requires todo != [] && todo[0] in jobs && jobs[todo[0]].status == Pruning && j.status == Deleted
    ensures SameSpared(jobs, todo, jobs[todo[0] := j], todo[1..])
  {
    assert forall k :: k in todo <==> k == todo[0] || k in todo[1..];
  }

  lemma MarkOne(w: World)
    requires Safe(w) && w.worker.Sweeping? && w.worker.todo != []
    ensures Aside(w, DbStep(w)) && DbStep(w).worker == Marked(w.worker.now, w.worker.stage, w.worker.todo)
    ensures DbStep(w).jobs == w.jobs[w.worker.todo[0] := DbStep(w).jobs[w.worker.todo[0]]]
    ensures DbStep(w).jobs[w.worker.todo[0]].status == Pruning
  {
    assert w.worker.todo[0] in w.worker.todo;
  }

  lemma EraseOne(w: World)
    requires Safe(w) && w.worker.Marked?
    ensures var w' := Step(w, DeleteDone(true, true));
            Aside(w, w') && w'.worker == Removed(w.worker.now, w.worker.stage, w.worker.todo) && w'.jobs == w.jobs
  {}

  lemma RetireOne(w: World)
    requires Safe(w) && w.worker.Removed?
    ensures Aside(w, DbStep(w)) && DbStep(w).worker == Sweeping(w.worker.now, w.worker.stage, w.worker.todo[1..])
    ensures DbStep(w).jobs == w.jobs[w.worker.todo[0] := DbStep(w).jobs[w.worker.todo[0]]]
    ensures w.jobs[w.worker.todo[0]].status == Pruning && DbStep(w).jobs[w.worker.todo[0]].status == Deleted
  {}

  lemma SweepOne(w: World)
    requires Safe(w) && w.worker.Sweeping? && w.worker.todo != []
    ensures var w' := Run(w, [Db(true), DeleteDone(true, true), Db(true)]);
            && Safe(w') && Aside(w, w') && w'.worker == Sweeping(w.worker.now, w.worker.stage, w.worker.todo[1..])
            && SameSpared(w.jobs, w.worker.todo, w'.jobs, w.worker.todo[1..])
  {
    var a := Step(w, Db(true));
    MarkOne(w);
    MarkSpares(w.jobs, w.worker.todo, a.jobs[w.worker.todo[0]]);
    StepSafe(w, Db(true));
    var b := Step(a, DeleteDone(true, true));
    EraseOne(a);
    StepSafe(a, DeleteDone(true, true));
    RetireOne(b);
    RetireSpares(b.jobs, b.worker.todo, DbStep(b).jobs[b.worker.todo[0]]);
    StepSafe(b, Db(true));
    Run3(w, Db(true), DeleteDone(true, true), Db(true));
    AsideTransitive(w, a, b);
    AsideTransitive(w, b, Step(b, Db(true)));
  }

  lemma NoComplaint(w: World)
    requires w.worker.Sweeping? && w.worker.todo == []
    ensures Aside(w, DbStep(w)) && DbStep(w).worker == Forgetting(w.worker.now, w.worker.stage)
        && DbStep(w).jobs == w.jobs
  {}

  lemma Forget(w: World)
    requires Safe(w) && w.worker.Forgetting?
    ensures Aside(w, DbStep(w)) && DbStep(w).worker == AfterPrune(w.worker.now, w.worker.stage)
        && Pruned(DbStep(w).jobs)
    ensures Spares(w.jobs, [], DbStep(w).jobs)
  {
    ForgottenKeeps(w.jobs, w.clock);
  }

  lemma SweepEnd(w: World)
    requires Safe(w) && w.worker.Sweeping? && w.worker.todo == []
    ensures Swept(w, Run(w, [Db(true), Db(true)]))
  {
    var a := DbStep(w);
    NoComplaint(w);
    DbSafe(w);
    Forget(a);
    DbSafe(a);
    AsideTransitive(w, a, DbStep(a));
    assert Swept(w, DbStep(a));
    Run2(w, Db(true), Db(true));
  }

  lemma SweepUnfold(w: World, n: nat)
    requires n > 0
    ensures Run(w, SweepScript(n)) == Run(Run(w, [Db(true), DeleteDone(true, true), Db(true)]), SweepScript(n - 1))
  {
    RunAppend(w, [Db(true), DeleteDone(true, true), Db(true)], SweepScript(n - 1));
  }

  /** What a prune pass in progress ends with. */
  ghost predicate Swept(w: World, w': World)
    requires w.worker.Sweeping?
  {
    && Safe(w') && Aside(w, w') && w'.worker == AfterPrune(w.worker.now, w.worker.stage) && Pruned(w'.jobs)
    && Spares(w.jobs, w.worker.todo, w'.jobs)
  }

  /** The successes afterwards are those that were not on the list, with their rows unchanged. */
  ghost predicate Spares(jobs: map<Id, Job>, todo: seq<Id>, jobs': map<Id, Job>) {
    && Good(jobs') == Survivors(jobs, todo)
    && (forall i :: i in Good(jobs') ==> jobs'[i] == jobs[i])
  }

  lemma SweptOn(w: World, a: World, w': World)
    requires w.worker.Sweeping? && a.worker.Sweeping? && a.worker.now == w.worker.now
        && a.worker.stage == w.worker.stage
    requires Aside(w, a) && Swept(a, w') && SameSpared(w.jobs, w.worker.todo, a.jobs, a.worker.todo)
    ensures Swept(w, w')
  {}

  lemma {:induction false} Sweep(w: World, n: nat) returns (w': World)
    requires Safe(w) && w.worker.Sweeping? && |w.worker.todo| == n
    ensures w' == Run(w, SweepScript(n)) && Swept(w, w')
    decreases n
  {
    if n == 0 {
      SweepEnd(w);
      w' := Run(w, [Db(true), Db(true)]);
    } else {
      var a := Run(w, [Db(true), DeleteDone(true, true), Db(true)]);
      SweepOne(w);
      w' := Sweep(a, n - 1);
      SweepUnfold(w, n);
      SweptOn(w, a, w');
    }
  }

  lemma {:induction false} SweepIsCalm(n: nat)
    ensures forall e :: e in SweepScript(n) ==> Calm(e)
  {
    if n > 0 {
      SweepIsCalm(n - 1);
    }
  }

  /** The calm events of a whole prune pass, query included. */
  ghost function PruneScript(w: World): seq<Event> {
    [Db(true)] + SweepScript(|Excess(w.jobs)|)
  }

  lemma Prune(w: World) returns (script: seq<Event>)
    requires Safe(w) && w.worker.Selecting?
    ensures script == PruneScript(w) && forall e :: e in script ==> Calm(e)
    ensures var w' := Run(w, script);
            && Safe(w') && Aside(w, w') && w'.worker == AfterPrune(w.worker.now, w.worker.stage) && Pruned(w'.jobs)
            && Spares(w.jobs, Excess(w.jobs), w'.jobs)
  {
    var a := Step(w, Db(true));
    StepSafe(w, Db(true));
    Run1(w, Db(true));
    var w' := Sweep(a, |a.worker.todo|);
    SweepIsCalm(|a.worker.todo|);
    script := [Db(true)] + SweepScript(|a.worker.todo|);
    RunAppend(w, [Db(true)], SweepScript(|a.worker.todo|));
  }

  /** Export, record, upload. */
  lemma Upload(w: World, made: Object)
    requires w.worker.Exporting? && w.worker.id in w.jobs && made.size >= MIN_SIZE
    ensures var i, w' := w.worker.id, Run(w, [Exported(Some(made)), Db(true), PutDone(true, Some(made))]);
            && w'.worker == Uploaded(w.worker.now, i, made)
            && w' == w.(jobs := w'.jobs, store := w.store[i := made], worker := w'.worker)
            && w'.jobs == w.jobs[i := w.jobs[i].(recorded := Some(made), updated := w.clock)]
  {
    Run3(w, Exported(Some(made)), Db(true), PutDone(true, Some(made)));
  }

  /** Read back, compare, complete. */
  lemma Verify(w: World)
    requires w.worker.Uploaded? && w.worker.id in w.store && w.store[w.worker.id] == w.worker.made
    ensures Step(Step(w, Db(true)), GetDone(true, true)) == w.(worker := Verified(w.worker.now, w.worker.id))
  {}

  lemma Complete(w: World)
    requires Safe(w) && w.worker.Uploaded? && w.worker.id in w.store && w.store[w.worker.id] == w.worker.made
    ensures var i, w' := w.worker.id, Run(w, [Db(true), GetDone(true, true), Db(true)]);
            && w' == w.(jobs := w'.jobs, worker := Selecting(w.worker.now, Closing))
            && w'.jobs == w.jobs[i := w.jobs[i].(status := Succeeded, finished := Some(w.clock), nextAttempt := None,
                updated := w.clock)]
  {
    Verify(w);
    Run3(w, Db(true), GetDone(true, true), Db(true));
  }

  lemma Execute(w: World, made: Object)
    requires Safe(w) && w.worker.Exporting? && made.size >= MIN_SIZE
    ensures var w' := Run(w, ExecuteScript(made));
            && Safe(w') && w'.worker == Selecting(w.worker.now, Closing)
            && w'.clock == w.clock && w'.drawn == w.drawn
            && Done(w', w.worker.id, made, w.jobs[w.worker.id].slot)
            && Adds(w.jobs, w.worker.id, w'.jobs)
            && (forall k :: k in w'.jobs ==> !Active(w'.jobs[k]))
  {
    var first := [Exported(Some(made)), Db(true), PutDone(true, Some(made))];
    var a := Run(w, first);
    Upload(w, made);
    RunsAreSafe(w, first);
    Complete(a);
    RunAppend(w, first, [Db(true), GetDone(true, true), Db(true)]);
    assert first + [Db(true), GetDone(true, true), Db(true)] == ExecuteScript(made);
    var i := w.worker.id;
    CompletedAdds(w.jobs, i, a.jobs[i], Run(w, ExecuteScript(made)).jobs[i]);
    RunsAreSafe(w, ExecuteScript(made));
  }

  /** One more success; the others keep their rows, and no prune begins. */
  ghost predicate Adds(jobs: map<Id, Job>, i: Id, jobs': map<Id, Job>) {
    && i !in Good(jobs) && Good(jobs') == Good(jobs) + {i} && Doomed(jobs') == Doomed(jobs)
    && (forall k :: k in Good(jobs) ==> jobs'[k] == jobs[k])
  }

  lemma CompletedAdds(jobs: map<Id, Job>, i: Id, j: Job, k: Job)
    requires i in jobs && jobs[i].status == Running && k.status == Succeeded
    ensures Adds(jobs, i, jobs[i := j][i := k])
  {
    assert jobs[i := j][i := k] == jobs[i := k];
    Rewritten(jobs, i, k);
  }

  /** The job has succeeded with this archive, and the archive is in the store. */
  ghost predicate Done(w: World, i: Id, made: Object, slot: Option<Time>) {
    && i in w.jobs && w.jobs[i].status == Succeeded && w.jobs[i].slot == slot
    && w.jobs[i].recorded == Some(made) && w.jobs[i].finished == Some(w.clock)
    && i in w.store && w.store[i] == made
  }

  /** What a finished Tick leaves: nothing half done, at most ten backups, the store exactly those. */
  ghost predicate Tidy(w: World) {
    && w.worker == Idle && Pruned(w.jobs)
    && (forall k :: k in w.jobs ==> !Active(w.jobs[k]))
    && w.store.Keys == Good(w.jobs)
  }

  lemma NothingBeside(w: World)
    requires Safe(w) && Pruned(w.jobs) && forall k :: k in w.jobs ==> !Active(w.jobs[k])
    ensures w.store.Keys == Good(w.jobs)
  {
    forall i | i in w.store ensures i in Good(w.jobs) {
      assert i in w.jobs && w.jobs[i].status != Deleted && i !in Doomed(w.jobs);
    }
  }

  /** The world after the lock is taken and a dead worker's job recovered. */
  function Reopened(w: World): World {
    w.(jobs := Recovered(w.jobs, w.clock, w.clock))
  }

  /** The lock, the recovery of a dead worker's job and the first prune pass. */
  ghost function OpenScript(w: World): seq<Event> {
    [TryLock, Db(true)] + PruneScript(Reopened(w))
  }

  lemma OpenTick(w: World) returns (script: seq<Event>)
    requires Safe(w) && w.worker == Idle
    ensures script == OpenScript(w) && forall e :: e in script ==> Calm(e)
    ensures var w' := Run(w, script);
            && Safe(w') && w'.worker == Starting(w.clock) && Pruned(w'.jobs) && Aside(Reopened(w), w')
            && Spares(Reopened(w).jobs, Excess(Reopened(w).jobs), w'.jobs)
  {
    var a := Run(w, [TryLock, Db(true)]);
    Reopening(w);
    RunsAreSafe(w, [TryLock, Db(true)]);
    var rest := Prune(a);
    script := [TryLock, Db(true)] + rest;
    RunAppend(w, [TryLock, Db(true)], rest);
    AsideTransitive(Reopened(w), a, Run(w, script));
  }

  lemma Reopening(w: World)
    requires w.worker == Idle
    ensures Run(w, [TryLock, Db(true)]) == Reopened(w).(worker := Selecting(w.clock, Opening))
    ensures Aside(Reopened(w), Run(w, [TryLock, Db(true)]))
  {
    Run2(w, TryLock, Db(true));
    OnlyMoved(Reopened(w), Selecting(w.clock, Opening));
  }

  lemma OnlyMoved(w: World, worker: Worker)
    ensures Aside(w, w.(worker := worker))
  {}

  predicate Ready(j: Job, clock: Time) {
    Waiting(j) && (j.nextAttempt.None? || j.nextAttempt.value <= clock)
  }

  lemma PickReady(w: World, id: Id, i: Id)
    requires Safe(w) && w.worker.Starting? && i in w.jobs && Ready(w.jobs[i], w.worker.now)
    ensures BeginStep(w, id).worker == Exporting(w.worker.now, i)
  {
    OldestFinds(w.jobs);
    assert Active(w.jobs[i]);
  }

  lemma PickDue(w: World, id: Id)
    requires Safe(w) && w.worker.Starting? && id !in w.drawn
    requires w.schedule.Some? && w.schedule.value.next <= w.worker.now
    ensures var w' := BeginStep(w, id);
            w'.worker.Exporting? && w'.worker.id in w'.jobs
                && w'.jobs[w'.worker.id].slot == Some(LatestSunday(w.worker.now))
  {}

  ghost predicate DueSlot(w: World) {
    w.schedule.Some? && w.schedule.value.next <= w.clock
  }

  /** A Tick has an export to do: a slot is due, a job is ready, or a worker died over one. */
  ghost predicate HasWork(w: World) {
    DueSlot(w) || exists i :: i in w.jobs && (w.jobs[i].status == Running || Ready(w.jobs[i], w.clock))
  }

  /** The pick: whenever there is work, the transaction starts a job, stamped if a slot was due. */
  lemma Pick(w: World, a: World, id: Id)
    requires Safe(a) && id !in w.drawn && HasWork(w)
    requires a.worker == Starting(w.clock) && Aside(Reopened(w), a)
    ensures var b := BeginStep(a, id);
            && b.worker.Exporting? && b.worker.id in b.jobs
            && (DueSlot(w) ==> b.jobs[b.worker.id].slot == Some(LatestSunday(w.clock)))
            && b.clock == w.clock
  {
    if DueSlot(w) {
      PickDue(a, id);
    } else {
      var i :| i in w.jobs && (w.jobs[i].status == Running || Ready(w.jobs[i], w.clock));
      assert Active(Reopened(w).jobs[i]);
      PickReady(a, id, i);
    }
  }

  ghost predicate AllCalm(script: seq<Event>) {
    forall e :: e in script ==> Calm(e)
  }

  lemma CalmAppend(a: seq<Event>, b: seq<Event>)
    requires AllCalm(a) && AllCalm(b)
    ensures AllCalm(a + b)
  {}

  lemma BeginSpares(a: World, id: Id)
    requires Safe(a) && a.worker.Starting? && BeginStep(a, id).worker.Exporting?
    ensures var b := BeginStep(a, id);
            && Good(b.jobs) == Good(a.jobs) && Doomed(b.jobs) == Doomed(a.jobs) && b.drawn <= a.drawn + {id}
            && (forall k :: k in Good(a.jobs) ==> b.jobs[k] == a.jobs[k])
  {
    var b := BeginStep(a, id);
    BeginShape(a, id);
    RewrittenActive(a.jobs, b.worker.id, b.jobs[b.worker.id]);
  }

  /** Up to the start of the export. */
  lemma StartWork(w: World, id: Id) returns (script: seq<Event>, b: World)
    requires Safe(w) && w.worker == Idle && id !in w.drawn && HasWork(w)
    ensures script == OpenScript(w) + [Begin(true, id)] && AllCalm(script) && b == Run(w, script) && Safe(b)
    ensures Run(w, OpenScript(w)).worker.Starting? && b == BeginStep(Run(w, OpenScript(w)), id)
    ensures b.worker.Exporting? && b.worker.id in b.jobs && b.clock == w.clock
    ensures DueSlot(w) ==> b.jobs[b.worker.id].slot == Some(LatestSunday(w.clock))
    ensures b.drawn <= w.drawn + {id} && Doomed(b.jobs) == {}
    ensures Spares(Reopened(w).jobs, Excess(Reopened(w).jobs), b.jobs)
  {
    var opening := OpenTick(w);
    var a := Run(w, opening);
    Pick(w, a, id);
    StepSafe(a, Begin(true, id));
    Run1(a, Begin(true, id));
    RunAppend(w, opening, [Begin(true, id)]);
    b := BeginStep(a, id);
    BeginSpares(a, id);
    script := opening + [Begin(true, id)];
    CalmAppend(opening, [Begin(true, id)]);
  }

  /** Without work the transaction starts nothing, and only the prune has changed the job table. */
  lemma CalmTickIdles(w: World, id: Id) returns (z: World)
    requires Safe(w) && w.worker == Idle && id !in w.drawn && !HasWork(w)
    ensures Run(w, OpenScript(w)).worker.Starting?
    ensures z == BeginStep(Run(w, OpenScript(w)), id) == Run(w, OpenScript(w) + [Begin(true, id)])
    ensures Safe(z) && z.worker == Idle && Pruned(z.jobs) && SameActive(w.jobs, z.jobs) && z.drawn == w.drawn
    ensures Spares(w.jobs, Excess(w.jobs), z.jobs) && z.clock == w.clock
  {
    var opening := OpenTick(w);
    var a := Run(w, opening);
    assert Recovered(w.jobs, w.clock, w.clock) == w.jobs;
    Stay(w, a, id);
    BeginShape(a, id);
    StepSafe(a, Begin(true, id));
    Run1(a, Begin(true, id));
    RunAppend(w, opening, [Begin(true, id)]);
    z := BeginStep(a, id);
  }

  lemma Stay(w: World, a: World, id: Id)
    requires Safe(a) && !HasWork(w) && a.worker == Starting(w.clock) && Aside(w, a)
    ensures !BeginStep(a, id).worker.Exporting? && BeginStep(a, id).worker.Idle?
  {
    OldestFinds(a.jobs);
  }

  /** When the export fails the job that was started is failed, one attempt on, with its backoff. */
  lemma CalmTickFails(w: World, id: Id, made: Option<Object>) returns (z: World, i: Id)
    requires Safe(w) && w.worker == Idle && id !in w.drawn && HasWork(w)
    requires made.None? || made.value.size < MIN_SIZE
    ensures z == Run(w, OpenScript(w) + [Begin(true, id)] + [Exported(made), Db(true)])
    ensures Safe(z) && z.worker == Idle && NoRunning(z.jobs) && i in z.jobs && z.jobs[i].status == Failed
    ensures z.jobs[i].attempts == (if i in w.jobs then w.jobs[i].attempts else 0) + 1
    ensures z.jobs[i].nextAttempt == Some(w.clock + RetryDelay(z.jobs[i].attempts))
    ensures DueSlot(w) ==> z.jobs[i].slot == Some(LatestSunday(w.clock))
    ensures Spares(Reopened(w).jobs, Excess(Reopened(w).jobs), z.jobs) && z.clock == w.clock
    ensures i in w.jobs ==> w.jobs[i].status != Succeeded
  {
    var script, b := StartWork(w, id);
    i := b.worker.id;
    StartedOnce(w, id, b);
    z := Run(b, [Exported(made), Db(true)]);
    ExportFails(b, made);
    RunAppend(w, script, [Exported(made), Db(true)]);
  }

  lemma ExportFails(b: World, made: Option<Object>)
    requires Safe(b) && b.worker.Exporting? && (made.None? || made.value.size < MIN_SIZE)
    ensures var i, z := b.worker.id, Run(b, [Exported(made), Db(true)]);
            && Safe(z) && z.worker == Idle && z.clock == b.clock && NoRunning(z.jobs) && i in b.jobs && i in z.jobs
            && z.jobs[i].status == Failed && z.jobs[i].attempts == b.jobs[i].attempts
            && z.jobs[i].nextAttempt == Some(b.clock + RetryDelay(b.jobs[i].attempts))
            && z.jobs[i].slot == b.jobs[i].slot
            && Good(z.jobs) == Good(b.jobs) && (forall k :: k in Good(b.jobs) ==> z.jobs[k] == b.jobs[k])
  {
    var i, failing := b.worker.id, b.(worker := Failing(b.worker.id));
    Run2(b, Exported(made), Db(true));
    MovedSafe(b, failing);
    RecordSafe(failing);
    RewrittenActive(b.jobs, i, DbStep(failing).jobs[i]);
  }

  lemma PickedRow(a: World, id: Id)
    requires Safe(a) && a.worker.Starting? && BeginStep(a, id).worker.Exporting?
    ensures var b := BeginStep(a, id);
            var i := b.worker.id;
            i in b.jobs && b.jobs[i].attempts == (if i in a.jobs then a.jobs[i].attempts else 0) + 1
  {
    OldestFinds(a.jobs);
  }

  /** The job that a Tick starts was waiting, or its worker had died, or it is new. */
  lemma StartedOnce(w: World, id: Id, b: World)
    requires Safe(w) && w.worker == Idle && id !in w.drawn
    requires Run(w, OpenScript(w)).worker.Starting?
    requires b == BeginStep(Run(w, OpenScript(w)), id) && b.worker.Exporting?
    ensures var i := b.worker.id;
            && i in b.jobs && b.jobs[i].attempts == (if i in w.jobs then w.jobs[i].attempts else 0) + 1
            && (i in w.jobs ==> w.jobs[i].status != Succeeded)
  {
    var opening := OpenTick(w);
    var a := Run(w, opening);
    BeginShape(a, id);
    PickedRow(a, id);
    var i := b.worker.id;
    if i in a.jobs {
      assert Active(a.jobs[i]) && Reopened(w).jobs[i] == a.jobs[i];
    }
  }

  lemma ExecuteIsCalm(made: Object)
    requires made.size >= MIN_SIZE
    ensures AllCalm(ExecuteScript(made))
  {}

  /** The successes the opening prune spares, with their rows, and one more. */
  ghost predicate GrewBy(jobs: map<Id, Job>, i: Id, jobs': map<Id, Job>) {
    var spared := Survivors(jobs, Excess(jobs));
    && i !in spared && Good(jobs') == spared + {i} && (forall k :: k in spared ==> jobs'[k] == jobs[k])
  }

  /** Up to the verified backup. */
  lemma MakeBackup(w: World, id: Id, made: Object) returns (script: seq<Event>, c: World, i: Id, slot: Option<Time>)
    requires Safe(w) && w.worker == Idle && id !in w.drawn && HasWork(w) && made.size >= MIN_SIZE
    ensures script == OpenScript(w) + [Begin(true, id)] + ExecuteScript(made)
    ensures AllCalm(script) && c == Run(w, script) && Safe(c)
    ensures c.worker.Selecting? && c.worker.stage == Closing && forall k :: k in c.jobs ==> !Active(c.jobs[k])
    ensures Done(c, i, made, slot) && (DueSlot(w) ==> slot == Some(LatestSunday(w.clock)))
    ensures c.clock == w.clock && c.drawn <= w.drawn + {id} && Doomed(c.jobs) == {}
    ensures GrewBy(Reopened(w).jobs, i, c.jobs) && (i in w.jobs ==> w.jobs[i].status != Succeeded)
  {
    var b;
    script, b := StartWork(w, id);
    StartedOnce(w, id, b);
    i, slot := b.worker.id, b.jobs[b.worker.id].slot;
    Execute(b, made);
    RunAppend(w, script, ExecuteScript(made));
    ExecuteIsCalm(made);
    CalmAppend(script, ExecuteScript(made));
    script := script + ExecuteScript(made);
    c := Run(b, ExecuteScript(made));
  }

  lemma CloseTick(c: World) returns (script: seq<Event>)
    requires Safe(c) && c.worker.Selecting? && c.worker.stage == Closing && forall k :: k in c.jobs ==>
        !Active(c.jobs[k])
    ensures script == PruneScript(c) && AllCalm(script) && Safe(Run(c, script)) && Tidy(Run(c, script))
    ensures Run(c, script).clock == c.clock && Run(c, script).drawn == c.drawn
    ensures Spares(c.jobs, Excess(c.jobs), Run(c, script).jobs)
  {
    script := Prune(c);
    NothingBeside(Run(c, script));
  }

  /** The theorem: from any reachable state with work to do, one undisturbed Tick makes a verified backup,
      stamped with the latest slot if one was due, and its closing prune leaves at most ten backups,
      nothing half done and no object in the store beside them. */
  lemma CalmTickRecovers(w: World, id: Id, made: Object) returns (making: seq<Event>, closing: seq<Event>, i: Id,
      slot: Option<Time>)
    requires Safe(w) && w.worker == Idle && id !in w.drawn && HasWork(w) && made.size >= MIN_SIZE
    ensures making == OpenScript(w) + [Begin(true, id)] + ExecuteScript(made)
    ensures closing == PruneScript(Run(w, making)) && AllCalm(making + closing)
    ensures Done(Run(w, making), i, made, slot) && (DueSlot(w) ==> slot == Some(LatestSunday(w.clock)))
    ensures Safe(Run(w, making + closing)) && Tidy(Run(w, making + closing))
    ensures Run(w, making + closing).clock == Run(w, making).clock == w.clock
    ensures Run(w, making + closing).drawn <= w.drawn + {id}
    ensures GrewBy(Reopened(w).jobs, i, Run(w, making).jobs) && (i in w.jobs ==> w.jobs[i].status != Succeeded)
    ensures Doomed(Run(w, making).jobs) == {} && |Good(Run(w, making).jobs)| <= RETENTION + 1
    ensures Spares(Run(w, making).jobs, Excess(Run(w, making).jobs), Run(w, making + closing).jobs)
  {
    var c;
    making, c, i, slot := MakeBackup(w, id, made);
    closing := CloseTick(c);
    CalmAppend(making, closing);
    RunAppend(w, making, closing);
  }
}
