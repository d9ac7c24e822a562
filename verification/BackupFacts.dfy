/** The steps of the backup machine in the columns they read and write (backend/backup/service.go). */
module BackupFacts {
  import opened Options
  import opened Instants
  import opened Sundays
  import opened Backup
  import opened BackupSafety

  /** Only this row may differ. */
  ghost predicate RowsKept(jobs: map<Id, Job>, jobs': map<Id, Job>, except: Id) {
    forall i :: i != except ==> (i in jobs' <==> i in jobs) && (i in jobs ==> jobs'[i] == jobs[i])
  }

  /** A request is refused while a job waits in the queue or runs; it makes the failed job due at once, or
      adds a job that has had no attempt and no slot. */
  lemma RequestExactly(w: World, id: Id)
    requires Safe(w) && id !in w.drawn
    ensures var w' := RequestStep(w, id);
            && (w' == w <==> exists i :: i in w.jobs && (w.jobs[i].status == Queued || w.jobs[i].status == Running))
            && w'.store == w.store && w'.clock == w.clock && w'.worker == w.worker
            && (w' == w || w'.schedule.Some?) && (w.schedule.Some? ==> w'.schedule == w.schedule)
    ensures forall i :: i in w.jobs && w.jobs[i].status == Failed ==>
              var w' := RequestStep(w, id);
              && w'.jobs[i] == w.jobs[i].(status := Queued, nextAttempt := Some(w.clock), updated := w.clock)
              && RowsKept(w.jobs, w'.jobs, i) && w'.drawn == w.drawn
    ensures (forall i :: i in w.jobs ==> w.jobs[i].status in {Succeeded, Pruning, Deleted}) ==>
              var w' := RequestStep(w, id);
              && id in w'.jobs && w'.jobs[id] == Job(Queued, w.clock, w.clock, None, Some(w.clock), 0, None, None)
              && RowsKept(w.jobs, w'.jobs, id) && w'.drawn == w.drawn + {id}
  {
    NewestFinds(w.jobs);
  }

  /** The lock holder's first statement: what was running is failed and due at once, nothing else changes. */
  lemma RecoverExactly(w: World)
    requires w.worker.Locked?
    ensures var w' := Step(w, Db(true));
            && w'.jobs.Keys == w.jobs.Keys && w'.store == w.store && w'.schedule == w.schedule
            && (forall i :: i in w.jobs && w.jobs[i].status != Running ==> w'.jobs[i] == w.jobs[i])
            && (forall i :: i in w.jobs && w.jobs[i].status == Running ==>
                  w'.jobs[i] == w.jobs[i].(status := Failed, nextAttempt := Some(w.worker.now), updated := w.clock))
  {}

  /** The job a Tick may start waits for no later instant. */
  predicate MayStart(j: Job, now: Time) {
    (j.status == Queued || j.status == Failed) && (j.nextAttempt.None? || j.nextAttempt.value <= now)
  }

  /** A job is started exactly if a slot is due or a waiting job's time has come. */
  lemma BeginStartsExactly(w: World, id: Id)
    requires Safe(w) && w.worker.Starting? && id !in w.drawn
    ensures BeginStep(w, id).worker.Exporting? <==>
        || (w.schedule.Some? && w.schedule.value.next <= w.worker.now)
        || exists i :: i in w.jobs && MayStart(w.jobs[i], w.worker.now)
    ensures !BeginStep(w, id).worker.Exporting? ==> BeginStep(w, id).worker.Idle? && BeginStep(w, id).jobs == w.jobs
  {
    OldestFinds(w.jobs);
    LatestSundayIsASlot(w.worker.now);
    if i :| i in w.jobs && MayStart(w.jobs[i], w.worker.now) {
      assert Active(w.jobs[i]);
    }
  }

  /** The row of the started job: the waiting one, or a new one if none waits and a slot is due. */
  lemma BeginExactly(w: World, id: Id)
    requires Safe(w) && w.worker.Starting? && id !in w.drawn && BeginStep(w, id).worker.Exporting?
    ensures var w' := BeginStep(w, id);
            var i := w'.worker.id;
            var due := w.schedule.Some? && w.schedule.value.next <= w.worker.now;
            && i in w'.jobs && RowsKept(w.jobs, w'.jobs, i) && w'.worker.now == w.worker.now && w'.store == w.store
            && (i in w.jobs <==> exists k :: k in w.jobs && (w.jobs[k].status == Queued || w.jobs[k].status == Failed))
            && w'.jobs[i].status == Running && w'.jobs[i].finished == None && w'.jobs[i].nextAttempt == None
            && (due ==> w'.jobs[i].slot == Some(LatestSunday(w.worker.now)))
            && (i in w.jobs ==>
                  && w'.jobs[i].attempts == w.jobs[i].attempts + 1 && (!due ==> w'.jobs[i].slot == w.jobs[i].slot)
                  && w'.jobs[i].created == w.jobs[i].created && w'.drawn == w.drawn)
            && (i !in w.jobs ==>
                  && i == id && due && w'.jobs[i].attempts == 1 && w'.jobs[i].created == w.worker.now
                  && w'.drawn == w.drawn + {id})
  {
    OldestFinds(w.jobs);
    var w' := BeginStep(w, id);
    assert w'.worker.id in w.jobs ==> Active(w.jobs[w'.worker.id]);
  }

  /** The schedule row afterwards: it is created if missing, and moved a week past the stamped slot if due. */
  lemma BeginSchedules(w: World, id: Id)
    requires Safe(w) && w.worker.Starting? && id !in w.drawn
    ensures var w' := BeginStep(w, id);
            && w'.schedule.Some? && (w.schedule.Some? ==> w'.schedule.value.complaint == w.schedule.value.complaint)
            && (w.schedule.Some? && w.schedule.value.next > w.worker.now ==> w'.schedule == w.schedule)
            && (w.schedule.None? || w.schedule.value.next <= w.worker.now ==>
                  w'.schedule.value.next == LatestSunday(w.worker.now) + WEEK)
  {
    LatestSundayIsASlot(w.worker.now);
  }

  /** A failed job is due again after 2, 4, 8, 16, 32 and from the sixth attempt on 64 minutes. */
  lemma FailExactly(w: World)
    requires w.worker.Failing? && w.worker.id in w.jobs
    ensures var i, w' := w.worker.id, Step(w, Db(true));
            && i in w'.jobs && RowsKept(w.jobs, w'.jobs, i) && w'.worker == Idle && w'.store == w.store
            && w'.jobs[i].status == Failed && w'.jobs[i].attempts == w.jobs[i].attempts
            && w'.jobs[i].recorded == w.jobs[i].recorded && w'.jobs[i].slot == w.jobs[i].slot
            && (var n := w.jobs[i].attempts;
                var minutes := if n == 0 then 1 else if n == 1 then 2 else if n == 2 then 4 else if n == 3 then 8
                               else if n == 4 then 16 else if n == 5 then 32 else 64;
                w'.jobs[i].nextAttempt == Some(w.clock + minutes * MINUTE))
  {
    var n := w.jobs[w.worker.id].attempts;
    PowersOfTwo();
    assert n >= 6 ==> RetryDelay(n) == MINUTE * Pow2(6);
  }

  lemma PowersOfTwo()
    ensures Pow2(0) == 1 && Pow2(1) == 2 && Pow2(2) == 4 && Pow2(3) == 8 && Pow2(4) == 16 && Pow2(5) == 32
    ensures Pow2(6) == 64
  {
    assert Pow2(5) == 2 * Pow2(4);
  }

  /** A success is recorded only behind a read that found the recorded object unharmed. */
  lemma SucceedsExactly(w: World, e: Event, i: Id)
    requires i in w.jobs && w.jobs[i].status != Succeeded
    ensures i in Step(w, e).jobs && Step(w, e).jobs[i].status == Succeeded <==>
        e == Db(true) && w.worker.Verified? && w.worker.id == i
    ensures e == Db(true) && w.worker.Verified? && w.worker.id == i ==>
        Step(w, e).jobs == w.jobs[i := w.jobs[i].(status := Succeeded, finished := Some(w.clock),
            nextAttempt := None, updated := w.clock)]
  {
    if e.Begin? && e.ok && w.worker.Starting? {
      assert BeginStep(w, e.id).jobs[i].status == w.jobs[i].status || BeginStep(w, e.id).jobs[i].status == Running;
    }
  }

  lemma VerifiedExactly(w: World, e: Event)
    requires !w.worker.Verified?
    ensures Step(w, e).worker.Verified? <==>
        && w.worker.Verifying? && e == GetDone(true, true) && w.worker.id in w.store
        && w.store[w.worker.id] == w.worker.made
  {}

  /** What may touch the store: an upload of the executed job, a delete of the row that a prune marked, a
      delete of an upload that failed. */
  lemma StoreChangesExactly(w: World, e: Event)
    ensures Step(w, e).store ==
        if e.PutDone? && w.worker.Uploading? && e.left.Some? then w.store[w.worker.id := e.left.value]
        else if e.DeleteDone? && (e.ok || e.gone) && w.worker.Cleaning? then w.store - {w.worker.id}
        else if e.DeleteDone? && (e.ok || e.gone) && w.worker.Marked? && w.worker.todo != []
             then w.store - {w.worker.todo[0]}
        else w.store
  {}

  /** Only metadata of objects that are gone is forgotten, ninety days after the row was last written. */
  lemma ForgetExactly(w: World, i: Id)
    requires w.worker.Forgetting? && i in w.jobs
    ensures i in Step(w, Db(true)).jobs <==> !(w.jobs[i].status == Deleted && w.jobs[i].updated < w.clock - 90 * DAY)
    ensures i in Step(w, Db(true)).jobs ==> Step(w, Db(true)).jobs[i] == w.jobs[i]
  {}

  /** The complaint on the schedule row: raised where a delete failed, lowered where a pass went through. */
  lemma ComplainsExactly(w: World)
    requires w.schedule.Some? && (w.worker.Complaining? || (w.worker.Sweeping? && w.worker.todo == []))
    ensures Step(w, Db(true)).schedule == Some(Schedule(w.schedule.value.next, w.worker.Complaining?))
    ensures Step(w, Db(true)).jobs == w.jobs && Step(w, Db(true)).store == w.store
  {}

  /** A delete that reports an error stops the pass before the row is retired. */
  lemma PruneStopsExactly(w: World, ok: bool, gone: bool)
    requires w.worker.Marked? && w.worker.todo != []
    ensures Step(w, DeleteDone(ok, gone)).worker
        == if ok then Removed(w.worker.now, w.worker.stage, w.worker.todo) else Complaining
    ensures Step(w, DeleteDone(ok, gone)).jobs == w.jobs
  {}
}
