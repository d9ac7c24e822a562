/** Theorems about whole runs of the backup worker: crashes, failed Puts, Gets and Deletes, competing
    requests and clock readings may fall between any two steps. */
module BackupRuns {
  import opened Options
  import opened Instants
  import opened Sundays
  import opened Backup
  import opened BackupSafety
  import opened Sets

  // ---------------------------------------------------------------- safety of every run

  lemma {:induction false} RunsAreSafe(w: World, events: seq<Event>)
    requires Safe(w)
    ensures Safe(Run(w, events))
  {
    if events != [] {
      RunsAreSafe(w, events[..|events| - 1]);
      StepSafe(Run(w, events[..|events| - 1]), events[|events| - 1]);
    }
  }

  lemma StoreBound(w: World)
    requires Safe(w)
    ensures |w.store| <= RETENTION + 1
  {
    var kept := Good(w.jobs) + Doomed(w.jobs);
    if i :| i in w.store && Active(w.jobs[i]) {
      StoreWithin(w, kept + {i});
    } else {
      StoreWithin(w, kept);
    }
  }

  lemma StoreWithin(w: World, ids: set<Id>)
    requires forall i :: i in w.store ==> i in ids
    ensures |w.store| <= |ids|
  {
    Smaller(w.store.Keys, ids);
  }

  /** The store promise, for every point of every run of a namespace used for the first time. */
  lemma EveryRunKeepsTheStore(w: World, events: seq<Event>)
    requires Initial(w)
    ensures var w' := Run(w, events);
      && |w'.store| <= RETENTION + 1
      && (forall i :: i in w'.store ==> i in w'.jobs && w'.jobs[i].status != Deleted)
      && (forall i :: i in w'.jobs && w'.jobs[i].status == Succeeded
            ==> i in w'.store && w'.jobs[i].recorded == Some(w'.store[i]))
      && OneActive(w'.jobs)
  {
    RunsAreSafe(w, events);
    StoreBound(Run(w, events));
  }

  lemma {:induction false} RunPrefix(w: World, events: seq<Event>, k: nat, m: nat)
    requires k <= m <= |events|
    ensures Run(w, events[..m]) == Run(Run(w, events[..k]), events[k..m])
    decreases m
  {
    if m == k {
      assert events[k..m] == [];
    } else {
      RunPrefix(w, events, k, m - 1);
      assert events[..m][..m - 1] == events[..m - 1];
      assert events[k..m][..m - k - 1] == events[k..m - 1];
    }
  }

  lemma RunAppend(w: World, a: seq<Event>, b: seq<Event>)
    ensures Run(w, a + b) == Run(Run(w, a), b)
  {
    RunPrefix(w, a + b, |a|, |a + b|);
    assert (a + b)[..|a|] == a && (a + b)[|a|..|a + b|] == b && (a + b)[..|a + b|] == a + b;
  }

  /** Retention never falls back: between any two points of a run, min(10, successes) does not drop. */
  lemma {:induction false} RetentionNeverDrops(w: World, events: seq<Event>)
    requires Safe(w)
    ensures Window(w, Run(w, events))
    decreases |events|
  {
    if events != [] {
      var before := events[..|events| - 1];
      RetentionNeverDrops(w, before);
      RunsAreSafe(w, before);
      StepSafe(Run(w, before), events[|events| - 1]);
    }
  }

  // ---------------------------------------------------------------- oldest first

  predicate Finished(j: Job) {
    j.status == Succeeded || j.status == Pruning || j.status == Deleted
  }

  predicate Gone(j: Job) {
    j.status == Pruning || j.status == Deleted
  }

  ghost predicate TodoIsOld(jobs: map<Id, Job>, todo: seq<Id>) {
    forall t, s :: t in todo && t in jobs && jobs[t].status == Succeeded && s in jobs && jobs[s].status == Succeeded
        && s !in todo
      ==> !Later(jobs[t].finished, jobs[s].finished)
  }

  ghost predicate FinishedBy(jobs: map<Id, Job>, clock: Time) {
    forall i :: i in jobs && Finished(jobs[i]) ==> jobs[i].finished.Some? && jobs[i].finished.value <= clock
  }

  ghost predicate GoneAreOld(jobs: map<Id, Job>) {
    forall p, s :: p in jobs && s in jobs && Gone(jobs[p]) && jobs[s].status == Succeeded
      ==> !Later(jobs[p].finished, jobs[s].finished)
  }

  /** Nothing pruned or deleted finished after something retained. */
  ghost predicate Ordered(w: World) {
    && FinishedBy(w.jobs, w.clock)
    && GoneAreOld(w.jobs)
    && (w.worker.Sweeping? || w.worker.Marked? || w.worker.Removed? ==> TodoIsOld(w.jobs, w.worker.todo))
  }

  /** At most one success is ever surplus, so no older success can be left behind a younger victim. */
  lemma OneVictim(jobs: map<Id, Job>, todo: seq<Id>, t: Id, u: Id)
    requires TodoSound(jobs, todo) && Kept(jobs) <= RETENTION + 1
    requires t in todo && u in todo && jobs[t].status == Succeeded && jobs[u].status == Succeeded
    ensures t == u
  {
    if t != u {
      var most := Survivors(jobs, todo) + {t, u};
      assert |most| == RETENTION + 2;
      assert most <= Good(jobs);
      Smaller(most, Good(jobs));
    }
  }

  lemma MarkOrdered(jobs: map<Id, Job>, todo: seq<Id>, j: Job)
    requires TodoSound(jobs, todo) && Kept(jobs) <= RETENTION + 1 && todo != []
    requires GoneAreOld(jobs) && TodoIsOld(jobs, todo)
    requires j.status == Pruning && j.finished == jobs[todo[0]].finished
    ensures GoneAreOld(jobs[todo[0] := j]) && TodoIsOld(jobs[todo[0] := j], todo)
  {
    var t := todo[0];
    forall s | s in jobs && jobs[s].status == Succeeded && jobs[t].status == Succeeded && s != t
      ensures !Later(jobs[t].finished, jobs[s].finished)
    {
      if s in todo {
        OneVictim(jobs, todo, s, t);
      }
    }
  }

  lemma SelectOrdered(jobs: map<Id, Job>)
    ensures TodoIsOld(jobs, Excess(jobs))
  {
    ExcessSound(jobs);
    var todo := Excess(jobs);
    forall t, s | t in todo && t in jobs && jobs[t].status == Succeeded && s in jobs && jobs[s].status == Succeeded
        && s !in todo
      ensures !Later(jobs[t].finished, jobs[s].finished)
    {
      assert t in Good(jobs) && s in Good(jobs);
      assert Above(jobs, s, t);
    }
  }

  lemma RetireOrdered(jobs: map<Id, Job>, todo: seq<Id>, j: Job)
    requires todo != [] && todo[0] in jobs && jobs[todo[0]].status == Pruning
    requires GoneAreOld(jobs) && TodoIsOld(jobs, todo)
    requires j.status == Deleted && j.finished == jobs[todo[0]].finished
    ensures GoneAreOld(jobs[todo[0] := j]) && TodoIsOld(jobs[todo[0] := j], todo[1..])
  {}

  /** The verified job finishes now, after everything that has finished. */
  lemma SucceedOrdered(jobs: map<Id, Job>, i: Id, j: Job, clock: Time)
    requires FinishedBy(jobs, clock) && GoneAreOld(jobs)
    requires i in jobs && jobs[i].status == Running && j.status == Succeeded && j.finished == Some(clock)
    ensures FinishedBy(jobs[i := j], clock) && GoneAreOld(jobs[i := j])
  {}

  lemma PruneOrdered(w: World)
    requires Safe(w) && Ordered(w) && (w.worker.Sweeping? || w.worker.Removed?)
    ensures Ordered(DbStep(w))
  {
    var todo, w' := w.worker.todo, DbStep(w);
    if w.worker.Removed? {
      RetireOrdered(w.jobs, todo, w.jobs[todo[0]].(status := Deleted, updated := w.clock));
    } else if todo != [] {
      assert todo[0] in todo;
      MarkOrdered(w.jobs, todo, w.jobs[todo[0]].(status := Pruning, updated := w.clock));
    }
  }

  predicate Rewrites(worker: Worker) {
    worker.Locked? || worker.Recording? || worker.Failing? || worker.Complaining? || worker.Uploaded?
  }

  lemma WriteOrdered(w: World)
    requires Safe(w) && Ordered(w) && Rewrites(w.worker)
    ensures Ordered(DbStep(w))
  {
    SameFinishedOrdered(w, DbStep(w));
  }

  lemma DbOrdered(w: World)
    requires Safe(w) && Ordered(w)
    ensures Ordered(DbStep(w))
  {
    match w.worker
    case Selecting(_, _) => SelectOrdered(w.jobs);
    case Sweeping(_, _, _) => PruneOrdered(w);
    case Removed(_, _, _) => PruneOrdered(w);
    case Verified(_, i) => SucceedOrdered(w.jobs, i, DbStep(w).jobs[i], w.clock);
    case Forgetting(_, _) => ForgetOrdered(w.jobs, w.clock);
    case _ => if Rewrites(w.worker) { WriteOrdered(w); }
  }

  lemma ForgetOrdered(jobs: map<Id, Job>, clock: Time)
    requires FinishedBy(jobs, clock) && GoneAreOld(jobs)
    ensures FinishedBy(Forgotten(jobs, clock), clock) && GoneAreOld(Forgotten(jobs, clock))
  {}

  /** Only active jobs are rewritten. */
  ghost predicate SameFinished(jobs: map<Id, Job>, jobs': map<Id, Job>) {
    && (forall i :: i in jobs && Finished(jobs[i]) ==> i in jobs' && jobs'[i] == jobs[i])
    && (forall i :: i in jobs' && Finished(jobs'[i]) ==> i in jobs && jobs[i] == jobs'[i])
  }

  lemma SameFinishedOrdered(w: World, w': World)
    requires Ordered(w) && SameFinished(w.jobs, w'.jobs) && w.clock <= w'.clock
    requires w'.worker == w.worker || !(w'.worker.Sweeping? || w'.worker.Marked? || w'.worker.Removed?)
    ensures Ordered(w')
  {}

  lemma RequestOrdered(w: World, id: Id)
    requires Safe(w) && Ordered(w)
    ensures Ordered(RequestStep(w, id))
  {
    NewestFinds(w.jobs);
    SameFinishedOrdered(w, RequestStep(w, id));
  }

  lemma BeginOrdered(w: World, id: Id)
    requires Safe(w) && Ordered(w) && w.worker.Starting?
    ensures Ordered(BeginStep(w, id))
  {
    BeginShape(w, id);
    SameFinishedOrdered(w, BeginStep(w, id));
  }

  /** The remaining events leave the job table alone and carry a prune list along unchanged. */
  lemma OtherOrdered(w: World, e: Event)
    requires Ordered(w) && (e.Clock? ==> w.clock <= e.to)
    requires !e.Db? && !e.Request? && !e.Begin?
    ensures Ordered(Step(w, e))
  {}

  lemma StepOrdered(w: World, e: Event)
    requires Safe(w) && Ordered(w) && (e.Clock? ==> w.clock <= e.to)
    ensures Ordered(Step(w, e))
  {
    match e
    case Db(ok) => if ok { DbOrdered(w); }
    case Request(id) => RequestOrdered(w, id);
    case Begin(ok, id) => if ok && w.worker.Starting? { BeginOrdered(w, id); }
    case _ => OtherOrdered(w, e);
  }

  /** No clock reading of the run is earlier than the one before. */
  ghost predicate Forward(w: World, events: seq<Event>) {
    forall k :: 0 <= k < |events| && events[k].Clock? ==> Run(w, events[..k]).clock <= events[k].to
  }

  /** With a clock that does not go back, retention is a sliding window over finish times. */
  lemma {:induction false} RetainedAreNewest(w: World, events: seq<Event>)
    requires Safe(w) && Ordered(w) && Forward(w, events)
    ensures Ordered(Run(w, events))
    decreases |events|
  {
    if events != [] {
      var before := events[..|events| - 1];
      assert forall k :: 0 <= k < |before| ==> before[..k] == events[..k];
      RetainedAreNewest(w, before);
      RunsAreSafe(w, before);
      StepOrdered(Run(w, before), events[|events| - 1]);
    }
  }

  /** Whatever the clock did: with eleven successes and nothing interrupted, the row that goes is the one
      with the least recorded finish time.  A verified backup survives its own prune exactly when some
      other success is recorded below it, so a clock set back far enough costs the newest backup. */
  lemma VictimIsLowest(jobs: map<Id, Job>, i: Id)
    requires Doomed(jobs) == {} && |Good(jobs)| == RETENTION + 1 && i in Good(jobs)
    ensures i in Excess(jobs) <==> forall s :: s in Good(jobs) && s != i ==> Above(jobs, s, i)
  {
    ExcessSound(jobs);
    var v := TheVictim(jobs, Excess(jobs));
    assert forall s :: s in Good(jobs) && s != v ==> Above(jobs, s, v);
  }

  lemma TheVictim(jobs: map<Id, Job>, todo: seq<Id>) returns (v: Id)
    requires TodoSound(jobs, todo) && |Good(jobs)| == RETENTION + 1
    ensures v in Good(jobs) && v in todo && forall s :: s in Good(jobs) && s != v ==> s !in todo
  {
    var left, good := Survivors(jobs, todo), Good(jobs);
    assert left <= good;
    assert |good - left| >= 1 by {
      assert |left| + |good - left| == |good| by { assert good == left + (good - left); }
    }
    v :| v in good - left;
    var rest := good - left - {v};
    assert |left| == RETENTION;
    assert |rest| == 0 by { assert good == left + {v} + rest; }
    assert forall s :: s in good && s != v && s !in left ==> s in rest;
  }
}
