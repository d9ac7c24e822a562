/** What every step of every run of the backup worker keeps: the store bound, the integrity of
    recorded backups, no orphan objects, one active job, and retention as a sliding window. */
module BackupSafety {
  import opened Options
  import opened Instants
  import opened Sundays
  import opened Backup
  import opened Sets

  ghost predicate OneActive(jobs: map<Id, Job>) {
    forall i, k :: i in jobs && k in jobs && Active(jobs[i]) && Active(jobs[k]) ==> i == k
  }

  ghost predicate NoRunning(jobs: map<Id, Job>) {
    forall i :: i in jobs ==> jobs[i].status != Running
  }

  function Good(jobs: map<Id, Job>): set<Id> {
    OfStatus(jobs, Succeeded)
  }

  function Doomed(jobs: map<Id, Job>): set<Id> {
    OfStatus(jobs, Pruning)
  }

  function Kept(jobs: map<Id, Job>): nat {
    |Good(jobs)| + |Doomed(jobs)|
  }

  function Ids(s: seq<Id>): set<Id> {
    set i | i in s
  }

  ghost predicate NoDuplicates(s: seq<Id>) {
    forall a, b :: 0 <= a < b < |s| ==> s[a] != s[b]
  }

  /** No object outside the live rows, and every success backed by the object it recorded. */
  ghost predicate StoreSound(w: World) {
    && (forall i :: i in w.jobs ==> i in w.drawn)
    && (forall i :: i in w.store ==> i in w.jobs && w.jobs[i].status != Deleted)
    && (forall i :: i in w.jobs && w.jobs[i].status == Succeeded ==>
        i in w.store && w.jobs[i].recorded == Some(w.store[i]))
  }

  /** Room for one more object is left whenever the active job may have one. */
  ghost predicate Bounded(w: World) {
    && Kept(w.jobs) <= RETENTION + 1
    && (forall i :: i in w.jobs && Active(w.jobs[i]) && (w.jobs[i].status == Running || i in w.store)
          ==> Kept(w.jobs) <= RETENTION)
  }

  /** The successes a prune pass will leave. */
  function Survivors(jobs: map<Id, Job>, todo: seq<Id>): set<Id> {
    set i | i in jobs && jobs[i].status == Succeeded && i !in todo
  }

  /** What a prune pass still has to do. */
  ghost predicate TodoSound(jobs: map<Id, Job>, todo: seq<Id>) {
    && NoDuplicates(todo)
    && (forall i :: i in todo ==> i in jobs && (jobs[i].status == Succeeded || jobs[i].status == Pruning))
    && (forall i :: i in jobs && jobs[i].status == Pruning ==> i in todo)
    && |Survivors(jobs, todo)| <= RETENTION
    && (forall i :: i in todo && jobs[i].status == Succeeded ==> |Survivors(jobs, todo)| == RETENTION)
  }

  ghost predicate Exclusive(w: World, id: Id) {
    id in w.jobs && w.jobs[id].status == Running
  }

  /** The positions at which the lock holder has recovered dead jobs and started none. */
  predicate Idling(worker: Worker) {
    worker.Complaining? || worker.Selecting? || InPrune(worker) || worker.Forgetting? || worker.Starting?
  }

  predicate InPrune(worker: Worker) {
    worker.Sweeping? || worker.Marked? || worker.Removed?
  }

  predicate Executing(worker: Worker) {
    worker.Exporting? || worker.Recording? || InUpload(worker) || worker.Verified? || worker.Cleaning?
        || worker.Failing?
  }

  predicate InUpload(worker: Worker) {
    worker.Uploading? || worker.Uploaded? || worker.Verifying?
  }

  ghost predicate WorkerSound(w: World) {
    && (Idling(w.worker) ==> NoRunning(w.jobs))
    && (InPrune(w.worker) ==> TodoSound(w.jobs, w.worker.todo))
    && (w.worker.Marked? || w.worker.Removed? ==> w.worker.todo != [] && w.jobs[w.worker.todo[0]].status == Pruning)
    && (w.worker.Removed? ==> w.worker.todo[0] !in w.store)
    && (w.worker.Forgetting? || w.worker.Starting? ==> |Good(w.jobs)| <= RETENTION && Doomed(w.jobs) == {})
    && (Executing(w.worker) ==> Exclusive(w, w.worker.id))
    && (InUpload(w.worker) ==> w.jobs[w.worker.id].recorded == Some(w.worker.made))
    && (w.worker.Verified? ==> w.worker.id in w.store && w.jobs[w.worker.id].recorded == Some(w.store[w.worker.id]))
  }

  ghost predicate Safe(w: World) {
    StoreSound(w) && OneActive(w.jobs) && Bounded(w) && WorkerSound(w)
  }

  // ---------------------------------------------------------------- sets of rows

  lemma Rewritten(jobs: map<Id, Job>, id: Id, j: Job)
    ensures Good(jobs[id := j]) == if j.status == Succeeded then Good(jobs) + {id} else Good(jobs) - {id}
    ensures Doomed(jobs[id := j]) == if j.status == Pruning then Doomed(jobs) + {id} else Doomed(jobs) - {id}
  {}

  /** A row that neither was nor becomes a kept backup. */
  lemma RewrittenActive(jobs: map<Id, Job>, id: Id, j: Job)
    requires id in jobs ==> jobs[id].status != Succeeded && jobs[id].status != Pruning
    requires j.status != Succeeded && j.status != Pruning
    ensures Good(jobs[id := j]) == Good(jobs) && Doomed(jobs[id := j]) == Doomed(jobs)
  {}

  lemma RecoveredKeeps(jobs: map<Id, Job>, now: Time, clock: Time)
    ensures Good(Recovered(jobs, now, clock)) == Good(jobs)
    ensures Doomed(Recovered(jobs, now, clock)) == Doomed(jobs)
  {}

  lemma ForgottenKeeps(jobs: map<Id, Job>, clock: Time)
    ensures Good(Forgotten(jobs, clock)) == Good(jobs)
    ensures Doomed(Forgotten(jobs, clock)) == Doomed(jobs)
  {}

  // ---------------------------------------------------------------- the queries

  /** With one active job the newest-first query finds it. */
  lemma NewestFinds(jobs: map<Id, Job>)
    requires OneActive(jobs)
    ensures match NewestActive(jobs)
            case Some(i) => i in jobs && Active(jobs[i])
            case None => forall i :: i in jobs ==> !Active(jobs[i])
  {
    forall i | i in jobs && Active(jobs[i]) ensures IsNewestActive(jobs, i) {}
  }

  lemma OldestFinds(jobs: map<Id, Job>)
    requires OneActive(jobs)
    ensures match OldestWaiting(jobs)
            case Some(i) => i in jobs && Waiting(jobs[i])
            case None => forall i :: i in jobs ==> !Waiting(jobs[i])
  {
    forall i | i in jobs && Waiting(jobs[i]) ensures IsOldestWaiting(jobs, i) {}
  }

  /** The two queries select the same job whenever nothing is running, whatever the two orders. */
  lemma QueriesAgree(w: World)
    requires Safe(w) && NoRunning(w.jobs)
    ensures NewestActive(w.jobs) == OldestWaiting(w.jobs)
  {
    NewestFinds(w.jobs);
    OldestFinds(w.jobs);
  }

  lemma {:induction false} RankedLists(jobs: map<Id, Job>, ids: set<Id>)
    requires ids <= jobs.Keys
    ensures var r := Ranked(jobs, ids);
            && |r| == |ids| && Ids(r) == ids && NoDuplicates(r)
            && (forall a, b :: 0 <= a < b < |r| ==> r[a] in ids && r[b] in ids && Above(jobs, r[a], r[b]))
    decreases |ids|
  {
    if ids != {} {
      TopExists(jobs, ids);
      var r := Ranked(jobs, ids);
      var rest := ids - {r[0]};
      RankedLists(jobs, rest);
      assert r[1..] == Ranked(jobs, rest);
      forall i ensures i in r <==> i in ids {
        assert i in r <==> i == r[0] || i in r[1..];
        assert i in r[1..] <==> i in Ids(r[1..]);
      }
      forall a, b | 0 <= a < b < |r| ensures r[a] in ids && r[b] in ids && r[a] != r[b] && Above(jobs, r[a], r[b]) {
        assert r[b] == r[1..][b - 1] && r[b] in rest by { assert r[b] in Ids(r[1..]); }
        if a > 0 {
          assert r[a] == r[1..][a - 1];
        }
      }
    }
  }

  lemma DistinctSlices(r: seq<Id>, n: nat)
    requires NoDuplicates(r) && n <= |r|
    ensures |Ids(r)| == |r|
    ensures Ids(r) - Ids(r[n..]) == Ids(r[..n]) && |Ids(r[..n])| == n
  {
    Listed(r);
    Listed(r[..n]);
    assert forall a :: 0 <= a < n ==> r[..n][a] == r[a];
    assert forall b :: 0 <= b < |r| - n ==> r[n..][b] == r[n + b];
    assert r == r[..n] + r[n..];
    assert Ids(r) - Ids(r[n..]) == Ids(r[..n]);
  }

  lemma {:induction false} Listed(r: seq<Id>)
    requires NoDuplicates(r)
    ensures |Ids(r)| == |r|
  {
    if r != [] {
      Listed(r[1..]);
      assert Ids(r) == {r[0]} + Ids(r[1..]);
    }
  }

  function Tail(r: seq<Id>): seq<Id> {
    if |r| <= RETENTION then [] else r[RETENTION..]
  }

  /** OFFSET 10 of a listing: what is left out is the first ten rows, or everything. */
  lemma TailCounts(r: seq<Id>)
    requires NoDuplicates(r)
    ensures NoDuplicates(Tail(r)) && Ids(Tail(r)) <= Ids(r)
    ensures |Ids(r) - Ids(Tail(r))| <= RETENTION
    ensures Tail(r) != [] ==> |Ids(r) - Ids(Tail(r))| == RETENTION
  {
    Listed(r);
    if |r| <= RETENTION {
      assert Ids(r) - Ids(Tail(r)) == Ids(r);
    } else {
      DistinctSlices(r, RETENTION);
    }
  }

  ghost predicate Descending(jobs: map<Id, Job>, r: seq<Id>) {
    (forall i :: i in r ==> i in jobs) && forall a, b :: 0 <= a < b < |r| ==> Above(jobs, r[a], r[b])
  }

  lemma TailIsLow(jobs: map<Id, Job>, r: seq<Id>, t: Id, s: Id)
    requires Descending(jobs, r)
    requires t in Tail(r) && s in r && s !in Tail(r)
    ensures Above(jobs, s, t)
  {}

  /** The prune query takes every interrupted row and exactly what exceeds the newest ten. */
  lemma ExcessSound(jobs: map<Id, Job>)
    ensures TodoSound(jobs, Excess(jobs))
    ensures forall t, s :: t in Excess(jobs) && t in Good(jobs) && s in Good(jobs) && s !in Excess(jobs) ==>
        Above(jobs, s, t)
  {
    var bad, good := Ranked(jobs, Doomed(jobs)), Ranked(jobs, Good(jobs));
    RankedLists(jobs, Doomed(jobs));
    RankedLists(jobs, Good(jobs));
    TailCounts(good);
    Concatenated(bad, Tail(good));
    Planned(jobs, Excess(jobs), Ids(Tail(good)));
    forall t, s | t in Excess(jobs) && t in Good(jobs) && s in Good(jobs) && s !in Excess(jobs)
      ensures Above(jobs, s, t)
    {
      assert s in Ids(good) && t !in Ids(bad);
      TailIsLow(jobs, good, t, s);
    }
  }

  lemma Concatenated(a: seq<Id>, b: seq<Id>)
    requires NoDuplicates(a) && NoDuplicates(b) && Ids(a) !! Ids(b)
    ensures NoDuplicates(a + b) && Ids(a + b) == Ids(a) + Ids(b)
  {
    forall x, y | 0 <= x < y < |a + b| ensures (a + b)[x] != (a + b)[y] {
      if x < |a| <= y {
        assert a[x] in Ids(a) && b[y - |a|] in Ids(b);
      }
    }
  }

  /** A list of the interrupted rows and the low successes, ten successes or fewer left out. */
  lemma Planned(jobs: map<Id, Job>, todo: seq<Id>, low: set<Id>)
    requires NoDuplicates(todo) && Ids(todo) == Doomed(jobs) + low && low <= Good(jobs)
    requires |Good(jobs) - low| <= RETENTION && (low != {} ==> |Good(jobs) - low| == RETENTION)
    ensures TodoSound(jobs, todo)
  {
    PlanSpares(jobs, todo, low);
    assert forall i :: i in todo && i in Good(jobs) ==> i in low;
  }

  lemma PlanSpares(jobs: map<Id, Job>, todo: seq<Id>, low: set<Id>)
    requires Ids(todo) == Doomed(jobs) + low && low <= Good(jobs)
    ensures forall i :: i in todo <==> i in Doomed(jobs) || i in low
    ensures Survivors(jobs, todo) == Good(jobs) - low
  {
    assert forall i :: i in todo <==> i in Ids(todo);
  }

  // ---------------------------------------------------------------- one step

  function Capped(n: nat): nat {
    if n < RETENTION then n else RETENTION
  }

  /** The retention promise between two worlds: the number of usable backups, up to ten, never drops. */
  ghost predicate Window(w: World, w': World) {
    Capped(|Good(w.jobs)|) <= Capped(|Good(w'.jobs)|)
  }

  /** A job is queued, new or after a failure: nothing the worker relies on changes. */
  lemma QueueSafe(w: World, w': World, i: Id, j: Job)
    requires Safe(w) && j.status == Queued
    requires if i in w.jobs then w.jobs[i].status == Failed else i !in w.drawn && forall k :: k in w.jobs ==>
        !Active(w.jobs[k])
    requires w' == w.(jobs := w.jobs[i := j], drawn := w.drawn + {i}, schedule := w'.schedule)
    ensures StoreSound(w') && OneActive(w'.jobs) && Bounded(w') && Good(w'.jobs) == Good(w.jobs)
  {
    RewrittenActive(w.jobs, i, j);
  }

  lemma QueueKeepsTodo(w: World, i: Id, j: Job, todo: seq<Id>)
    requires TodoSound(w.jobs, todo) && j.status == Queued
    requires i in w.jobs ==> w.jobs[i].status == Failed
    ensures TodoSound(w.jobs[i := j], todo)
  {
    assert Survivors(w.jobs[i := j], todo) == Survivors(w.jobs, todo);
  }

  lemma QueueKeepsWorker(w: World, w': World, i: Id, j: Job)
    requires Safe(w) && j.status == Queued
    requires if i in w.jobs then w.jobs[i].status == Failed else i !in w.drawn && forall k :: k in w.jobs ==>
        !Active(w.jobs[k])
    requires w' == w.(jobs := w.jobs[i := j], drawn := w.drawn + {i}, schedule := w'.schedule)
    ensures WorkerSound(w')
  {
    RewrittenActive(w.jobs, i, j);
    match w.worker
    case Sweeping(_, _, todo) => QueueKeepsTodo(w, i, j, todo);
    case Marked(_, _, todo) => QueueKeepsTodo(w, i, j, todo);
    case Removed(_, _, todo) => QueueKeepsTodo(w, i, j, todo);
    case _ =>
  }

  lemma RequestSafe(w: World, id: Id)
    requires Safe(w)
    ensures Safe(RequestStep(w, id)) && Good(RequestStep(w, id).jobs) == Good(w.jobs)
  {
    NewestFinds(w.jobs);
    var w' := RequestStep(w, id);
    if w' != w {
      match NewestActive(w.jobs)
      case Some(i) =>
        assert w.drawn == w.drawn + {i};
        QueueSafe(w, w', i, w'.jobs[i]);
        QueueKeepsWorker(w, w', i, w'.jobs[i]);
      case None =>
        QueueSafe(w, w', id, NewJob(None, w.clock));
        QueueKeepsWorker(w, w', id, NewJob(None, w.clock));
    }
  }

  /** A waiting or new job is started: no other job is active, and the prune pass has left room. */
  lemma StartSafe(w: World, w': World, i: Id, j: Job)
    requires Safe(w) && w.worker.Starting? && j.status == Running
    requires if i in w.jobs then Waiting(w.jobs[i]) else forall k :: k in w.jobs ==> !Active(w.jobs[k])
    requires w' == w.(jobs := w.jobs[i := j], drawn := w.drawn + {i}, schedule := w'.schedule,
        worker := Exporting(w.worker.now, i))
    ensures Safe(w') && Good(w'.jobs) == Good(w.jobs)
  {
    RewrittenActive(w.jobs, i, j);
    assert forall k :: k in w.jobs && Active(w.jobs[k]) ==> k == i;
  }

  /** The transaction starts one job that was waiting or is new, or leaves the job table alone. */
  lemma BeginShape(w: World, id: Id)
    requires Safe(w) && w.worker.Starting?
    ensures var w' := BeginStep(w, id);
            && w'.store == w.store && w'.clock == w.clock
            && (w'.worker.Exporting? ==>
                  var i := w'.worker.id;
                  && i in w'.jobs && w'.jobs == w.jobs[i := w'.jobs[i]]
                      && w'.drawn == (if i in w.jobs then w.drawn else w.drawn + {i})
                  && w'.jobs[i].status == Running && w'.worker.now == w.worker.now
                  && if i in w.jobs then Waiting(w.jobs[i]) else i == id && forall k :: k in w.jobs ==>
                      !Waiting(w.jobs[k]))
            && (!w'.worker.Exporting? ==> w'.jobs == w.jobs && w'.drawn == w.drawn && (w'.worker.Idle? || w' == w))
  {
    OldestFinds(w.jobs);
  }

  lemma BeginSafe(w: World, id: Id)
    requires Safe(w) && w.worker.Starting?
    ensures Safe(BeginStep(w, id)) && Good(BeginStep(w, id).jobs) == Good(w.jobs)
  {
    var w' := BeginStep(w, id);
    BeginShape(w, id);
    if w'.worker.Exporting? {
      assert w'.worker.id in w.jobs ==> w.drawn + {w'.worker.id} == w.drawn;
      StartSafe(w, w', w'.worker.id, w'.jobs[w'.worker.id]);
    }
  }

  lemma RecoverSafe(w: World)
    requires Safe(w) && w.worker.Locked?
    ensures Safe(DbStep(w)) && Good(DbStep(w).jobs) == Good(w.jobs)
  {
    RecoveredKeeps(w.jobs, w.worker.now, w.clock);
  }

  lemma SelectSafe(w: World)
    requires Safe(w) && w.worker.Selecting?
    ensures Safe(DbStep(w)) && Good(DbStep(w).jobs) == Good(w.jobs)
  {
    ExcessSound(w.jobs);
  }

  lemma MarkKeepsTodo(jobs: map<Id, Job>, todo: seq<Id>, j: Job)
    requires TodoSound(jobs, todo) && todo != [] && j.status == Pruning
    ensures TodoSound(jobs[todo[0] := j], todo)
  {
    assert Survivors(jobs[todo[0] := j], todo) == Survivors(jobs, todo);
  }

  lemma MarkCounts(jobs: map<Id, Job>, todo: seq<Id>, j: Job)
    requires TodoSound(jobs, todo) && todo != [] && j.status == Pruning
    ensures Kept(jobs[todo[0] := j]) == Kept(jobs)
    ensures Capped(|Good(jobs)|) <= Capped(|Good(jobs[todo[0] := j])|)
  {
    var i, jobs' := todo[0], jobs[todo[0] := j];
    Rewritten(jobs, i, j);
    assert i in todo;
    if jobs[i].status == Succeeded {
      assert i in Good(jobs) && i !in Doomed(jobs);
      assert |Good(jobs')| == |Good(jobs)| - 1 && |Doomed(jobs')| == |Doomed(jobs)| + 1;
      assert Survivors(jobs, todo) <= Good(jobs');
      Smaller(Survivors(jobs, todo), Good(jobs'));
    } else {
      assert i in Doomed(jobs) && i !in Good(jobs);
      assert Good(jobs') == Good(jobs) && Doomed(jobs') == Doomed(jobs);
    }
  }

  /** The mark: the row leaves the successes only when ten others stay. */
  lemma MarkSafe(w: World)
    requires Safe(w) && w.worker.Sweeping? && w.worker.todo != []
    ensures Safe(DbStep(w)) && Window(w, DbStep(w))
  {
    var todo := w.worker.todo;
    var i := todo[0];
    var j := w.jobs[i].(status := Pruning, updated := w.clock);
    MarkKeepsTodo(w.jobs, todo, j);
    MarkCounts(w.jobs, todo, j);
    RowSafe(w, i, j);
  }

  /** A kept row moves on to Pruning or Deleted; the active job is not touched. */
  lemma RowSafe(w: World, i: Id, j: Job)
    requires StoreSound(w) && OneActive(w.jobs) && Bounded(w)
    requires i in w.jobs && (w.jobs[i].status == Succeeded || w.jobs[i].status == Pruning)
    requires j.status == Pruning || (j.status == Deleted && i !in w.store)
    requires Kept(w.jobs[i := j]) <= Kept(w.jobs)
    ensures var w' := w.(jobs := w.jobs[i := j]);
            StoreSound(w') && OneActive(w'.jobs) && Bounded(w')
  {
    var w' := w.(jobs := w.jobs[i := j]);
    assert forall k :: k in w'.jobs && Active(w'.jobs[k]) ==> k != i && w'.jobs[k] == w.jobs[k];
    assert StoreSound(w');
  }

  lemma SweptSafe(w: World)
    requires Safe(w) && w.worker.Sweeping? && w.worker.todo == []
    ensures Safe(DbStep(w)) && Good(DbStep(w).jobs) == Good(w.jobs)
  {
    assert Survivors(w.jobs, []) == Good(w.jobs);
  }

  lemma RetireKeepsTodo(jobs: map<Id, Job>, todo: seq<Id>, j: Job)
    requires TodoSound(jobs, todo) && todo != [] && jobs[todo[0]].status == Pruning && j.status == Deleted
    ensures TodoSound(jobs[todo[0] := j], todo[1..])
  {
    assert forall k :: k in todo[1..] <==> k in todo && k != todo[0];
    assert Survivors(jobs[todo[0] := j], todo[1..]) == Survivors(jobs, todo);
  }

  lemma RetireCounts(jobs: map<Id, Job>, i: Id, j: Job)
    requires i in jobs && jobs[i].status == Pruning && j.status == Deleted
    ensures Good(jobs[i := j]) == Good(jobs) && Kept(jobs[i := j]) == Kept(jobs) - 1
  {
    Rewritten(jobs, i, j);
    assert i in Doomed(jobs) && i !in Good(jobs);
  }

  /** The row of an object that is gone becomes history. */
  lemma RetireSafe(w: World)
    requires Safe(w) && w.worker.Removed?
    ensures Safe(DbStep(w)) && Good(DbStep(w).jobs) == Good(w.jobs)
  {
    var i := w.worker.todo[0];
    RetiredSafe(w, DbStep(w), w.jobs[i].(status := Deleted, updated := w.clock));
  }

  lemma RetiredSafe(w: World, w': World, j: Job)
    requires Safe(w) && w.worker.Removed? && j.status == Deleted
    requires var todo := w.worker.todo;
             w' == w.(jobs := w.jobs[todo[0] := j], worker := Sweeping(w.worker.now, w.worker.stage, todo[1..]))
    ensures Safe(w') && Good(w'.jobs) == Good(w.jobs)
  {
    var todo := w.worker.todo;
    RetireCounts(w.jobs, todo[0], j);
    RetireKeepsTodo(w.jobs, todo, j);
    RowSafe(w, todo[0], j);
  }

  lemma ForgetSafe(w: World)
    requires Safe(w) && w.worker.Forgetting?
    ensures Safe(DbStep(w)) && Good(DbStep(w).jobs) == Good(w.jobs)
  {
    ForgottenKeeps(w.jobs, w.clock);
  }

  lemma SucceedCounts(jobs: map<Id, Job>, i: Id, j: Job)
    requires i in jobs && jobs[i].status == Running && j.status == Succeeded
    ensures Kept(jobs[i := j]) == Kept(jobs) + 1 && |Good(jobs[i := j])| == |Good(jobs)| + 1
  {
    Rewritten(jobs, i, j);
    assert i !in Good(jobs) && i !in Doomed(jobs);
  }

  /** The verified job fills the room kept for it, and no active job is left to claim more. */
  lemma SucceedRows(w: World, i: Id, j: Job)
    requires StoreSound(w) && OneActive(w.jobs) && Bounded(w)
    requires i in w.jobs && w.jobs[i].status == Running && j.status == Succeeded
    requires i in w.store && j.recorded == Some(w.store[i])
    ensures var w' := w.(jobs := w.jobs[i := j]);
            && StoreSound(w') && OneActive(w'.jobs) && Bounded(w') && NoRunning(w'.jobs)
  {
    SucceedCounts(w.jobs, i, j);
    assert forall k :: k in w.jobs && k != i ==> !Active(w.jobs[k]);
  }

  lemma SucceedSafe(w: World)
    requires Safe(w) && w.worker.Verified?
    ensures Safe(DbStep(w)) && Window(w, DbStep(w))
  {
    var i := w.worker.id;
    var j := w.jobs[i].(status := Succeeded, finished := Some(w.clock), nextAttempt := None, updated := w.clock);
    SucceedCounts(w.jobs, i, j);
    SucceedRows(w, i, j);
  }

  lemma RecordSafe(w: World)
    requires Safe(w) && (w.worker.Recording? || w.worker.Failing?)
    ensures Safe(DbStep(w)) && Good(DbStep(w).jobs) == Good(w.jobs)
  {
    NoteSafe(w, DbStep(w), DbStep(w).jobs[w.worker.id]);
  }

  /** The running job's row is rewritten, as running or as failed. */
  lemma NoteSafe(w: World, w': World, j: Job)
    requires Safe(w) && Executing(w.worker) && w' == w.(jobs := w.jobs[w.worker.id := j], worker := w'.worker)
    requires match w'.worker
      case Uploading(_, id, made) => id == w.worker.id && j.status == Running && j.recorded == Some(made)
      case Idle => j.status == Failed
      case _ => false
    ensures Safe(w') && Good(w'.jobs) == Good(w.jobs)
  {
    RewrittenActive(w.jobs, w.worker.id, j);
  }

  lemma DbSafe(w: World)
    requires Safe(w)
    ensures Safe(DbStep(w)) && Window(w, DbStep(w))
  {
    match w.worker
    case Locked(_) => RecoverSafe(w);
    case Selecting(_, _) => SelectSafe(w);
    case Sweeping(_, _, todo) => if todo == [] { SweptSafe(w); } else { MarkSafe(w); }
    case Removed(_, _, _) => RetireSafe(w);
    case Forgetting(_, _) => ForgetSafe(w);
    case Recording(_, _, _) => RecordSafe(w);
    case Failing(_) => RecordSafe(w);
    case Verified(_, _) => SucceedSafe(w);
    case _ =>
  }

  lemma ExportSafe(w: World, e: Event)
    requires Safe(w) && e.Exported?
    ensures Safe(Step(w, e)) && Good(Step(w, e).jobs) == Good(w.jobs)
  {}

  lemma PutSafe(w: World, e: Event)
    requires Safe(w) && e.PutDone?
    ensures Safe(Step(w, e)) && Good(Step(w, e).jobs) == Good(w.jobs)
  {
    if w.worker.Uploading? {
      var w' := Step(w, e);
      assert w'.jobs == w.jobs;
      assert Bounded(w');
    }
  }

  lemma GetSafe(w: World, e: Event)
    requires Safe(w) && e.GetDone?
    ensures Safe(Step(w, e)) && Good(Step(w, e).jobs) == Good(w.jobs)
  {}

  /** The object of an interrupted or running job goes, or may have gone. */
  lemma ErasedSafe(w: World, w': World, id: Id, ok: bool, gone: bool)
    requires Safe(w) && w' == w.(store := Erased(w.store, id, ok, gone), worker := w'.worker)
    requires match w.worker
      case Marked(now, stage, todo) =>
        id == todo[0] && w'.worker == if ok then Removed(now, stage, todo) else Complaining
      case Cleaning(i) => id == i && w'.worker == Failing(id)
      case _ => false
    ensures Safe(w')
  {
    assert w'.store.Keys <= w.store.Keys;
    assert StoreSound(w') && Bounded(w');
  }

  lemma EraseSafe(w: World, e: Event)
    requires Safe(w) && e.DeleteDone?
    ensures Safe(Step(w, e)) && Step(w, e).jobs == w.jobs
  {
    match w.worker
    case Marked(_, _, todo) => ErasedSafe(w, Step(w, e), todo[0], e.ok, e.gone);
    case Cleaning(id) => ErasedSafe(w, Step(w, e), id, e.ok, e.gone);
    case _ =>
  }

  /** Time passes, the worker starts, stops, or gives a job up. */
  lemma MovedSafe(w: World, w': World)
    requires Safe(w) && w' == w.(clock := w'.clock, worker := w'.worker)
    requires w'.worker == w.worker || w'.worker.Idle? || w'.worker.Locked?
        || (Executing(w.worker) && w'.worker == Failing(w.worker.id))
    ensures Safe(w')
  {}

  lemma MoveSafe(w: World, e: Event)
    requires Safe(w)
        && (e.Clock? || e.TryLock? || e.Crash? || e == Db(false) || (e.Begin? && !(e.ok && w.worker.Starting?)))
    ensures Safe(Step(w, e)) && Step(w, e).jobs == w.jobs
  {
    MovedSafe(w, Step(w, e));
  }

  lemma StepSafe(w: World, e: Event)
    requires Safe(w)
    ensures Safe(Step(w, e)) && Window(w, Step(w, e))
  {
    match e
    case Request(id) => RequestSafe(w, id);
    case Begin(ok, id) => if ok && w.worker.Starting? { BeginSafe(w, id); } else { MoveSafe(w, e); }
    case Db(ok) => if ok { DbSafe(w); } else { MoveSafe(w, e); }
    case Clock(_) => MoveSafe(w, e);
    case TryLock => MoveSafe(w, e);
    case Crash => MoveSafe(w, e);
    case DeleteDone(_, _) => EraseSafe(w, e);
    case PutDone(_, _) => PutSafe(w, e);
    case GetDone(_, _) => GetSafe(w, e);
    case Exported(_) => ExportSafe(w, e);
  }
}
