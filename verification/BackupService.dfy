/** The backup service as it is written: Request and Tick over mutable tables
    (backend/backup/service.go).  Every effect is proved to be the step of the state machine that the
    worker's position calls for, so each theorem about runs holds of this code. */
module BackupService {
  import opened Options
  import opened Instants
  import opened Sundays
  import opened Backup
  import opened BackupSafety
  import opened BackupRuns
  import opened BackupRecovery
  import opened Sets

  /** What other instances and the wall clock do between two effects of the worker. */
  datatype Interference = Ask | Advance(to: Time)

  /** How the next effect goes; only the fields that effect looks at matter. */
  datatype Outcome = Outcome(ok: bool, made: Option<Object>, left: Option<Object>, intact: bool, gone: bool)

  datatype Moment = Moment(before: seq<Interference>, outcome: Outcome)

  datatype Ending = Crashed | Errored | Fine

  /** For the next n moments and beyond nobody interferes, statements and store calls succeed, and the store
      keeps what it is given; what an export makes is the same each time, and may be nothing. */
  predicate Even(ms: seq<Moment>, from: nat, n: nat) {
    from + n <= |ms| && forall k :: from <= k < |ms| ==> Smooth(ms[k], ms[from].outcome.made)
  }

  predicate Smooth(m: Moment, made: Option<Object>) {
    && m.before == [] && m.outcome.ok && m.outcome.intact && m.outcome.gone
    && m.outcome.made == m.outcome.left == made
  }

  predicate Archived(o: Outcome) {
    o.made.Some? && o.made.value.size >= MIN_SIZE
  }

  function UploadScript(made: Object): seq<Event> {
    [Exported(Some(made)), Db(true), PutDone(true, Some(made))]
  }

  /** What the store has for the job after a put. */
  function Stored(store: map<Id, Object>, job: Id, put: Outcome): Option<Object> {
    if put.left.Some? then put.left else if job in store then Some(store[job]) else None
  }

  /** Enough moments for one prune pass, and for a whole Tick, in any state they can find. */
  const PRUNE := 36
  const ENOUGH := 100

  /** A slot is due, a job waits whose time has come, or a worker died over one. */
  ghost predicate WorkToDo(w: World) {
    || (w.schedule.Some? && w.schedule.value.next <= w.clock)
    || (exists i :: i in w.jobs && w.jobs[i].status == Running)
    || (exists i ::
          i in w.jobs && (w.jobs[i].status == Queued || w.jobs[i].status == Failed)
          && (w.jobs[i].nextAttempt.None? || w.jobs[i].nextAttempt.value <= w.clock))
  }

  lemma WorkIsWork(w: World)
    ensures WorkToDo(w) <==> HasWork(w)
  {
    if i :| i in w.jobs && (w.jobs[i].status == Running || Ready(w.jobs[i], w.clock)) {
      assert w.jobs[i].status == Running || w.jobs[i].status == Queued || w.jobs[i].status == Failed;
    }
    if i :| i in w.jobs && (w.jobs[i].status == Queued || w.jobs[i].status == Failed)
            && (w.jobs[i].nextAttempt.None? || w.jobs[i].nextAttempt.value <= w.clock) {
      assert Ready(w.jobs[i], w.clock);
    }
  }

  /** Interrupted rows and successes are at most eleven, so no prune pass is longer. */
  lemma ExcessIsShort(w: World)
    requires Safe(w)
    ensures |Excess(w.jobs)| <= RETENTION + 1
  {
    var todo := Excess(w.jobs);
    ExcessSound(w.jobs);
    Listed(todo);
    Smaller(Ids(todo), Good(w.jobs) + Doomed(w.jobs));
  }

  /** The calm events once a job is picked: a backup and a prune pass, or a failure written down. */
  ghost function WorkScript(b: World, made: Option<Object>): seq<Event> {
    if made.Some? && made.value.size >= MIN_SIZE
    then ExecuteScript(made.value) + PruneScript(Run(b, ExecuteScript(made.value)))
    else [Exported(made), Db(true)]
  }

  /** The calm events of a whole Tick. */
  ghost function TickScript(w: World, made: Option<Object>, id: Id): seq<Event> {
    var a := Run(w, OpenScript(w));
    OpenScript(w) + if a.worker.Starting? then StartScript(a, made, id) else []
  }

  /** The calm events after the first prune pass. */
  ghost function StartScript(a: World, made: Option<Object>, id: Id): seq<Event>
    requires a.worker.Starting?
  {
    var b := BeginStep(a, id);
    [Event.Begin(true, id)] + if b.worker.Exporting? then WorkScript(b, made) else []
  }

  /** No job is running; those waiting and the successes are untouched, and no waiting one is gone. */
  ghost predicate NoneStarted(jobs: map<Id, Job>, jobs': map<Id, Job>) {
    && (forall i :: i in jobs' ==> jobs'[i].status != Running)
    && (forall i :: i in jobs' && jobs'[i].status != Deleted ==> i in jobs && jobs'[i] == jobs[i])
    && (forall i :: i in jobs && (jobs[i].status == Queued || jobs[i].status == Failed) ==>
          i in jobs' && jobs'[i] == jobs[i])
  }

  /** In c the job has newly succeeded, and the store holds what its row records. */
  ghost predicate Makes(w: World, c: World, i: Id, made: Object) {
    && i in c.jobs && c.jobs[i].status == Succeeded && (i in w.jobs ==> w.jobs[i].status != Succeeded)
    && c.jobs[i].recorded == Some(made) && c.jobs[i].finished == Some(w.clock)
    && i in c.store && c.store[i] == made
    && (w.schedule.Some? && w.schedule.value.next <= w.clock ==> c.jobs[i].slot == Some(LatestSunday(w.clock)))
  }

  /** No row is waiting, running or half pruned, and the store holds exactly the successes, at most ten. */
  ghost predicate Settled(jobs: map<Id, Job>, store: map<Id, Object>) {
    && (forall i :: i in jobs ==> jobs[i].status == Succeeded || jobs[i].status == Deleted)
    && (forall i :: i in store <==> i in jobs && jobs[i].status == Succeeded)
    && |store| <= 10
  }

  /** The job was started and has failed; it is due again after its backoff. */
  ghost predicate Fails(w: World, z: World, i: Id) {
    && i in z.jobs && z.jobs[i].status == Failed && (i in w.jobs ==> w.jobs[i].status != Succeeded)
    && z.jobs[i].attempts == (if i in w.jobs then w.jobs[i].attempts else 0) + 1
    && z.jobs[i].nextAttempt
        == Some(w.clock + MINUTE * Pow2(if z.jobs[i].attempts < 6 then z.jobs[i].attempts else 6))
    && (w.schedule.Some? && w.schedule.value.next <= w.clock ==> z.jobs[i].slot == Some(LatestSunday(w.clock)))
  }

  lemma IdleTick(w: World, made: Option<Object>, id: Id)
    requires Safe(w) && w.worker == Idle && id !in w.drawn && !WorkToDo(w)
    ensures var z := Run(w, TickScript(w, made, id));
            NoneStarted(w.jobs, z.jobs) && z.drawn == w.drawn && z.clock == w.clock
  {
    WorkIsWork(w);
    var z := CalmTickIdles(w, id);
    assert z.worker == Idle;
    forall i | i in z.jobs && z.jobs[i].status != Deleted ensures i in w.jobs && z.jobs[i] == w.jobs[i] {
      assert i !in Doomed(z.jobs);
      assert i in Good(z.jobs) || Active(z.jobs[i]);
    }
  }

  lemma WorkingTick(w: World, made: Object, id: Id) returns (i: Id, n: nat)
    requires Safe(w) && w.worker == Idle && id !in w.drawn && WorkToDo(w) && made.size >= MIN_SIZE
    ensures n <= |TickScript(w, Some(made), id)| && Makes(w, Run(w, TickScript(w, Some(made), id)[..n]), i, made)
    ensures var z := Run(w, TickScript(w, Some(made), id)); Settled(z.jobs, z.store) && z.clock == w.clock
  {
    WorkIsWork(w);
    var making, closing, slot;
    making, closing, i, slot := CalmTickRecovers(w, id, made);
    TickIsBackup(w, made, id);
    n := |making|;
    assert (making + closing)[..n] == making;
    TidyIsSettled(Run(w, making + closing));
  }

  lemma TidyIsSettled(w: World)
    requires Tidy(w)
    ensures Settled(w.jobs, w.store)
  {
    assert |w.store| == |w.store.Keys|;
    forall i | i in w.jobs ensures w.jobs[i].status == Succeeded || w.jobs[i].status == Deleted {
      assert i !in Doomed(w.jobs);
    }
  }

  lemma TickIsBackup(w: World, made: Object, id: Id)
    requires Safe(w) && w.worker == Idle && id !in w.drawn && HasWork(w) && made.size >= MIN_SIZE
    ensures var making := OpenScript(w) + [Event.Begin(true, id)] + ExecuteScript(made);
            TickScript(w, Some(made), id) == making + PruneScript(Run(w, making))
  {
    var b := Starts(w, id);
    var script := OpenScript(w) + [Event.Begin(true, id)];
    TickUnfolds(w, Some(made), id, script, b);
    WorkUnfolds(w, script, made, b);
  }

  lemma WorkUnfolds(w: World, script: seq<Event>, made: Object, b: World)
    requires b == Run(w, script) && made.size >= MIN_SIZE
    ensures script + WorkScript(b, Some(made))
        == script + ExecuteScript(made) + PruneScript(Run(w, script + ExecuteScript(made)))
  {
    RunAppend(w, script, ExecuteScript(made));
  }

  lemma Starts(w: World, id: Id) returns (b: World)
    requires Safe(w) && w.worker == Idle && id !in w.drawn && HasWork(w)
    ensures Run(w, OpenScript(w)).worker.Starting? && b == BeginStep(Run(w, OpenScript(w)), id) && b.worker.Exporting?
    ensures b == Run(w, OpenScript(w) + [Event.Begin(true, id)])
  {
    var script;
    script, b := StartWork(w, id);
  }

  lemma Joined(was: seq<Event>, w: World, made: Option<Object>, id: Id, a: World)
    requires a == Run(w, OpenScript(w)) && a.worker.Starting?
    ensures was + OpenScript(w) + StartScript(a, made, id) == was + TickScript(w, made, id)
  {
    Associates(was, OpenScript(w), StartScript(a, made, id));
  }

  lemma TickUnfolds(w: World, made: Option<Object>, id: Id, script: seq<Event>, b: World)
    requires script == OpenScript(w) + [Event.Begin(true, id)]
    requires Run(w, OpenScript(w)).worker.Starting? && b == BeginStep(Run(w, OpenScript(w)), id) && b.worker.Exporting?
    ensures TickScript(w, made, id) == script + WorkScript(b, made)
  {
    Associates(OpenScript(w), [Event.Begin(true, id)], WorkScript(b, made));
  }

  lemma Associates<T>(a: seq<T>, b: seq<T>, c: seq<T>)
    ensures a + (b + c) == a + b + c
  {}

  lemma Midway(w: World, a: seq<Event>, b: seq<Event>, n: nat)
    requires n <= |b|
    ensures Run(w, (a + b)[..|a| + n]) == Run(Run(w, a), b[..n])
  {
    assert (a + b)[..|a| + n] == a + b[..n];
    RunAppend(w, a, b[..n]);
  }

  lemma FailingTick(w: World, made: Option<Object>, id: Id) returns (i: Id)
    requires Safe(w) && w.worker == Idle && id !in w.drawn && WorkToDo(w)
    requires made.None? || made.value.size < MIN_SIZE
    ensures var z := Run(w, TickScript(w, made, id)); Fails(w, z, i) && z.clock == w.clock
  {
    WorkIsWork(w);
    var b := Starts(w, id);
    TickUnfolds(w, made, id, OpenScript(w) + [Event.Begin(true, id)], b);
    assert WorkScript(b, made) == [Exported(made), Db(true)];
    var z;
    z, i := CalmTickFails(w, id, made);
  }

  class Service {
    var jobs: map<Id, Job>
    var drawn: set<Id>
    var nextId: Id
    var schedule: Option<Schedule>
    var store: map<Id, Object>
    var clock: Time

    // What will happen, and how far it has; the process dies where it ends.
    const moments: seq<Moment>
    var at: nat

    ghost var worker: Worker
    ghost var trace: seq<Event>
    ghost const origin: World

    ghost function State(): World
      reads this
    {
      World(jobs, drawn, schedule, store, clock, worker)
    }

    /** The fields are a state the machine reaches by the logged events. */
    ghost predicate Valid()
      reads this
    {
      Initial(origin) && State() == Run(origin, trace) && forall i :: i in drawn ==> i < nextId
    }

    constructor (start: Time, moments: seq<Moment>)
      ensures Valid() && worker == Idle && jobs == map[] && clock == start && at == 0 && this.moments == moments
    {
      jobs, drawn, nextId, schedule, store := map[], {}, 0, None, map[];
      clock, at, worker, trace := start, 0, Idle, [];
      this.moments := moments;
      origin := World(map[], {}, None, map[], start, Idle);
    }

    /** What an export at the next moment makes. */
    ghost function NextMade(): Option<Object>
      reads this
    {
      if at < |moments| then moments[at].outcome.made else None
    }

    /** The trace has grown by these events, at the cost of so many moments. */
    ghost predicate Calmly(to: nat, before: seq<Event>, script: seq<Event>, id: Id)
      reads this
    {
      at == to && trace == before + script && nextId == id
    }

    ghost method Log(e: Event, before: World)
      requires Initial(origin) && before == Run(origin, trace) && State() == Step(before, e)
      requires forall i :: i in drawn ==> i < nextId
      modifies `trace
      ensures Valid() && trace == old(trace) + [e]
    {
      RunAppend(origin, trace, [e]);
      assert Run(before, [e][..0]) == before;
      assert [e][..0] == [];
      assert Run(before, [e]) == Step(before, e);
      trace := trace + [e];
    }

    lemma Sound()
      requires Valid()
      ensures Safe(State())
    {
      RunsAreSafe(origin, trace);
    }

    /** What the position of the lock holder says about the job it executes. */
    lemma Held()
      requires Valid() && Executing(worker)
      ensures worker.id in jobs && jobs[worker.id].status == Running
      ensures worker.Verified? ==> worker.id in store && jobs[worker.id].recorded == Some(store[worker.id])
    {
      Sound();
    }

    lemma OneAtATime()
      requires Valid()
      ensures OneActive(jobs)
    {
      Sound();
    }

    lemma Short()
      requires Valid()
      ensures 3 * |Excess(jobs)| + 3 <= PRUNE
    {
      Sound();
      ExcessIsShort(State());
    }

    /** The row a prune pass is at is still in the table. */
    lemma Listing()
      requires Valid() && (worker.Sweeping? || worker.Marked? || worker.Removed?) && worker.todo != []
      ensures worker.todo[0] in jobs
    {
      Sound();
      assert worker.todo[0] in worker.todo;
    }

    // ---------------------------------------------------------------- queries

    method FindNewestActive() returns (r: Option<Id>)
      requires OneActive(jobs)
      ensures r == NewestActive(jobs)
    {
      NewestFinds(jobs);
      r := None;
      var rest := jobs.Keys;
      while rest != {}
        invariant rest <= jobs.Keys
        invariant r.Some? ==> r.value in jobs && Active(jobs[r.value])
        invariant r.None? ==> forall i :: i in jobs && i !in rest ==> !Active(jobs[i])
        decreases |rest|
      {
        var i :| i in rest;
        rest := rest - {i};
        if Active(jobs[i]) && (r.None? || jobs[r.value].created < jobs[i].created) {
          r := Some(i);
        }
      }
    }

    method FindOldestWaiting() returns (r: Option<Id>)
      requires OneActive(jobs)
      ensures r == OldestWaiting(jobs)
    {
      OldestFinds(jobs);
      r := None;
      var rest := jobs.Keys;
      while rest != {}
        invariant rest <= jobs.Keys
        invariant r.Some? ==> r.value in jobs && Waiting(jobs[r.value])
        invariant r.None? ==> forall i :: i in jobs && i !in rest ==> !Waiting(jobs[i])
        decreases |rest|
      {
        var i :| i in rest;
        rest := rest - {i};
        if Waiting(jobs[i]) && (r.None? || jobs[i].created < jobs[r.value].created) {
          r := Some(i);
        }
      }
    }

    method Best(ids: set<Id>) returns (top: Id)
      requires ids <= jobs.Keys && ids != {}
      ensures IsTop(jobs, ids, top)
    {
      top :| top in ids;
      var rest := ids - {top};
      while rest != {}
        invariant rest < ids && top in ids && top !in rest
        invariant forall k :: k in ids && k !in rest && k != top ==> Above(jobs, top, k)
        decreases |rest|
      {
        var k :| k in rest;
        rest := rest - {k};
        if Above(jobs, k, top) {
          top := k;
        }
      }
    }

    /** ORDER BY finished_at DESC, id DESC. */
    method List(ids: set<Id>) returns (r: seq<Id>)
      requires ids <= jobs.Keys
      ensures r == Ranked(jobs, ids)
    {
      r := [];
      var rest := ids;
      while rest != {}
        invariant rest <= ids
        invariant Ranked(jobs, ids) == r + Ranked(jobs, rest)
        decreases |rest|
      {
        var top := Best(rest);
        assert Ranked(jobs, rest) == [top] + Ranked(jobs, rest - {top});
        r := r + [top];
        rest := rest - {top};
      }
    }

    // ---------------------------------------------------------------- other instances

    /** Request; false is ErrBusy. */
    method Request() returns (ok: bool)
      requires Valid()
      modifies this
      ensures Valid() && worker == old(worker) && at == old(at) && clock == old(clock)
      ensures State() == RequestStep(old(State()), old(nextId))
      ensures ok <==> forall i :: i in old(jobs) && Active(old(jobs)[i]) ==> old(jobs)[i].status == Failed
      ensures trace == old(trace) + [Event.Request(old(nextId))]
    {
      OneAtATime();
      ghost var before := State();
      NewestFinds(jobs);
      var row := if schedule.None? then Some(Schedule(NextSunday(clock), false)) else schedule;
      var found := FindNewestActive();
      ok := true;
      if found.Some? {
        var i := found.value;
        if jobs[i].status != Failed {
          ok := false;
        } else {
          schedule := row;
          jobs := jobs[i := jobs[i].(status := Queued, nextAttempt := Some(clock), updated := clock)];
        }
      } else {
        schedule := row;
        jobs := jobs[nextId := NewJob(None, clock)];
        drawn := drawn + {nextId};
      }
      ghost var id := nextId;
      nextId := nextId + 1;
      Log(Event.Request(id), before);
    }

    /** Lets the world move on, then tells how the next effect goes; None when the process dies here. */
    method Await() returns (o: Option<Outcome>)
      requires Valid()
      modifies this
      ensures Valid() && worker == (if o.None? then Idle else old(worker)) && store == old(store)
      ensures if old(at) >= |moments| then o.None? && at == old(at)
              else o == Some(moments[old(at)].outcome) && at == old(at) + 1
      ensures old(at) < |moments| && moments[old(at)].before == [] ==>
                State() == old(State()) && trace == old(trace) && nextId == old(nextId)
    {
      if at >= |moments| {
        ghost var before := State();
        worker := Idle;
        Log(Crash, before);
        return None;
      }
      var m := moments[at];
      at := at + 1;
      var k := 0;
      while k < |m.before|
        invariant 0 <= k <= |m.before|
        invariant Valid() && worker == old(worker) && store == old(store) && at == old(at) + 1
        invariant k == 0 ==> State() == old(State()) && trace == old(trace) && nextId == old(nextId)
      {
        match m.before[k] {
          case Ask =>
            var _ := Request();
          case Advance(to) =>
            ghost var before := State();
            clock := to;
            Log(Clock(to), before);
        }
        k := k + 1;
      }
      return Some(m.outcome);
    }

    /** A database statement that fails ends the worker's current activity. */
    ghost method StatementFails()
      requires Valid()
      modifies this`worker, this`trace
      ensures Valid() && worker == DbFailure(old(State())).worker
      ensures trace == old(trace) + [Db(false)]
    {
      ghost var before := State();
      worker := DbFailure(before).worker;
      Log(Db(false), before);
    }

    // ---------------------------------------------------------------- the worker

    /** The two queries of prune. */
    method SelectExcess(now: Time, stage: Stage) returns (end: Ending, todo: seq<Id>)
      requires Valid() && worker == Selecting(now, stage)
      modifies this
      ensures Valid() && worker == (if end.Fine? then Sweeping(now, stage, todo) else Idle)
      ensures if old(at) >= |moments| then end.Crashed? else end.Fine? <==> moments[old(at)].outcome.ok
      ensures Even(moments, old(at), 1) ==>
                Calmly(old(at) + 1, old(trace), [Db(true)], old(nextId)) && todo == Excess(old(jobs))
    {
      todo := [];
      var o := Await();
      if o.None? { return Crashed, []; }
      if !o.value.ok { StatementFails(); return Errored, []; }
      ghost var before := State();
      var surplus := List(OfStatus(jobs, Succeeded));
      var interrupted := List(OfStatus(jobs, Pruning));
      todo := interrupted + (if |surplus| <= RETENTION then [] else surplus[RETENTION..]);
      worker := Sweeping(now, stage, todo);
      Log(Db(true), before);
      return Fine, todo;
    }

    method MarkPruning(now: Time, stage: Stage, todo: seq<Id>) returns (end: Ending)
      requires Valid() && todo != [] && worker == Sweeping(now, stage, todo)
      modifies this
      ensures Valid() && worker == (if end.Fine? then Marked(now, stage, todo) else Idle)
      ensures if old(at) >= |moments| then end.Crashed? else end.Fine? <==> moments[old(at)].outcome.ok
      ensures Even(moments, old(at), 1) ==> Calmly(old(at) + 1, old(trace), [Db(true)], old(nextId))
    {
      var o := Await();
      if o.None? { return Crashed; }
      if !o.value.ok { StatementFails(); return Errored; }
      ghost var before := State();
      var job := todo[0];
      Listing();
      jobs := jobs[job := jobs[job].(status := Pruning, updated := clock)];
      worker := Marked(now, stage, todo);
      Log(Db(true), before);
      return Fine;
    }

    method DeleteObject(now: Time, stage: Stage, todo: seq<Id>) returns (end: Ending)
      requires Valid() && todo != [] && worker == Marked(now, stage, todo)
      modifies this
      ensures Valid()
      ensures worker
          == (match end case Crashed => Idle case Errored => Complaining case Fine => Removed(now, stage, todo))
      ensures if old(at) >= |moments| then end.Crashed? else end.Fine? <==> moments[old(at)].outcome.ok
      ensures Even(moments, old(at), 1) ==> Calmly(old(at) + 1, old(trace), [DeleteDone(true, true)], old(nextId))
    {
      var o := Await();
      if o.None? { return Crashed; }
      ghost var before := State();
      store := Erased(store, todo[0], o.value.ok, o.value.gone);
      worker := if o.value.ok then Removed(now, stage, todo) else Complaining;
      Log(DeleteDone(o.value.ok, o.value.gone), before);
      return if o.value.ok then Fine else Errored;
    }

    method MarkDeleted(now: Time, stage: Stage, todo: seq<Id>) returns (end: Ending)
      requires Valid() && todo != [] && worker == Removed(now, stage, todo)
      modifies this
      ensures Valid() && worker == (if end.Fine? then Sweeping(now, stage, todo[1..]) else Idle)
      ensures if old(at) >= |moments| then end.Crashed? else end.Fine? <==> moments[old(at)].outcome.ok
      ensures Even(moments, old(at), 1) ==> Calmly(old(at) + 1, old(trace), [Db(true)], old(nextId))
    {
      var o := Await();
      if o.None? { return Crashed; }
      if !o.value.ok { StatementFails(); return Errored; }
      ghost var before := State();
      Listing();
      jobs := jobs[todo[0] := jobs[todo[0]].(status := Deleted, updated := clock)];
      worker := Sweeping(now, stage, todo[1..]);
      Log(Db(true), before);
      return Fine;
    }

    method ClearComplaint(now: Time, stage: Stage) returns (end: Ending)
      requires Valid() && worker == Sweeping(now, stage, [])
      modifies this
      ensures Valid() && worker == (if end.Fine? then Forgetting(now, stage) else Idle)
      ensures if old(at) >= |moments| then end.Crashed? else end.Fine? <==> moments[old(at)].outcome.ok
      ensures Even(moments, old(at), 1) ==> Calmly(old(at) + 1, old(trace), [Db(true)], old(nextId))
    {
      var o := Await();
      if o.None? { return Crashed; }
      if !o.value.ok { StatementFails(); return Errored; }
      ghost var before := State();
      schedule := Complain(schedule, false);
      worker := Forgetting(now, stage);
      Log(Db(true), before);
      return Fine;
    }

    method ForgetOld(now: Time, stage: Stage) returns (end: Ending)
      requires Valid() && worker == Forgetting(now, stage)
      modifies this
      ensures Valid() && worker == (if end.Fine? then AfterPrune(now, stage) else Idle)
      ensures end.Fine? ==> Pruned()
      ensures if old(at) >= |moments| then end.Crashed? else end.Fine? <==> moments[old(at)].outcome.ok
      ensures Even(moments, old(at), 1) ==> Calmly(old(at) + 1, old(trace), [Db(true)], old(nextId))
    {
      var o := Await();
      if o.None? { return Crashed; }
      if !o.value.ok { StatementFails(); return Errored; }
      Sound();
      ForgottenKeeps(jobs, clock);
      ghost var before := State();
      jobs := Forgotten(jobs, clock);
      worker := AfterPrune(now, stage);
      Log(Db(true), before);
      return Fine;
    }

    /** The retention bound restored: nothing running or half pruned, at most ten backups. */
    ghost predicate Pruned()
      reads this
    {
      NoRunning(jobs) && Doomed(jobs) == {} && |Good(jobs)| <= RETENTION
    }

    /** prune: on every path that is not Fine the lock is released. */
    method Prune(now: Time, stage: Stage) returns (end: Ending)
      requires Valid() && worker == Selecting(now, stage)
      modifies this
      ensures Valid() && worker == (if end.Fine? then AfterPrune(now, stage) else Idle)
      ensures end.Fine? ==> Pruned()
      ensures Even(moments, old(at), PRUNE) ==>
                && end.Fine? && old(at) <= at <= old(at) + PRUNE && nextId == old(nextId)
                && trace == old(trace) + PruneScript(old(State()))
    {
      Short();
      var todo;
      end, todo := SelectExcess(now, stage);
      if end.Fine? { end := Sweep(now, stage, todo); }
    }

    /** The prune loop. */
    method Sweep(now: Time, stage: Stage, all: seq<Id>) returns (end: Ending)
      requires Valid() && worker == Sweeping(now, stage, all)
      modifies this
      ensures Valid() && worker == (if end.Fine? then AfterPrune(now, stage) else Idle)
      ensures end.Fine? ==> Pruned()
      ensures Even(moments, old(at), 3 * |all| + 2) ==>
                end.Fine? && Calmly(old(at) + 3 * |all| + 2, old(trace), SweepScript(|all|), old(nextId))
    {
      var todo := all;
      while todo != []
        invariant Valid() && worker == Sweeping(now, stage, todo)
        invariant Even(moments, old(at), 3 * |all| + 2) ==>
                    && |todo| <= |all| && at == old(at) + 3 * (|all| - |todo|) && nextId == old(nextId)
                    && trace + SweepScript(|todo|) == old(trace) + SweepScript(|all|)
        decreases |todo|
      {
        end := Remove(now, stage, todo);
        if !end.Fine? { return; }
        todo := todo[1..];
      }
      end := Settle(now, stage);
    }

    /** What follows the prune loop. */
    method Settle(now: Time, stage: Stage) returns (end: Ending)
      requires Valid() && worker == Sweeping(now, stage, [])
      modifies this
      ensures Valid() && worker == (if end.Fine? then AfterPrune(now, stage) else Idle)
      ensures end.Fine? ==> Pruned()
      ensures Even(moments, old(at), 2) ==>
                end.Fine? && Calmly(old(at) + 2, old(trace), [Db(true), Db(true)], old(nextId))
    {
      end := ClearComplaint(now, stage);
      if end.Fine? { end := ForgetOld(now, stage); }
    }

    /** One row of the prune loop: marked, its object deleted, the row retired. */
    method Remove(now: Time, stage: Stage, todo: seq<Id>) returns (end: Ending)
      requires Valid() && todo != [] && worker == Sweeping(now, stage, todo)
      modifies this
      ensures Valid() && worker == (if end.Fine? then Sweeping(now, stage, todo[1..]) else Idle)
      ensures Even(moments, old(at), 3) ==>
                && end.Fine?
                && Calmly(old(at) + 3, old(trace), [Db(true), DeleteDone(true, true), Db(true)], old(nextId))
    {
      end := MarkPruning(now, stage, todo);
      if !end.Fine? { return; }
      end := DeleteObject(now, stage, todo);
      if end.Errored? { MaintenanceFailure(); }
      if !end.Fine? { return; }
      end := MarkDeleted(now, stage, todo);
    }

    /** maintenanceFailure: a best-effort note on the schedule row. */
    method MaintenanceFailure()
      requires Valid() && worker == Complaining
      modifies this
      ensures Valid() && worker == Idle
    {
      var o := Await();
      if o.None? { return; }
      if !o.value.ok { StatementFails(); return; }
      ghost var before := State();
      schedule := Complain(schedule, true);
      worker := Idle;
      Log(Db(true), before);
    }

    /** The body of that transaction, on a copy of the tables. */
    method Choose(now: Time) returns (row: Schedule, table: map<Id, Job>, ids: set<Id>, job: Option<Id>)
      requires OneActive(jobs) && nextId !in drawn
      requires worker == Starting(now)
      ensures State().(schedule := Some(row), jobs := table, drawn := ids,
                       worker := if job.Some? then Exporting(now, job.value) else Idle) == BeginStep(State(), nextId)
    {
      OldestFinds(jobs);
      row := schedule.GetOr(Schedule(NextSunday(now), false));
      table, ids := jobs, drawn;
      job := FindOldestWaiting();
      if row.next <= now {
        var slot := Some(LatestSunday(now));
        if job.None? {
          job := Some(nextId);
          ids := ids + {nextId};
          table := table[nextId := NewJob(slot, now)];
        } else {
          table := table[job.value := table[job.value].(slot := slot, nextAttempt := Some(now))];
        }
        row := row.(next := NextSunday(now));
      }
      if job.Some? && table[job.value].nextAttempt.Some? && table[job.value].nextAttempt.value > now {
        job := None;
      }
      if job.Some? {
        table := table[job.value := Started(table[job.value], clock)];
      }
    }

    /** The transaction of Tick that picks and starts a job; None when there is nothing to do. */
    method Begin(now: Time) returns (end: Ending, job: Option<Id>)
      requires Valid() && worker == Starting(now)
      modifies this
      ensures Valid()
      ensures worker == (if end.Fine? && job.Some? then Exporting(now, job.value) else Idle)
      ensures end.Fine? ==> Doomed(jobs) == {} && |Good(jobs)| <= RETENTION && (job.None? ==> NoRunning(jobs))
      ensures if old(at) >= |moments| then end.Crashed? else end.Fine? <==> moments[old(at)].outcome.ok
      ensures Even(moments, old(at), 1) ==>
                && Calmly(old(at) + 1, old(trace), [Event.Begin(true, old(nextId))], old(nextId) + 1)
                && State() == BeginStep(old(State()), old(nextId))
    {
      var o := Await();
      if o.None? { return Crashed, None; }
      if !o.value.ok {
        ghost var before := State();
        worker := Idle;
        Log(Event.Begin(false, 0), before);
        return Errored, None;
      }
      job := CommitBegin(now);
      return Fine, job;
    }

    method CommitBegin(now: Time) returns (job: Option<Id>)
      requires Valid() && worker == Starting(now)
      modifies this
      ensures Valid()
      ensures State() == BeginStep(old(State()), old(nextId))
      ensures worker == (if job.Some? then Exporting(now, job.value) else Idle)
      ensures Doomed(jobs) == {} && |Good(jobs)| <= RETENTION && (job.None? ==> NoRunning(jobs))
      ensures trace == old(trace) + [Event.Begin(true, old(nextId))] && nextId == old(nextId) + 1 && at == old(at)
    {
      BeginSettles();
      job := Pick(now);
    }

    method Pick(now: Time) returns (job: Option<Id>)
      requires Valid() && worker == Starting(now)
      modifies this
      ensures Valid()
      ensures State() == BeginStep(old(State()), old(nextId))
      ensures worker == (if job.Some? then Exporting(now, job.value) else Idle)
      ensures trace == old(trace) + [Event.Begin(true, old(nextId))] && nextId == old(nextId) + 1 && at == old(at)
    {
      BeginSound();
      ghost var before, id := State(), nextId;
      var row, table, ids;
      row, table, ids, job := Choose(now);
      schedule, jobs, drawn, nextId := Some(row), table, ids, nextId + 1;
      worker := if job.Some? then Exporting(now, job.value) else Idle;
      Log(Event.Begin(true, id), before);
    }

    lemma BeginSound()
      requires Valid() && worker.Starting?
      ensures OneActive(jobs) && nextId !in drawn
      ensures forall i :: i in BeginStep(State(), nextId).drawn ==> i < nextId + 1
    {
      Sound();
      BeginKeeps(State(), nextId);
    }

    lemma BeginSettles()
      requires Valid() && worker.Starting?
      ensures var w' := BeginStep(State(), nextId);
              Doomed(w'.jobs) == {} && |Good(w'.jobs)| <= RETENTION && (w'.worker.Idle? ==> NoRunning(w'.jobs))
    {
      Sound();
      BeginKeeps(State(), nextId);
    }

    static lemma BeginKeeps(w: World, id: Id)
      requires Safe(w) && w.worker.Starting?
      ensures var w' := BeginStep(w, id);
              Doomed(w'.jobs) == {} && |Good(w'.jobs)| <= RETENTION && (w'.worker.Idle? ==> NoRunning(w'.jobs))
      ensures forall i :: i in BeginStep(w, id).drawn ==> i in w.drawn || i == id
    {
      BeginSafe(w, id);
      OldestFinds(w.jobs);
      var w' := BeginStep(w, id);
      assert Doomed(w'.jobs) <= Doomed(w.jobs);
    }

    /** Dump and encrypt into a local file. */
    method Export(now: Time, job: Id) returns (end: Ending, made: Object)
      requires Valid() && worker == Exporting(now, job)
      modifies this
      ensures Valid()
      ensures worker
          == (match end case Crashed => Idle case Errored => Failing(job) case Fine => Recording(now, job, made))
      ensures if old(at) >= |moments| then end.Crashed? else end.Fine? <==> Archived(moments[old(at)].outcome)
      ensures end.Fine? ==> moments[old(at)].outcome.made == Some(made)
      ensures store == old(store) && (old(at) < |moments| ==> at == old(at) + 1)
      ensures Even(moments, old(at), 1) ==>
                Calmly(old(at) + 1, old(trace), [Exported(moments[old(at)].outcome.made)], old(nextId))
    {
      made := Object(0, 0);
      var o := Await();
      if o.None? { return Crashed, made; }
      ghost var before := State();
      if o.value.made.None? || o.value.made.value.size < MIN_SIZE {
        worker := Failing(job);
        Log(Exported(o.value.made), before);
        return Errored, made;
      }
      made := o.value.made.value;
      worker := Recording(now, job, made);
      Log(Exported(o.value.made), before);
      return Fine, made;
    }

    /** The write that fences a worker whose connection is gone. */
    method Record(now: Time, job: Id, made: Object) returns (end: Ending)
      requires Valid() && worker == Recording(now, job, made)
      modifies this
      ensures Valid()
      ensures worker
          == (match end case Crashed => Idle case Errored => Failing(job) case Fine => Uploading(now, job, made))
      ensures if old(at) >= |moments| then end.Crashed? else end.Fine? <==> moments[old(at)].outcome.ok
      ensures Even(moments, old(at), 1) ==> Calmly(old(at) + 1, old(trace), [Db(true)], old(nextId))
      ensures store == old(store) && (old(at) < |moments| ==> at == old(at) + 1)
    {
      var o := Await();
      if o.None? { return Crashed; }
      if !o.value.ok { StatementFails(); return Errored; }
      CommitRecord(now, job, made);
      return Fine;
    }

    method CommitRecord(now: Time, job: Id, made: Object)
      requires Valid() && worker == Recording(now, job, made)
      modifies this
      ensures Valid() && worker == Uploading(now, job, made)
      ensures Calmly(old(at), old(trace), [Db(true)], old(nextId)) && store == old(store)
    {
      Held();
      ghost var before := State();
      jobs := jobs[job := jobs[job].(recorded := Some(made), updated := clock)];
      worker := Uploading(now, job, made);
      Log(Db(true), before);
    }

    method Put(now: Time, job: Id, made: Object) returns (end: Ending)
      requires Valid() && worker == Uploading(now, job, made)
      modifies this
      ensures Valid()
      ensures worker
          == (match end case Crashed => Idle case Errored => Cleaning(job) case Fine => Uploaded(now, job, made))
      ensures if old(at) >= |moments| then end.Crashed? else end.Fine? <==> moments[old(at)].outcome.ok
      ensures old(at) < |moments| ==>
                && at == old(at) + 1
                && store == match moments[old(at)].outcome.left
                            case Some(left) => old(store)[job := left]
                            case None => old(store)
      ensures Even(moments, old(at), 1) ==>
                Calmly(old(at) + 1, old(trace), [PutDone(true, moments[old(at)].outcome.left)], old(nextId))
    {
      var o := Await();
      if o.None? { return Crashed; }
      ghost var before := State();
      if o.value.left.Some? {
        store := store[job := o.value.left.value];
      }
      worker := if o.value.ok then Uploaded(now, job, made) else Cleaning(job);
      Log(PutDone(o.value.ok, o.value.left), before);
      return if o.value.ok then Fine else Errored;
    }

    method NoteUploaded(now: Time, job: Id, made: Object) returns (end: Ending)
      requires Valid() && worker == Uploaded(now, job, made)
      modifies this
      ensures Valid()
      ensures worker
          == (match end case Crashed => Idle case Errored => Failing(job) case Fine => Verifying(now, job, made))
      ensures if old(at) >= |moments| then end.Crashed? else end.Fine? <==> moments[old(at)].outcome.ok
      ensures Even(moments, old(at), 1) ==> Calmly(old(at) + 1, old(trace), [Db(true)], old(nextId))
      ensures store == old(store) && (old(at) < |moments| ==> at == old(at) + 1)
    {
      var o := Await();
      if o.None? { return Crashed; }
      if !o.value.ok { StatementFails(); return Errored; }
      ghost var before := State();
      worker := Verifying(now, job, made);
      Log(Db(true), before);
      return Fine;
    }

    /** Reads the object back and compares size and digest; same tells whether they agree. */
    method ReadBack(now: Time, job: Id, made: Object) returns (end: Ending, same: bool)
      requires Valid() && worker == Verifying(now, job, made)
      modifies this
      ensures Valid()
      ensures worker == (match end case Crashed => Idle case Errored => Failing(job)
                                   case Fine => if same then Verified(now, job) else Cleaning(job))
      ensures if old(at) >= |moments| then end.Crashed?
              else end.Fine? && same <==>
                && moments[old(at)].outcome.ok && moments[old(at)].outcome.intact
                && job in old(store) && old(store)[job] == made
      ensures store == old(store) && (old(at) < |moments| ==> at == old(at) + 1)
      ensures Even(moments, old(at), 1) && job in old(store) ==>
                Calmly(old(at) + 1, old(trace), [GetDone(true, true)], old(nextId))
    {
      same := false;
      var o := Await();
      if o.None? { return Crashed, false; }
      ghost var before := State();
      if !o.value.ok || job !in store {
        worker := Failing(job);
        Log(GetDone(o.value.ok, o.value.intact), before);
        return Errored, false;
      }
      same := o.value.intact && store[job] == made;
      worker := if same then Verified(now, job) else Cleaning(job);
      Log(GetDone(o.value.ok, o.value.intact), before);
      return Fine, same;
    }

    method Complete(now: Time, job: Id) returns (end: Ending)
      requires Valid() && worker == Verified(now, job)
      modifies this
      ensures Valid()
      ensures worker
          == (match end case Crashed => Idle case Errored => Failing(job) case Fine => Selecting(now, Closing))
      ensures end.Fine? ==>
          job in jobs && jobs[job].status == Succeeded && job in store && jobs[job].recorded == Some(store[job])
      ensures if old(at) >= |moments| then end.Crashed? else end.Fine? <==> moments[old(at)].outcome.ok
      ensures Even(moments, old(at), 1) ==> Calmly(old(at) + 1, old(trace), [Db(true)], old(nextId))
    {
      var o := Await();
      if o.None? { return Crashed; }
      if !o.value.ok { StatementFails(); return Errored; }
      CommitSuccess(now, job);
      return Fine;
    }

    method CommitSuccess(now: Time, job: Id)
      requires Valid() && worker == Verified(now, job)
      modifies this
      ensures Valid() && worker == Selecting(now, Closing)
      ensures job in jobs && jobs[job].status == Succeeded && job in store && jobs[job].recorded == Some(store[job])
      ensures Calmly(old(at), old(trace), [Db(true)], old(nextId))
    {
      Held();
      ghost var before := State();
      jobs := jobs[job :=
          jobs[job].(status := Succeeded, finished := Some(clock), nextAttempt := None, updated := clock)];
      worker := Selecting(now, Closing);
      Log(Db(true), before);
    }

    /** execute: Fine when the archive was uploaded, read back, found intact and recorded as a success. */
    method Execute(now: Time, job: Id) returns (end: Ending)
      requires Valid() && worker == Exporting(now, job)
      modifies this
      ensures Valid()
      ensures worker
          == (match end case Crashed => Idle case Errored => Failing(job) case Fine => Selecting(now, Closing))
      ensures end.Fine? ==>
          job in jobs && jobs[job].status == Succeeded && job in store && jobs[job].recorded == Some(store[job])
      ensures old(at) + 6 <= |moments| ==>
                (end.Fine? <==>
                  && Archived(moments[old(at)].outcome) && moments[old(at) + 1].outcome.ok
                  && moments[old(at) + 2].outcome.ok
                  && moments[old(at) + 3].outcome.ok && moments[old(at) + 4].outcome.ok
                  && moments[old(at) + 4].outcome.intact
                  && Stored(old(store), job, moments[old(at) + 2].outcome) == moments[old(at)].outcome.made
                  && moments[old(at) + 5].outcome.ok)
      ensures Even(moments, old(at), 6) && Archived(moments[old(at)].outcome) ==>
                && end.Fine?
                && Calmly(old(at) + 6, old(trace), ExecuteScript(moments[old(at)].outcome.made.value), old(nextId))
      ensures Even(moments, old(at), 6) && !Archived(moments[old(at)].outcome) ==>
                && end.Errored?
                && Calmly(old(at) + 1, old(trace), [Exported(moments[old(at)].outcome.made)], old(nextId))
    {
      var made;
      end, made := Transfer(now, job);
      if end.Fine? { end := Confirm(now, job, made); }
    }

    /** Export, record, upload. */
    method Transfer(now: Time, job: Id) returns (end: Ending, made: Object)
      requires Valid() && worker == Exporting(now, job)
      modifies this
      ensures Valid()
      ensures worker
          == (match end case Crashed => Idle case Errored => Failing(job) case Fine => Uploaded(now, job, made))
      ensures old(at) + 3 <= |moments| ==>
                (end.Fine? <==>
                  && Archived(moments[old(at)].outcome) && moments[old(at) + 1].outcome.ok
                  && moments[old(at) + 2].outcome.ok)
      ensures old(at) + 3 <= |moments| && end.Fine? ==>
                && at == old(at) + 3 && moments[old(at)].outcome.made == Some(made)
                && (if job in store then Some(store[job]) else None)
                   == Stored(old(store), job, moments[old(at) + 2].outcome)
      ensures Even(moments, old(at), 3) && Archived(moments[old(at)].outcome) ==>
                Calmly(old(at) + 3, old(trace), UploadScript(made), old(nextId))
      ensures Even(moments, old(at), 3) && !Archived(moments[old(at)].outcome) ==>
                && end.Errored?
                && Calmly(old(at) + 1, old(trace), [Exported(moments[old(at)].outcome.made)], old(nextId))
    {
      end, made := Export(now, job);
      if !end.Fine? { return; }
      end := Record(now, job, made);
      if !end.Fine? { return; }
      end := Put(now, job, made);
      if end.Errored? { end := CleanupObject(job); }
    }

    /** Read back, compare, complete. */
    method Confirm(now: Time, job: Id, made: Object) returns (end: Ending)
      requires Valid() && worker == Uploaded(now, job, made)
      modifies this
      ensures Valid()
      ensures worker
          == (match end case Crashed => Idle case Errored => Failing(job) case Fine => Selecting(now, Closing))
      ensures end.Fine? ==>
          job in jobs && jobs[job].status == Succeeded && job in store && jobs[job].recorded == Some(store[job])
      ensures old(at) + 3 <= |moments| ==>
                (end.Fine? <==>
                  && moments[old(at)].outcome.ok && moments[old(at) + 1].outcome.ok
                  && moments[old(at) + 1].outcome.intact
                  && job in old(store) && old(store)[job] == made && moments[old(at) + 2].outcome.ok)
      ensures Even(moments, old(at), 3) && end.Fine? ==>
                Calmly(old(at) + 3, old(trace), [Db(true), GetDone(true, true), Db(true)], old(nextId))
    {
      end := NoteUploaded(now, job, made);
      if !end.Fine? { return; }
      end := Compare(now, job, made);
      if !end.Fine? { return; }
      end := Complete(now, job);
    }

    /** Reads back, and drops an object that does not agree. */
    method Compare(now: Time, job: Id, made: Object) returns (end: Ending)
      requires Valid() && worker == Verifying(now, job, made)
      modifies this
      ensures Valid()
      ensures worker == (match end case Crashed => Idle case Errored => Failing(job) case Fine => Verified(now, job))
      ensures old(at) < |moments| ==>
                (end.Fine? <==>
                  && moments[old(at)].outcome.ok && moments[old(at)].outcome.intact
                  && job in old(store) && old(store)[job] == made)
      ensures end.Fine? ==> old(at) < |moments| && at == old(at) + 1
      ensures Even(moments, old(at), 1) && end.Fine? ==>
                Calmly(old(at) + 1, old(trace), [GetDone(true, true)], old(nextId))
    {
      var same;
      end, same := ReadBack(now, job, made);
      if end.Fine? && !same { end := CleanupObject(job); }
    }

    /** cleanupObject: best effort; the failure is reported either way. */
    method CleanupObject(job: Id) returns (end: Ending)
      requires Valid() && worker == Cleaning(job)
      modifies this
      ensures Valid() && end != Fine && worker == (if end.Crashed? then Idle else Failing(job))
    {
      var o := Await();
      if o.None? { return Crashed; }
      ghost var before := State();
      store := Erased(store, job, o.value.ok, o.value.gone);
      worker := Failing(job);
      Log(DeleteDone(o.value.ok, o.value.gone), before);
      return Errored;
    }

    static lemma FailKeeps(w: World, j: Job)
      requires Safe(w) && w.worker.Failing? && j.status == Failed
      ensures w.worker.id in w.jobs && NoRunning(w.jobs[w.worker.id := j])
          && |Good(w.jobs[w.worker.id := j])| <= RETENTION
    {
      RewrittenActive(w.jobs, w.worker.id, j);
    }

    lemma FailSound(j: Job)
      requires Valid() && worker.Failing? && j.status == Failed
      ensures worker.id in jobs && NoRunning(jobs[worker.id := j]) && |Good(jobs[worker.id := j])| <= RETENTION
    {
      Sound();
      FailKeeps(State(), j);
    }

    /** fail: schedules the retry. */
    method Fail(job: Id) returns (end: Ending)
      requires Valid() && worker == Failing(job)
      modifies this
      ensures Valid() && worker == Idle
      ensures end.Fine? ==>
        job in jobs && jobs[job].status == Failed
            && jobs[job].nextAttempt == Some(clock + RetryDelay(jobs[job].attempts))
      ensures end.Fine? ==> NoRunning(jobs) && |Good(jobs)| <= RETENTION
      ensures if old(at) >= |moments| then end.Crashed? else end.Fine? <==> moments[old(at)].outcome.ok
      ensures Even(moments, old(at), 1) ==> Calmly(old(at) + 1, old(trace), [Db(true)], old(nextId))
    {
      var o := Await();
      if o.None? { return Crashed; }
      if !o.value.ok { StatementFails(); return Errored; }
      CommitFail(job);
      return Fine;
    }

    method CommitFail(job: Id)
      requires Valid() && worker == Failing(job)
      modifies this
      ensures Valid() && State() == DbStep(old(State())) && worker == Idle
      ensures job in jobs && jobs[job].status == Failed
          && jobs[job].nextAttempt == Some(clock + RetryDelay(jobs[job].attempts))
      ensures NoRunning(jobs) && |Good(jobs)| <= RETENTION
      ensures trace == old(trace) + [Db(true)] && nextId == old(nextId) && at == old(at)
    {
      Held();
      var failed := jobs[job].(status := Failed, nextAttempt := Some(clock + RetryDelay(jobs[job].attempts)),
          updated := clock);
      FailSound(failed);
      Replace(job, failed);
    }

    method Replace(job: Id, failed: Job)
      requires Valid() && worker == Failing(job) && job in jobs
      requires failed == jobs[job].(status := Failed, nextAttempt := Some(clock + RetryDelay(jobs[job].attempts)),
                   updated := clock)
      modifies this
      ensures Valid() && State() == DbStep(old(State())) && worker == Idle && jobs == old(jobs)[job := failed]
      ensures clock == old(clock) && Calmly(old(at), old(trace), [Db(true)], old(nextId))
    {
      ghost var before := State();
      jobs := jobs[job := failed];
      worker := Idle;
      Log(Db(true), before);
    }

    /** Tick: the lock is released on every path, and a Tick that reports no error leaves no job running and
        at most ten backups.  An undisturbed one reports no error: without work it starts nothing; with work
        it makes a verified backup and leaves nothing else, or fails the job it started if there is no archive. */
    method Tick() returns (end: Ending)
      requires Valid() && worker == Idle
      modifies this
      ensures Valid() && worker == Idle && Safe(State())
      ensures end.Fine? ==> NoRunning(jobs) && |Good(jobs)| <= RETENTION
      ensures Even(moments, old(at), ENOUGH) ==> end.Fine? && clock == old(clock)
      ensures Even(moments, old(at), ENOUGH) && !WorkToDo(old(State())) ==>
                NoneStarted(old(jobs), jobs) && drawn == old(drawn)
      ensures Even(moments, old(at), ENOUGH) && WorkToDo(old(State())) && Archived(moments[old(at)].outcome) ==>
                && Settled(jobs, store)
                && exists i, n :: |old(trace)| <= n <= |trace| && Makes(old(State()), Run(origin, trace[..n]), i,
                    moments[old(at)].outcome.made.value)
      ensures Even(moments, old(at), ENOUGH) && WorkToDo(old(State())) && !Archived(moments[old(at)].outcome) ==>
                exists i :: Fails(old(State()), State(), i)
    {
      ghost var was, w, id := trace, State(), nextId;
      Sound();
      end := Hold(clock);
      Sound();
      if Even(moments, old(at), ENOUGH) {
        var made := moments[old(at)].outcome.made;
        Ran(was, w, TickScript(w, made, id));
        Told(was, w, made, id);
      }
    }

    /** What the events of an undisturbed Tick come to. */
    lemma Told(was: seq<Event>, w: World, made: Option<Object>, id: Id)
      requires w == Run(origin, was) && trace == was + TickScript(w, made, id)
      requires State() == Run(w, TickScript(w, made, id)) && Safe(w) && w.worker == Idle && id !in w.drawn
      ensures clock == w.clock
      ensures !WorkToDo(w) ==> NoneStarted(w.jobs, jobs) && drawn == w.drawn
      ensures WorkToDo(w) && made.Some? && made.value.size >= MIN_SIZE ==>
                && Settled(jobs, store)
                && exists i, n :: |was| <= n <= |trace| && Makes(w, Run(origin, trace[..n]), i, made.value)
      ensures WorkToDo(w) && (made.None? || made.value.size < MIN_SIZE) ==> exists i :: Fails(w, State(), i)
    {
      if !WorkToDo(w) {
        IdleTick(w, made, id);
      } else if made.Some? && made.value.size >= MIN_SIZE {
        ToldWorking(was, w, made.value, id);
      } else {
        var i := FailingTick(w, made, id);
      }
    }

    lemma ToldWorking(was: seq<Event>, w: World, made: Object, id: Id)
      requires w == Run(origin, was) && trace == was + TickScript(w, Some(made), id)
      requires State() == Run(w, TickScript(w, Some(made), id))
      requires Safe(w) && w.worker == Idle && id !in w.drawn && WorkToDo(w) && made.size >= MIN_SIZE
      ensures Settled(jobs, store) && clock == w.clock
      ensures exists i, n :: |was| <= n <= |trace| && Makes(w, Run(origin, trace[..n]), i, made)
    {
      var i, n := WorkingTick(w, made, id);
      Midway(origin, was, TickScript(w, Some(made), id), n);
      assert Makes(w, Run(origin, trace[..|was| + n]), i, made);
    }

    /** What Tick does from taking the lock to giving it back. */
    method Hold(now: Time) returns (end: Ending)
      requires Valid() && worker == Idle && now == clock
      modifies this
      ensures Valid() && worker == Idle
      ensures end.Fine? ==> NoRunning(jobs) && |Good(jobs)| <= RETENTION
      ensures Even(moments, old(at), ENOUGH) ==>
                && end.Fine?
                && trace == old(trace) + TickScript(old(State()), moments[old(at)].outcome.made, old(nextId))
    {
      ghost var was, w, id, made := trace, State(), nextId, NextMade();
      end := Open(now);
      if !end.Fine? { return; }
      if Even(moments, old(at), ENOUGH) {
        Ran(was, w, OpenScript(w));
        Joined(was, w, made, id, State());
      }
      end := Proceed(now);
    }

    method Proceed(now: Time) returns (end: Ending)
      requires Valid() && worker == Starting(now)
      modifies this
      ensures Valid() && worker == Idle
      ensures end.Fine? ==> NoRunning(jobs) && |Good(jobs)| <= RETENTION
      ensures Even(moments, old(at), PRUNE + 7) ==>
                && end.Fine?
                && trace == old(trace) + StartScript(old(State()), moments[old(at)].outcome.made, old(nextId))
    {
      var job;
      end, job := Begin(now);
      if !end.Fine? || job.None? { return; }
      end := Work(now, job.value);
    }

    /** The recovery of a dead worker's job and the first prune pass. */
    method Open(now: Time) returns (end: Ending)
      requires Valid() && worker == Idle && now == clock
      modifies this
      ensures Valid() && worker == (if end.Fine? then Starting(now) else Idle)
      ensures Even(moments, old(at), PRUNE + 1) ==>
                && end.Fine? && old(at) <= at <= old(at) + PRUNE + 1 && nextId == old(nextId)
                && trace == old(trace) + OpenScript(old(State()))
    {
      ghost var w := State();
      Lock(now);
      end := Recover(now);
      if !end.Fine? { return; }
      ghost var rest := PruneScript(State());
      assert Even(moments, old(at), PRUNE + 1) ==> rest == PruneScript(Reopened(w));
      end := Prune(now, Opening);
    }

    /** The session-level lock, free here; another holder's Tick is a Tick that does nothing. */
    method Lock(now: Time)
      requires Valid() && worker == Idle && now == clock
      modifies this`worker, this`trace
      ensures Valid() && worker == Locked(now) && trace == old(trace) + [TryLock]
    {
      ghost var before := State();
      worker := Locked(now);
      Log(TryLock, before);
    }

    /** Owning the lock proves that no surviving worker owns a running job. */
    method Recover(now: Time) returns (end: Ending)
      requires Valid() && worker == Locked(now)
      modifies this
      ensures Valid() && worker == (if end.Fine? then Selecting(now, Opening) else Idle)
      ensures if old(at) >= |moments| then end.Crashed? else end.Fine? <==> moments[old(at)].outcome.ok
      ensures Even(moments, old(at), 1) ==>
                && Calmly(old(at) + 1, old(trace), [Db(true)], old(nextId))
                && jobs == Recovered(old(jobs), now, old(clock))
    {
      var o := Await();
      if o.None? { return Crashed; }
      if !o.value.ok { StatementFails(); return Errored; }
      ghost var before := State();
      jobs := Recovered(jobs, now, clock);
      worker := Selecting(now, Opening);
      Log(Db(true), before);
      return Fine;
    }

    /** The job is executed; a failure schedules its retry, a success is followed by the second prune pass. */
    method Work(now: Time, job: Id) returns (end: Ending)
      requires Valid() && worker == Exporting(now, job)
      modifies this
      ensures Valid() && worker == Idle
      ensures end.Fine? ==> NoRunning(jobs) && |Good(jobs)| <= RETENTION
      ensures Even(moments, old(at), PRUNE + 6) ==>
                && end.Fine?
                && trace == old(trace) + WorkScript(old(State()), moments[old(at)].outcome.made)
    {
      ghost var was, w := trace, State();
      end := Execute(now, job);
      match end {
        case Crashed =>
        case Errored =>
          end := Fail(job);
        case Fine =>
          if Even(moments, old(at), PRUNE + 6) {
            Executed(was, w, moments[old(at)].outcome.made.value);
          }
          end := Prune(now, Closing);
      }
    }

    lemma Executed(was: seq<Event>, w: World, made: Object)
      requires Valid() && w == Run(origin, was) && trace == was + ExecuteScript(made) && made.size >= MIN_SIZE
      ensures was + WorkScript(w, Some(made)) == trace + PruneScript(State())
    {
      Ran(was, w, ExecuteScript(made));
      Associates(was, ExecuteScript(made), PruneScript(State()));
    }

    /** The state is where the script leads from the state it started in. */
    lemma Ran(was: seq<Event>, w: World, script: seq<Event>)
      requires Valid() && w == Run(origin, was) && trace == was + script
      ensures State() == Run(w, script)
    {
      RunAppend(origin, was, script);
    }
  }
}
