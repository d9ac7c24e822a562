/** The backup worker as a state machine (backend/backup/service.go).

    A World is the job table and the schedule row of one namespace, the objects under its prefix in
    the store, the clock, and the program counter of the worker that holds the advisory lock.  Every
    database statement, every transaction and every store call is one step, so that a crash, a Request
    of another instance or a clock tick can fall between any two of them.

    A job id stands for the object key too: the key is the namespace, the id and a fixed suffix. */
module Backup {
  import opened Options
  import opened Instants
  import opened Sundays

  const RETENTION: nat := 10
  const MIN_SIZE: nat := 32

  type Id = nat

  datatype Status = Queued | Running | Succeeded | Failed | Pruning | Deleted

  /** What a size and a SHA-256 digest can tell about an encrypted archive. */
  datatype Object = Object(size: nat, sha: nat)

  datatype Job = Job(
    status: Status,
    created: Time,
    updated: Time,
    slot: Option<Time>,
    nextAttempt: Option<Time>,
    attempts: nat,
    recorded: Option<Object>,
    finished: Option<Time>)

  datatype Schedule = Schedule(next: Time, complaint: bool)

  /** A prune pass runs before the export and, after a success, again. */
  datatype Stage = Opening | Closing

  /** Where the lock holder is; "now" is the clock reading Tick took when it got the lock. */
  datatype Worker =
    | Idle
    | Locked(now: Time)
    | Selecting(now: Time, stage: Stage)
    | Sweeping(now: Time, stage: Stage, todo: seq<Id>)
    | Marked(now: Time, stage: Stage, todo: seq<Id>)
    | Removed(now: Time, stage: Stage, todo: seq<Id>)
    | Complaining
    | Forgetting(now: Time, stage: Stage)
    | Starting(now: Time)
    | Exporting(now: Time, id: Id)
    | Recording(now: Time, id: Id, made: Object)
    | Uploading(now: Time, id: Id, made: Object)
    | Uploaded(now: Time, id: Id, made: Object)
    | Verifying(now: Time, id: Id, made: Object)
    | Verified(now: Time, id: Id)
    | Cleaning(id: Id)
    | Failing(id: Id)

  datatype World = World(
    jobs: map<Id, Job>,
    drawn: set<Id>,
    schedule: Option<Schedule>,
    store: map<Id, Object>,
    clock: Time,
    worker: Worker)

  datatype Event =
    | Clock(to: Time)
    | Request(id: Id)
    | TryLock
    | Crash
    | Db(ok: bool)
    | Begin(ok: bool, id: Id)
    | Exported(made: Option<Object>)
    | PutDone(ok: bool, left: Option<Object>)
    | GetDone(ok: bool, intact: bool)
    | DeleteDone(ok: bool, gone: bool)

  predicate Active(j: Job) {
    j.status == Queued || j.status == Running || j.status == Failed
  }

  predicate Waiting(j: Job) {
    j.status == Queued || j.status == Failed
  }

  function OfStatus(jobs: map<Id, Job>, status: Status): set<Id> {
    set i | i in jobs && jobs[i].status == status
  }

  // ---------------------------------------------------------------- the queries

  /** The row a query ORDER BY created_at DESC LIMIT 1 may return. */
  ghost predicate IsNewestActive(jobs: map<Id, Job>, i: Id) {
    i in jobs && Active(jobs[i]) && forall k :: k in jobs && Active(jobs[k]) ==> jobs[k].created <= jobs[i].created
  }

  /** The row a query ORDER BY created_at ASC LIMIT 1 may return. */
  ghost predicate IsOldestWaiting(jobs: map<Id, Job>, i: Id) {
    i in jobs && Waiting(jobs[i]) && forall k :: k in jobs && Waiting(jobs[k]) ==> jobs[i].created <= jobs[k].created
  }

  ghost function NewestActive(jobs: map<Id, Job>): Option<Id> {
    if exists i :: IsNewestActive(jobs, i) then
      var i :| IsNewestActive(jobs, i);
      Some(i)
    else None
  }

  ghost function OldestWaiting(jobs: map<Id, Job>): Option<Id> {
    if exists i :: IsOldestWaiting(jobs, i) then
      var i :| IsOldestWaiting(jobs, i);
      Some(i)
    else None
  }

  /** PostgreSQL's DESC order on finished_at: NULL first, then later instants. */
  predicate Later(a: Option<Time>, b: Option<Time>) {
    match (a, b)
    case (None, None) => false
    case (None, Some(_)) => true
    case (Some(_), None) => false
    case (Some(x), Some(y)) => x > y
  }

  /** ORDER BY finished_at DESC, id DESC, as a strict order on rows. */
  predicate Above(jobs: map<Id, Job>, a: Id, b: Id)
    requires a in jobs && b in jobs
  {
    Later(jobs[a].finished, jobs[b].finished) || (jobs[a].finished == jobs[b].finished && a > b)
  }

  predicate IsTop(jobs: map<Id, Job>, ids: set<Id>, top: Id)
    requires ids <= jobs.Keys
  {
    top in ids && forall k | k in ids && k != top :: Above(jobs, top, k)
  }

  lemma TopExists(jobs: map<Id, Job>, ids: set<Id>)
    requires ids <= jobs.Keys && ids != {}
    ensures exists top :: IsTop(jobs, ids, top)
  {
    var a :| a in ids;
    if ids == {a} {
      assert IsTop(jobs, ids, a);
    } else {
      TopExists(jobs, ids - {a});
      var b :| IsTop(jobs, ids - {a}, b);
      if Above(jobs, a, b) {
        forall k | k in ids && k != a ensures Above(jobs, a, k) {
          assert k in ids - {a};
        }
        assert IsTop(jobs, ids, a);
      } else {
        assert Above(jobs, b, a);
        assert IsTop(jobs, ids, b);
      }
    }
  }

  /** The ids in that order. */
  ghost function Ranked(jobs: map<Id, Job>, ids: set<Id>): seq<Id>
    requires ids <= jobs.Keys
    decreases |ids|
  {
    if ids == {} then [] else
      TopExists(jobs, ids);
      var top :| IsTop(jobs, ids, top);
      [top] + Ranked(jobs, ids - {top})
  }

  /** The rows one prune pass will remove: interrupted ones, then successes beyond the tenth. */
  ghost function Excess(jobs: map<Id, Job>): seq<Id> {
    var good := Ranked(jobs, OfStatus(jobs, Succeeded));
    Ranked(jobs, OfStatus(jobs, Pruning)) + (if |good| <= RETENTION then [] else good[RETENTION..])
  }

  // ---------------------------------------------------------------- the steps

  function NewJob(slot: Option<Time>, now: Time): Job {
    Job(Queued, now, now, slot, Some(now), 0, None, None)
  }

  /** Request: one transaction under the schedule row's lock; ErrBusy rolls it back. */
  ghost function RequestStep(w: World, id: Id): World {
    var schedule := if w.schedule.None? then Some(Schedule(NextSunday(w.clock), false)) else w.schedule;
    match NewestActive(w.jobs)
    case Some(i) =>
      if w.jobs[i].status != Failed then w else
        w.(schedule := schedule,
           jobs := w.jobs[i := w.jobs[i].(status := Queued, nextAttempt := Some(w.clock), updated := w.clock)])
    case None =>
      if id in w.drawn then w else
        w.(schedule := schedule, drawn := w.drawn + {id}, jobs := w.jobs[id := NewJob(None, w.clock)])
  }

  /** Every Running row becomes Failed, due at once. */
  function Recovered(jobs: map<Id, Job>, now: Time, clock: Time): map<Id, Job> {
    map i | i in jobs ::
      if jobs[i].status == Running
      then jobs[i].(status := Failed, nextAttempt := Some(now), updated := clock)
      else jobs[i]
  }

  function Started(j: Job, clock: Time): Job {
    j.(status := Running, finished := None, nextAttempt := None, attempts := j.attempts + 1, updated := clock)
  }

  /** The transaction that picks a job: ensures the schedule, stamps a due slot, starts the job. */
  ghost function BeginStep(w: World, id: Id): World
    requires w.worker.Starting?
  {
    var now := w.worker.now;
    var schedule := w.schedule.GetOr(Schedule(NextSunday(now), false));
    var waiting := OldestWaiting(w.jobs);
    if schedule.next <= now then
      var w' := w.(schedule := Some(schedule.(next := NextSunday(now))));
      var slot := Some(LatestSunday(now));
      match waiting
      case None =>
        if id in w.drawn then w else
          w'.(drawn := w.drawn + {id}, jobs := w.jobs[id := Started(NewJob(slot, now), w.clock)],
              worker := Exporting(now, id))
      case Some(i) =>
        w'.(jobs := w.jobs[i := Started(w.jobs[i].(slot := slot), w.clock)], worker := Exporting(now, i))
    else
      var w' := w.(schedule := Some(schedule));
      match waiting
      case None => w'.(worker := Idle)
      case Some(i) =>
        if w.jobs[i].nextAttempt.Some? && w.jobs[i].nextAttempt.value > now then w'.(worker := Idle)
        else w'.(jobs := w.jobs[i := Started(w.jobs[i], w.clock)], worker := Exporting(now, i))
  }

  function RetryDelay(attempts: nat): Time {
    MINUTE * Pow2(if attempts < 6 then attempts else 6)
  }

  function Complain(schedule: Option<Schedule>, complaint: bool): Option<Schedule> {
    if schedule.None? then None else Some(schedule.value.(complaint := complaint))
  }

  /** Deleted rows are forgotten after ninety days. */
  function Forgotten(jobs: map<Id, Job>, clock: Time): map<Id, Job> {
    map i | i in jobs && !(jobs[i].status == Deleted && jobs[i].updated < clock - 90 * DAY) :: jobs[i]
  }

  function AfterPrune(now: Time, stage: Stage): Worker {
    if stage == Opening then Starting(now) else Idle
  }

  /** A database statement of the worker commits. */
  ghost function DbStep(w: World): World {
    match w.worker
    case Locked(now) =>
      w.(jobs := Recovered(w.jobs, now, w.clock), worker := Selecting(now, Opening))
    case Selecting(now, stage) =>
      w.(worker := Sweeping(now, stage, Excess(w.jobs)))
    case Sweeping(now, stage, todo) =>
      if todo == [] then w.(schedule := Complain(w.schedule, false), worker := Forgetting(now, stage)) else
      if todo[0] !in w.jobs then w.(worker := Marked(now, stage, todo)) else
        w.(jobs := w.jobs[todo[0] := w.jobs[todo[0]].(status := Pruning, updated := w.clock)],
           worker := Marked(now, stage, todo))
    case Removed(now, stage, todo) =>
      if todo == [] || todo[0] !in w.jobs then w.(worker := Idle) else
        w.(jobs := w.jobs[todo[0] := w.jobs[todo[0]].(status := Deleted, updated := w.clock)],
           worker := Sweeping(now, stage, todo[1..]))
    case Complaining =>
      w.(schedule := Complain(w.schedule, true), worker := Idle)
    case Forgetting(now, stage) =>
      w.(jobs := Forgotten(w.jobs, w.clock), worker := AfterPrune(now, stage))
    case Recording(now, id, made) =>
      if id !in w.jobs then w.(worker := Uploading(now, id, made)) else
        w.(jobs := w.jobs[id := w.jobs[id].(recorded := Some(made), updated := w.clock)],
            worker := Uploading(now, id, made))
    case Uploaded(now, id, made) =>
      w.(worker := Verifying(now, id, made))
    case Verified(now, id) =>
      if id !in w.jobs then w.(worker := Selecting(now, Closing)) else
        w.(jobs := w.jobs[id := w.jobs[id].(status := Succeeded, finished := Some(w.clock), nextAttempt := None,
            updated := w.clock)],
           worker := Selecting(now, Closing))
    case Failing(id) =>
      if id !in w.jobs then w.(worker := Idle) else
        w.(jobs := w.jobs[id := w.jobs[id].(status := Failed,
            nextAttempt := Some(w.clock + RetryDelay(w.jobs[id].attempts)), updated := w.clock)],
           worker := Idle)
    case _ => w
  }

  /** A database statement of the worker fails and leaves no effect. */
  function DbFailure(w: World): World {
    match w.worker
    case Recording(now, id, made) => w.(worker := Failing(id))
    case Uploaded(now, id, made) => w.(worker := Failing(id))
    case Verified(now, id) => w.(worker := Failing(id))
    case Locked(_) => w.(worker := Idle)
    case Selecting(_, _) => w.(worker := Idle)
    case Sweeping(_, _, _) => w.(worker := Idle)
    case Removed(_, _, _) => w.(worker := Idle)
    case Complaining => w.(worker := Idle)
    case Forgetting(_, _) => w.(worker := Idle)
    case Failing(_) => w.(worker := Idle)
    case _ => w
  }

  /** A Delete of the object store: on an error the object may or may not be gone. */
  function Erased(store: map<Id, Object>, id: Id, ok: bool, gone: bool): map<Id, Object> {
    if ok || gone then store - {id} else store
  }

  /** One step; an event the worker is not waiting for changes nothing. */
  ghost function Step(w: World, e: Event): World {
    match e
    case Clock(to) => w.(clock := to)
    case Request(id) => RequestStep(w, id)
    case TryLock => if w.worker.Idle? then w.(worker := Locked(w.clock)) else w
    case Crash => w.(worker := Idle)
    case Db(ok) => if ok then DbStep(w) else DbFailure(w)
    case Begin(ok, id) =>
      if !w.worker.Starting? then w else
      if ok then BeginStep(w, id) else w.(worker := Idle)
    case Exported(made) =>
      if !w.worker.Exporting? then w else
      if made.Some? && made.value.size >= MIN_SIZE
      then w.(worker := Recording(w.worker.now, w.worker.id, made.value))
      else w.(worker := Failing(w.worker.id))
    case PutDone(ok, left) =>
      if !w.worker.Uploading? then w else
      var store := if left.Some? then w.store[w.worker.id := left.value] else w.store;
      if ok then w.(store := store, worker := Uploaded(w.worker.now, w.worker.id, w.worker.made))
      else w.(store := store, worker := Cleaning(w.worker.id))
    case GetDone(ok, intact) =>
      if !w.worker.Verifying? then w else
      var id := w.worker.id;
      if !ok || id !in w.store then w.(worker := Failing(id))
      else if intact && w.store[id] == w.worker.made then w.(worker := Verified(w.worker.now, id))
      else w.(worker := Cleaning(id))
    case DeleteDone(ok, gone) =>
      match w.worker
      case Marked(now, stage, todo) =>
        if todo == [] then w else
        w.(store := Erased(w.store, todo[0], ok, gone),
           worker := if ok then Removed(now, stage, todo) else Complaining)
      case Cleaning(id) =>
        w.(store := Erased(w.store, id, ok, gone), worker := Failing(id))
      case _ => w
  }

  ghost function Run(w: World, events: seq<Event>): World
    decreases |events|
  {
    if events == [] then w else Step(Run(w, events[..|events| - 1]), events[|events| - 1])
  }

  /** The empty database and bucket of a namespace used for the first time. */
  ghost predicate Initial(w: World) {
    w.jobs == map[] && w.drawn == {} && w.schedule == None && w.store == map[] && w.worker == Idle
  }
}
