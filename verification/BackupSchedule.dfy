/** The persisted schedule over whole runs (backend/backup/service.go, backend/backup/config.go). */
module BackupSchedule {
  import opened Options
  import opened Instants
  import opened Sundays
  import opened Backup
  import opened BackupSafety
  import opened BackupRuns

  // ---------------------------------------------------------------- the timetable

  /** Every scheduled instant is a Sunday slot, and every stamped job lies a week or more before it. */
  ghost predicate SlotsSound(w: World) {
    && (w.schedule.Some? ==> IsSlot(w.schedule.value.next))
    && (forall i :: i in w.jobs && w.jobs[i].slot.Some? ==>
          w.schedule.Some? && IsSlot(w.jobs[i].slot.value) && w.jobs[i].slot.value + WEEK <= w.schedule.value.next)
  }

  /** The schedule row stays, and next_run_at never goes back. */
  ghost predicate ScheduleForward(w: World, w': World) {
    w.schedule.Some? ==> w'.schedule.Some? && w.schedule.value.next <= w'.schedule.value.next
  }

  predicate Due(w: World)
    requires w.worker.Starting?
  {
    w.schedule.Some? && w.schedule.value.next <= w.worker.now
  }

  /** The slot a step stamps on a job. */
  ghost function Stamp(w: World, e: Event): Option<Time> {
    if e.Begin? && e.ok && w.worker.Starting? && Due(w) && (OldestWaiting(w.jobs).Some? || e.id !in w.drawn)
    then Some(LatestSunday(w.worker.now)) else None
  }

  ghost predicate SlotsKept(jobs: map<Id, Job>, jobs': map<Id, Job>, except: set<Id>) {
    forall i :: i in jobs' && i !in except && jobs'[i].slot.Some? ==> i in jobs && jobs[i].slot == jobs'[i].slot
  }

  /** A due tick stamps exactly one job, with the latest slot, however many weeks were missed. */
  lemma BeginStamps(w: World, id: Id)
    requires Safe(w) && SlotsSound(w) && w.worker.Starting?
    ensures var w' := BeginStep(w, id);
            match Stamp(w, Begin(true, id))
            case Some(s) =>
              && IsSlot(s) && w.schedule.value.next <= s <= w.worker.now < s + WEEK
              && w'.schedule.Some? && w'.schedule.value.next == s + WEEK
              && exists i :: i in w'.jobs && w'.jobs[i].slot == Some(s) && w'.jobs[i].status == Running
                             && SlotsKept(w.jobs, w'.jobs, {i})
            case None => SlotsKept(w.jobs, w'.jobs, {}) && ScheduleForward(w, w')
    ensures SlotsSound(BeginStep(w, id)) && ScheduleForward(w, BeginStep(w, id))
  {
    var now := w.worker.now;
    OldestFinds(w.jobs);
    LatestSundayIsASlot(now);
    if Due(w) {
      DueSlotsCollapse(w.schedule.value.next, now);
      var w' := BeginStep(w, id);
      var i := OldestWaiting(w.jobs).GetOr(id);
      if OldestWaiting(w.jobs).Some? || id !in w.drawn {
        assert w'.jobs[i].slot == Some(LatestSunday(now)) && SlotsKept(w.jobs, w'.jobs, {i});
      }
    }
  }

  lemma RequestSlots(w: World, id: Id)
    requires Safe(w) && SlotsSound(w)
    ensures var w' := RequestStep(w, id);
            SlotsSound(w') && ScheduleForward(w, w') && SlotsKept(w.jobs, w'.jobs, {})
  {
    NewestFinds(w.jobs);
    LatestSundayIsASlot(w.clock);
  }

  /** No slot is stamped and the timetable stands still. */
  ghost predicate Timeless(w: World, w': World) {
    && (w'.schedule.Some? <==> w.schedule.Some?)
    && (w.schedule.Some? ==> w'.schedule.value.next == w.schedule.value.next)
    && SlotsKept(w.jobs, w'.jobs, {})
  }

  lemma TimelessSlots(w: World, w': World)
    requires SlotsSound(w) && Timeless(w, w')
    ensures SlotsSound(w') && ScheduleForward(w, w')
  {}

  lemma DbSlots(w: World)
    ensures Timeless(w, DbStep(w))
  {}

  lemma StepSlots(w: World, e: Event)
    requires Safe(w) && SlotsSound(w)
    ensures SlotsSound(Step(w, e)) && ScheduleForward(w, Step(w, e))
    ensures Stamp(w, e).None? ==> SlotsKept(w.jobs, Step(w, e).jobs, {})
    ensures Stamp(w, e).Some? ==>
      (w.schedule.Some? && w.schedule.value.next <= Stamp(w, e).value)
      && Step(w, e).schedule.Some? && Step(w, e).schedule.value.next == Stamp(w, e).value + WEEK
  {
    match e
    case Request(id) => RequestSlots(w, id);
    case Begin(ok, id) => if ok && w.worker.Starting? { BeginStamps(w, id); }
    case Db(ok) =>
      if ok { DbSlots(w); }
      TimelessSlots(w, Step(w, e));
    case _ => TimelessSlots(w, Step(w, e));
  }

  lemma {:induction false} RunSlots(w: World, events: seq<Event>)
    requires Safe(w) && SlotsSound(w)
    ensures SlotsSound(Run(w, events)) && ScheduleForward(w, Run(w, events))
  {
    if events != [] {
      var before := events[..|events| - 1];
      RunSlots(w, before);
      RunsAreSafe(w, before);
      StepSlots(Run(w, before), events[|events| - 1]);
    }
  }

  /** Of two slots stamped in one run the later is at least a week after the earlier. */
  lemma StampsIncrease(w: World, events: seq<Event>, k: nat, m: nat)
    requires Safe(w) && SlotsSound(w) && k < m < |events|
    requires Stamp(Run(w, events[..k]), events[k]).Some? && Stamp(Run(w, events[..m]), events[m]).Some?
    ensures Stamp(Run(w, events[..k]), events[k]).value + WEEK <= Stamp(Run(w, events[..m]), events[m]).value
  {
    var at, then', last := Run(w, events[..k]), Run(w, events[..k + 1]), Run(w, events[..m]);
    assert events[..k + 1][..k] == events[..k];
    RunsAreSafe(w, events[..k]);
    RunSlots(w, events[..k]);
    StepSlots(at, events[k]);
    RunsAreSafe(w, events[..k + 1]);
    RunSlots(w, events[..k + 1]);
    RunPrefix(w, events, k + 1, m);
    RunsAreSafe(then', events[k + 1..m]);
    RunSlots(then', events[k + 1..m]);
    StepSlots(last, events[m]);
  }

  /** From a namespace used for the first time, next_run_at is always a Sunday at 02:00. */
  lemma EveryRunKeepsTheTimetable(w: World, events: seq<Event>)
    requires Initial(w)
    ensures SlotsSound(Run(w, events))
  {
    RunSlots(w, events);
  }
}
