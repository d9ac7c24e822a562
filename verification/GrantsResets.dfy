/** Password reset: one usable token per user, one password per token, and the pace of requests, which
    the weekly clean-up does not loosen (backend/controllers/password_reset.go,
    backend/passwordmailqueue/passwordmailqueue.go). */
module GrantsResets {
  import opened Options
  import opened Instants
  import opened Grants
  import opened GrantsSafety
  import opened GrantsRuns
  import opened Sets

  /** A minute apart or more, and numbered in order. */
  ghost predicate Spaced(log: seq<Stamp>) {
    forall j, k :: 0 <= j < k < |log| ==> log[j].at + MINUTE <= log[k].at && log[j].reset < log[k].reset
  }

  /** Of six creations the last is at least an hour after the first: no hour holds more than five. */
  ghost predicate FiveAnHour(log: seq<Stamp>) {
    forall k :: 0 <= k < |log| - HOURLY_RESETS ==> log[k].at + HOUR <= log[k + HOURLY_RESETS].at
  }

  /** What the clean-up has not reached is still in the table. */
  ghost predicate Remembered(db: Db, user: Id, log: seq<Stamp>) {
    forall k :: 0 <= k < |log| && log[k].at + RESET_LIFETIME >= db.clock - OLD ==>
      && log[k].reset in db.accounts.resets
      && db.accounts.resets[log[k].reset].user == user
      && db.accounts.resets[log[k].reset].created == log[k].at
  }

  ghost predicate Past(db: Db, log: seq<Stamp>) {
    forall k :: 0 <= k < |log| ==> log[k].at <= db.clock && log[k].reset < db.next
  }

  ghost predicate RequestsSound(db: Db) {
    forall u :: u in db.past.requests ==> Paced(db, u, db.past.requests[u])
  }

  ghost predicate Paced(db: Db, user: Id, log: seq<Stamp>) {
    && user < db.next && Spaced(log) && FiveAnHour(log) && Past(db, log)
    && (user in db.accounts.users ==> Remembered(db, user, log))
  }

  // ---------------------------------------------------------------- a request

  lemma {:induction false} Distinct(log: seq<Stamp>)
    requires Spaced(log)
    ensures |Ids(log)| == |log|
  {
    if log != [] {
      var n := |log| - 1;
      Distinct(log[..n]);
      assert Ids(log) == Ids(log[..n]) + {log[n].reset};
    }
  }

  function Ids(log: seq<Stamp>): set<Id> {
    set k | 0 <= k < |log| :: log[k].reset
  }

  /** Creations after an instant within the last week are rows the count sees. */
  lemma RecentAreCounted(db: Db, user: Id, log: seq<Stamp>, from: nat, after: Time)
    requires Spaced(log) && Remembered(db, user, log) && from <= |log|
    requires after >= db.clock - HOUR && forall k :: from <= k < |log| ==> log[k].at > after
    ensures |log| - from <= |Created(db.accounts.resets, user, after)|
  {
    var recent := log[from..];
    Distinct(recent);
    forall k | 0 <= k < |recent| ensures recent[k].reset in Created(db.accounts.resets, user, after) {
      assert recent[k] == log[from + k];
    }
    Smaller(Ids(recent), Created(db.accounts.resets, user, after));
  }

  lemma UnthrottledIsPaced(db: Db, user: Id, log: seq<Stamp>)
    requires Spaced(log) && FiveAnHour(log) && Past(db, log) && Remembered(db, user, log) && !Throttled(db, user)
    ensures var log' := log + [Stamp(db.next, db.clock)]; Spaced(log') && FiveAnHour(log')
  {
    var n := |log|;
    if n > 0 && log[n - 1].at > db.clock - MINUTE {
      RecentAreCounted(db, user, log, n - 1, db.clock - MINUTE);
    }
    if n >= HOURLY_RESETS && log[n - HOURLY_RESETS].at > db.clock - HOUR {
      RecentAreCounted(db, user, log, n - HOURLY_RESETS, db.clock - HOUR);
    }
  }

  /** The rows of a log stay where they are. */
  lemma RowsKept(db: Db, db': Db, user: Id, log: seq<Stamp>)
    requires Paced(db, user, log) && db'.clock == db.clock && db'.next >= db.next
    requires user in db'.accounts.users ==> user in db.accounts.users
    requires forall r :: r in db.accounts.resets ==>
      r in db'.accounts.resets && db'.accounts.resets[r].user == db.accounts.resets[r].user
          && db'.accounts.resets[r].created == db.accounts.resets[r].created
    ensures Paced(db', user, log)
  {}

  lemma NewestPaced(db: Db, db': Db, user: Id, log: seq<Stamp>)
    requires Paced(db', user, log) && Spaced(log + [Stamp(db.next, db.clock)])
        && FiveAnHour(log + [Stamp(db.next, db.clock)])
    requires db'.clock == db.clock && db'.next == db.next + 1 && user in db'.accounts.users
    requires db.next in db'.accounts.resets && db'.accounts.resets[db.next].user == user
        && db'.accounts.resets[db.next].created == db.clock
    ensures Paced(db', user, log + [Stamp(db.next, db.clock)])
  {}

  lemma RequestPaced(db: Db, user: Id)
    requires Sound(db) && RequestsSound(db)
    ensures RequestsSound(RequestResetStep(db, user))
  {
    var d := RequestResetStep(db, user);
    if CanUse(db, user) && !Throttled(db, user) {
      var log := Requests(db, user);
      assert Paced(db, user, log);
      UnthrottledIsPaced(db, user, log);
      RowsKept(db, d, user, log);
      NewestPaced(db, d, user, log);
      forall u | u in d.past.requests && u != user ensures Paced(d, u, d.past.requests[u]) {
        RowsKept(db, d, u, db.past.requests[u]);
      }
    }
  }

  // ---------------------------------------------------------------- every other step

  /** Rows of the reset table stay with their user and time of creation. */
  ghost predicate ResetsKept(db: Db, db': Db) {
    && db'.past.requests == db.past.requests && db'.clock == db.clock && db'.next >= db.next
    && (forall u :: u in db'.accounts.users ==> u in db.accounts.users || u >= db.next)
    && (forall r :: r in db.accounts.resets ==>
          r in db'.accounts.resets && db'.accounts.resets[r].user == db.accounts.resets[r].user
              && db'.accounts.resets[r].created == db.accounts.resets[r].created)
  }

  lemma AccountKeepsResets(db: Db, e: AccountEvent)
    requires !e.RequestReset? && !e.CleanResets?
    ensures ResetsKept(db, AccountStep(db, e))
  {}

  lemma KeptStaysPaced(db: Db, db': Db)
    requires RequestsSound(db) && ResetsKept(db, db')
    ensures RequestsSound(db')
  {}

  lemma CleanStaysPaced(db: Db)
    requires RequestsSound(db)
    ensures RequestsSound(CleanResetsStep(db))
  {}

  lemma PassStaysPaced(db: Db, duration: nat)
    requires RequestsSound(db)
    ensures RequestsSound(Step(db, Pass(duration)))
  {}

  lemma AdminStaysPaced(db: Db, e: AdminEvent)
    requires RequestsSound(db)
    ensures RequestsSound(AdminStep(db, e))
  {}

  lemma StepPaced(db: Db, e: Event)
    requires Sound(db) && RequestsSound(db)
    ensures RequestsSound(Step(db, e))
  {
    match e
    case Pass(duration) => PassStaysPaced(db, duration);
    case Account(account) =>
      if account.RequestReset? {
        RequestPaced(db, account.user);
      } else if account.CleanResets? {
        CleanStaysPaced(db);
      } else {
        AccountKeepsResets(db, account);
        KeptStaysPaced(db, Step(db, e));
      }
    case Manage(manage) => ClientFrame(db, manage); KeptStaysPaced(db, Step(db, e));
    case Grant(grant) => GrantFrame(db, grant); KeptStaysPaced(db, Step(db, e));
    case Admin(admin) => AdminStaysPaced(db, admin);
  }

  lemma {:induction false} RunsArePaced(db: Db, events: seq<Event>)
    requires Empty(db)
    ensures RequestsSound(Run(db, events))
    decreases |events|
  {
    if events != [] {
      RunsArePaced(db, events[..|events| - 1]);
      RunsAreSound(db, events[..|events| - 1]);
      StepPaced(Run(db, events[..|events| - 1]), events[|events| - 1]);
    }
  }

  /** After every run: a user has at most one usable reset token, and it belongs to an active verified
      account; a token has set at most one password, exactly when it is marked used; a user's tokens
      were created at least a minute apart and any six of them span at least an hour. */
  lemma EveryRunPacesResets(db: Db, events: seq<Event>, user: Id)
    requires Empty(db)
    ensures var d := Run(db, events);
            && (forall i, k :: i in d.accounts.resets && k in d.accounts.resets && i != k ==>
                  || d.accounts.resets[i].user != d.accounts.resets[k].user
                  || !ResetUsable(d.accounts.resets[i]) || !ResetUsable(d.accounts.resets[k]))
            && (forall i :: i in d.accounts.resets && ResetUsable(d.accounts.resets[i]) ==>
                CanUse(d, d.accounts.resets[i].user))
            && (forall i :: i in d.accounts.resets ==>
                  d.accounts.resets[i].sets <= 1 && (d.accounts.resets[i].sets == 1 <==> d.accounts.resets[i].used))
            && (forall j, k :: 0 <= j < k < |Requests(d, user)| ==>
                Requests(d, user)[j].at + MINUTE <= Requests(d, user)[k].at)
            && (forall k :: 0 <= k < |Requests(d, user)| - 5 ==>
                Requests(d, user)[k].at + HOUR <= Requests(d, user)[k + 5].at)
  {
    RunsAreSound(db, events);
    RunsArePaced(db, events);
  }

  /** The clean-up changes neither who may ask for a token now nor which tokens work. */
  lemma CleaningIsHarmless(db: Db, user: Id, reset: Id)
    ensures Throttled(CleanResetsStep(db), user) <==> Throttled(db, user)
    ensures var cleaned := CleanResetsStep(db);
            (reset in db.accounts.resets && reset !in cleaned.accounts.resets ==>
                db.accounts.resets[reset].created + RESET_LIFETIME <= db.clock)
  {
    var cleaned := CleanResetsStep(db);
    assert Created(cleaned.accounts.resets, user, db.clock - MINUTE)
        == Created(db.accounts.resets, user, db.clock - MINUTE);
    assert Created(cleaned.accounts.resets, user, db.clock - HOUR)
        == Created(db.accounts.resets, user, db.clock - HOUR);
  }
}
