/** Reset links between the token table and the outbox (backend/passwordmailqueue, backend/controllers):
    RevokeUserResetAccess closes both in one transaction, but only the rows no worker has claimed. */
module ResetMail {
  import opened Options
  import opened Instants
  import opened Outbox
  import opened OutboxSafety

  datatype Token = Token(user: nat, expires: Time, used: bool, revoked: bool)

  /** The password outbox, the token table, every token id drawn, and the reset_token_id of each row. */
  datatype Office = Office(desk: Desk, tokens: map<nat, Token>, issued: set<nat>, names: map<Id, nat>)

  datatype Act =
    | Ask(user: nat, row: Id, token: nat, expires: Time)
    | Spend(token: nat, notice: Id)
    | Close(user: nat)
    | Erase(user: nat)
    | Sweep
    | Mail(event: Event)

  predicate Usable(o: Office, token: nat) {
    token in o.tokens && !o.tokens[token].used && !o.tokens[token].revoked
  }

  function RevokeTokens(tokens: map<nat, Token>, user: nat): map<nat, Token> {
    map t | t in tokens :: if tokens[t].user == user && !tokens[t].used then tokens[t].(revoked := true) else tokens[t]
  }

  /** RevokeUserResetAccess. */
  function Revoked(o: Office, user: nat): Office {
    o.(tokens := RevokeTokens(o.tokens, user), desk := Step(o.desk, Revoke(user)))
  }

  /** What workers, the clock, the clean-up and the notices of changed passwords do to the outbox. */
  predicate Internal(e: Event) {
    e.Clock? || e.Claim? || e.Finish? || e.Fail? || e.Vanish? || e.Cleanup? || (e.Enqueue? && e.kind == Changed)
  }

  predicate Old(t: Token, now: Time) {
    t.expires < now - 7 * DAY
  }

  function ActStep(o: Office, a: Act): Office {
    match a
    case Ask(user, row, token, expires) =>
      if token in o.issued || row in o.desk.drawn || expires <= o.desk.clock then o else
        var r := Revoked(o, user);
        Office(Step(r.desk, Enqueue(row, user, ResetLink, expires)),
            r.tokens[token := Token(user, expires, false, false)],
               o.issued + {token}, o.names[row := token])
    case Spend(token, notice) =>
      if !Usable(o, token) || o.tokens[token].expires <= o.desk.clock then o else
        var t := o.tokens[token];
        var r := Revoked(o.(tokens := o.tokens[token := t.(used := true)]), t.user);
        r.(desk := Step(r.desk, Enqueue(notice, t.user, Changed, o.desk.clock)))
    case Close(user) => Revoked(o, user)
    case Erase(user) =>
      o.(tokens := map t | t in o.tokens && o.tokens[t].user != user :: o.tokens[t], desk := Step(o.desk, Drop(user)))
    case Sweep => o.(tokens := map t | t in o.tokens && !Old(o.tokens[t], o.desk.clock) :: o.tokens[t])
    case Mail(e) => if Internal(e) then o.(desk := Step(o.desk, e)) else o
  }

  function Acts(o: Office, acts: seq<Act>): Office
    decreases |acts|
  {
    if acts == [] then o else ActStep(Acts(o, acts[..|acts| - 1]), acts[|acts| - 1])
  }

  predicate Opened(o: Office) {
    Outbox.Empty(o.desk) && o.desk.queue == Password && o.tokens == map[] && o.issued == {} && o.names == map[]
  }

  // ---------------------------------------------------------------- the outbox inside

  /** The outbox events of one act. */
  function Inside(o: Office, a: Act): seq<Event> {
    match a
    case Ask(user, row, token, expires) =>
      if token in o.issued || row in o.desk.drawn || expires <= o.desk.clock then []
      else [Revoke(user)] + [Enqueue(row, user, ResetLink, expires)]
    case Spend(token, notice) =>
      if !Usable(o, token) || o.tokens[token].expires <= o.desk.clock then []
      else [Revoke(o.tokens[token].user)] + [Enqueue(notice, o.tokens[token].user, Changed, o.desk.clock)]
    case Close(user) => [Revoke(user)]
    case Erase(user) => [Drop(user)]
    case Sweep => []
    case Mail(e) => if Internal(e) then [e] else []
  }

  lemma OneEvent(d: Desk, a: Event)
    ensures Run(d, [a]) == Step(d, a)
  {
    RunLast(d, [], a);
    assert [a] == [] + [a];
  }

  lemma TwoEvents(d: Desk, a: Event, b: Event)
    ensures Run(d, [a] + [b]) == Step(Step(d, a), b)
  {
    OneEvent(d, a);
    RunLast(d, [a], b);
  }

  lemma ActInside(o: Office, a: Act)
    ensures ActStep(o, a).desk == Run(o.desk, Inside(o, a))
  {
    match a
    case Ask(user, row, token, expires) => TwoEvents(o.desk, Revoke(user), Enqueue(row, user, ResetLink, expires));
    case Spend(token, notice) =>
      if Usable(o, token) {
        TwoEvents(o.desk, Revoke(o.tokens[token].user), Enqueue(notice, o.tokens[token].user, Changed, o.desk.clock));
      }
    case Close(user) => OneEvent(o.desk, Revoke(user));
    case Erase(user) => OneEvent(o.desk, Drop(user));
    case Sweep =>
    case Mail(e) => OneEvent(o.desk, e);
  }

  /** The outbox of an office runs as the outbox machine does, so its theorems hold here. */
  lemma {:induction false} OfficeRunsTheOutbox(o: Office, acts: seq<Act>) returns (events: seq<Event>)
    ensures Acts(o, acts).desk == Run(o.desk, events)
    decreases |acts|
  {
    if acts == [] {
      events := [];
    } else {
      var d := Acts(o, acts[..|acts| - 1]);
      var before := OfficeRunsTheOutbox(o, acts[..|acts| - 1]);
      ActInside(d, acts[|acts| - 1]);
      events := before + Inside(d, acts[|acts| - 1]);
      RunAppend(o.desk, before, Inside(d, acts[|acts| - 1]));
    }
  }

  // ---------------------------------------------------------------- rows and their tokens

  ghost predicate LinksSound(o: Office) {
    o.desk.queue == Password && Sound(o.desk) && NamesSound(o)
  }

  ghost predicate NamesSound(o: Office) {
    && o.tokens.Keys <= o.issued
    && (forall i :: i in o.desk.rows && o.desk.rows[i].kind == ResetLink ==>
          Named(o, i, o.desk.rows[i].user))
  }

  /** Reset-link rows keep their kind and user; one is new only by its own enqueue. */
  lemma LinkRows(d: Desk, e: Event, i: Id)
    requires i in Step(d, e).rows && Step(d, e).rows[i].kind == ResetLink
    ensures var r := Step(d, e).rows[i];
            || (i in d.rows && d.rows[i].kind == ResetLink && d.rows[i].user == r.user)
            || (e.Enqueue? && i == e.id && e.kind == ResetLink && e.user == r.user)
  {}

  predicate Named(o: Office, i: Id, user: nat) {
    i in o.names && o.names[i] in o.issued && (o.names[i] in o.tokens ==> o.tokens[o.names[i]].user == user)
  }

  /** The tokens that stay are the same users'. */
  lemma NamedStays(o: Office, a: Act, i: Id, user: nat)
    requires o.tokens.Keys <= o.issued && Named(o, i, user) && (a.Ask? ==> i != a.row || i in o.desk.drawn)
    ensures Named(ActStep(o, a), i, user)
  {}

  lemma LinkRowsOfAct(o: Office, a: Act, i: Id)
    requires i in ActStep(o, a).desk.rows && ActStep(o, a).desk.rows[i].kind == ResetLink
    ensures var r := ActStep(o, a).desk.rows[i];
            || (i in o.desk.rows && o.desk.rows[i].kind == ResetLink && o.desk.rows[i].user == r.user)
            || (a.Ask? && ActStep(o, a) != o && i == a.row && r.user == a.user)
  {
    match a
    case Ask(user, row, token, expires) =>
      var d := Step(o.desk, Revoke(user));
      if !(token in o.issued || row in o.desk.drawn || expires <= o.desk.clock) {
        LinkRows(d, Enqueue(row, user, ResetLink, expires), i);
        if i in d.rows && d.rows[i].kind == ResetLink { LinkRows(o.desk, Revoke(user), i); }
      }
    case Spend(token, notice) =>
      if Usable(o, token) && o.tokens[token].expires > o.desk.clock {
        var user := o.tokens[token].user;
        var d := Step(o.desk, Revoke(user));
        LinkRows(d, Enqueue(notice, user, Changed, o.desk.clock), i);
        LinkRows(o.desk, Revoke(user), i);
      }
    case Close(user) => LinkRows(o.desk, Revoke(user), i);
    case Erase(user) => LinkRows(o.desk, Drop(user), i);
    case Sweep =>
    case Mail(e) => if Internal(e) { LinkRows(o.desk, e, i); }
  }

  lemma NamesStay(o: Office, a: Act)
    requires LinksSound(o)
    ensures NamesSound(ActStep(o, a))
  {
    var o' := ActStep(o, a);
    assert o'.tokens.Keys <= o'.issued;
    forall i | i in o'.desk.rows && o'.desk.rows[i].kind == ResetLink ensures Named(o', i, o'.desk.rows[i].user) {
      LinkRowsOfAct(o, a, i);
      if i in o.desk.rows && o.desk.rows[i].kind == ResetLink && o.desk.rows[i].user == o'.desk.rows[i].user {
        NamedStays(o, a, i, o.desk.rows[i].user);
      }
    }
  }

  lemma ActLinks(o: Office, a: Act)
    requires LinksSound(o)
    ensures LinksSound(ActStep(o, a))
  {
    ActInside(o, a);
    SoundRunsStaySound(o.desk, Inside(o, a));
    QueueStays(o.desk, Inside(o, a));
    NamesStay(o, a);
  }

  lemma {:induction false} RunLinks(o: Office, acts: seq<Act>)
    requires Opened(o)
    ensures LinksSound(Acts(o, acts))
    decreases |acts|
  {
    if acts != [] {
      RunLinks(o, acts[..|acts| - 1]);
      ActLinks(Acts(o, acts[..|acts| - 1]), acts[|acts| - 1]);
    }
  }

  lemma DeadStays(o: Office, a: Act, token: nat)
    requires o.tokens.Keys <= o.issued && token in o.issued && !Usable(o, token)
    ensures var d := ActStep(o, a);
            d.tokens.Keys <= d.issued && token in d.issued && !Usable(d, token)
  {}

  /** A token that is used, revoked or gone never becomes usable again: its link is dead for good. */
  lemma {:induction false} DeadForGood(o: Office, acts: seq<Act>, token: nat)
    requires o.tokens.Keys <= o.issued && token in o.issued && !Usable(o, token)
    ensures var d := Acts(o, acts);
            d.tokens.Keys <= d.issued && token in d.issued && !Usable(d, token)
    decreases |acts|
  {
    if acts != [] {
      var before := acts[..|acts| - 1];
      DeadForGood(o, before, token);
      DeadStays(Acts(o, before), acts[|acts| - 1], token);
    }
  }

  // ---------------------------------------------------------------- pending links work

  predicate WaitingLink(o: Office, i: Id) {
    i in o.desk.rows && o.desk.rows[i].kind == ResetLink && o.desk.rows[i].status == Pending
  }

  /** Every link that waits to be sent would work. */
  ghost predicate Fresh(o: Office) {
    forall i :: WaitingLink(o, i) ==> i in o.names && Usable(o, o.names[i])
  }

  lemma UsableExactly(o: Office, token: nat)
    ensures Usable(o, token) <==> token in o.tokens && !o.tokens[token].used && !o.tokens[token].revoked
  {}

  /** A link sets a password exactly while its token is unused, unrevoked and unexpired; then it is used, the
      user's other tokens are revoked, and other users' tokens stay. */
  lemma SpendExactly(o: Office, token: nat, notice: Id)
    ensures var o' := ActStep(o, Spend(token, notice));
            var accepted := token in o.tokens && !o.tokens[token].used && !o.tokens[token].revoked
              && o.desk.clock < o.tokens[token].expires;
            && (!accepted ==> o' == o)
            && (accepted ==>
                  && o'.tokens.Keys == o.tokens.Keys && o'.tokens[token].used
                  && forall t :: t in o.tokens && t != token ==>
                       if o.tokens[t].user == o.tokens[token].user && !o.tokens[t].used
                       then o'.tokens[t].revoked else o'.tokens[t] == o.tokens[t])
  {}

  /** A failed delivery puts a row back whose token was closed while the worker held it. */
  predicate WritesBack(o: Office, a: Act) {
    && a.Mail? && a.event.Fail? && a.event.worker in o.desk.flights
    && var f := o.desk.flights[a.event.worker];
       && f.id in o.desk.rows && o.desk.rows[f.id].kind == ResetLink && o.desk.rows[f.id].status == Processing
       && Failed(o.desk.queue, o.desk.most, o.desk.rows[f.id], f.seen, o.desk.clock).status == Pending
       && !(f.id in o.names && Usable(o, o.names[f.id]))
  }

  /** The weekly clean-up of tokens takes one whose link still waits. */
  ghost predicate SweepsWaiting(o: Office, a: Act) {
    a.Sweep? && exists i ::
        WaitingLink(o, i) && i in o.names && o.names[i] in o.tokens && Old(o.tokens[o.names[i]], o.desk.clock)
  }

  ghost predicate Breaks(o: Office, a: Act) {
    WritesBack(o, a) || SweepsWaiting(o, a)
  }

  lemma AskFresh(o: Office, user: nat, row: Id, token: nat, expires: Time)
    requires LinksSound(o) && Fresh(o)
    ensures Fresh(ActStep(o, Ask(user, row, token, expires)))
  {
    var o' := ActStep(o, Ask(user, row, token, expires));
    if o' != o {
      forall i | WaitingLink(o', i) ensures i in o'.names && Usable(o', o'.names[i]) {
        if i != row {
          assert WaitingLink(o, i);
        }
      }
    }
  }

  lemma SpendFresh(o: Office, token: nat, notice: Id)
    requires LinksSound(o) && Fresh(o)
    ensures Fresh(ActStep(o, Spend(token, notice)))
  {
    var o' := ActStep(o, Spend(token, notice));
    forall i | WaitingLink(o', i) ensures i in o'.names && Usable(o', o'.names[i]) {
      assert WaitingLink(o, i);
    }
  }

  lemma CloseFresh(o: Office, a: Act)
    requires LinksSound(o) && Fresh(o) && (a.Close? || a.Erase?)
    ensures Fresh(ActStep(o, a))
  {
    var o' := ActStep(o, a);
    forall i | WaitingLink(o', i) ensures i in o'.names && Usable(o', o'.names[i]) {
      assert WaitingLink(o, i);
    }
  }

  lemma SweepFresh(o: Office)
    requires LinksSound(o) && Fresh(o)
    ensures Fresh(ActStep(o, Sweep)) <==> !SweepsWaiting(o, Sweep)
  {
    var o' := ActStep(o, Sweep);
    assert forall i :: WaitingLink(o', i) <==> WaitingLink(o, i);
  }

  lemma MailFresh(o: Office, e: Event)
    requires LinksSound(o) && Fresh(o)
    ensures Fresh(ActStep(o, Mail(e))) <==> !WritesBack(o, Mail(e))
  {
    var o' := ActStep(o, Mail(e));
    if e.Fail? && e.worker in o.desk.flights {
      var id := o.desk.flights[e.worker].id;
      assert forall i :: i != id ==> (WaitingLink(o', i) <==> WaitingLink(o, i));
      if WritesBack(o, Mail(e)) { assert WaitingLink(o', id); }
    } else {
      assert forall i :: WaitingLink(o', i) ==> WaitingLink(o, i);
    }
  }

  lemma ActFresh(o: Office, a: Act)
    requires LinksSound(o) && Fresh(o)
    ensures Fresh(ActStep(o, a)) <==> !Breaks(o, a)
  {
    match a
    case Ask(user, row, token, expires) => AskFresh(o, user, row, token, expires);
    case Spend(token, notice) => SpendFresh(o, token, notice);
    case Close(_) => CloseFresh(o, a);
    case Erase(_) => CloseFresh(o, a);
    case Sweep => SweepFresh(o);
    case Mail(e) => MailFresh(o, e);
  }

  ghost predicate AlwaysFresh(o: Office, acts: seq<Act>) {
    forall k :: 0 <= k <= |acts| ==> Fresh(Acts(o, acts[..k]))
  }

  ghost predicate NeverBreaks(o: Office, acts: seq<Act>) {
    forall k :: 0 <= k < |acts| ==> !Breaks(Acts(o, acts[..k]), acts[k])
  }

  lemma Prefixes(o: Office, before: seq<Act>, a: Act)
    ensures Acts(o, before + [a]) == ActStep(Acts(o, before), a)
    ensures AlwaysFresh(o, before + [a]) <==> AlwaysFresh(o, before) && Fresh(Acts(o, before + [a]))
    ensures NeverBreaks(o, before + [a]) <==> NeverBreaks(o, before) && !Breaks(Acts(o, before), a)
  {
    var n, acts := |before|, before + [a];
    assert forall k :: 0 <= k <= n ==> acts[..k] == before[..k];
    assert before[..n] == before && acts[..n + 1] == acts && acts[n] == a;
  }

  lemma OneMore(o: Office, before: seq<Act>, a: Act)
    requires Opened(o) && (AlwaysFresh(o, before) <==> NeverBreaks(o, before))
    ensures AlwaysFresh(o, before + [a]) <==> NeverBreaks(o, before + [a])
  {
    Prefixes(o, before, a);
    if AlwaysFresh(o, before) {
      assert before[..|before|] == before;
      RunLinks(o, before);
      ActFresh(Acts(o, before), a);
    }
  }

  /** The token of every waiting reset link is unused and unrevoked throughout a run if and only if no
      failed delivery writes a row back after its token was closed, and no clean-up takes the token of a
      link that still waits. */
  lemma {:induction false} LinksWorkExactly(o: Office, acts: seq<Act>)
    requires Opened(o)
    ensures AlwaysFresh(o, acts) <==> NeverBreaks(o, acts)
    decreases |acts|
  {
    if acts == [] {
      assert AlwaysFresh(o, acts);
    } else {
      var n := |acts| - 1;
      var before := acts[..n];
      LinksWorkExactly(o, before);
      assert acts == before + [acts[n]];
      OneMore(o, before, acts[n]);
    }
  }

  /** A claimed link whose token is then closed. */
  lemma ClaimedAndClosed(o: Office)
    requires Opened(o) && o.desk.clock == 0
    ensures var d := Acts(o, [Ask(7, 0, 1, DAY)] + [Mail(Claim(3, 0))] + [Close(7)]);
            && d.desk.queue == Password && d.desk.clock == 0 && d.desk.most >= 3 && 0 in d.desk.rows
                && 3 in d.desk.flights
            && d.desk.rows[0].kind == ResetLink && d.desk.rows[0].status == Processing && d.desk.rows[0].payload
            && d.desk.flights[3].id == 0 && d.desk.flights[3].seen.attempts == 0
                && d.desk.flights[3].seen.expires == DAY
            && 0 in d.names && d.names[0] == 1 && 1 in d.tokens && d.tokens[1].revoked
  {
    var a, b, c := Ask(7, 0, 1, DAY), Mail(Claim(3, 0)), Close(7);
    Prefixes(o, [], a);
    Prefixes(o, [a], b);
    Prefixes(o, [a] + [b], c);
    Asked(o);
    Claimed(ActStep(o, a));
    Closed(ActStep(ActStep(o, a), b));
  }

  lemma Closed(o: Office)
    requires o.desk.queue == Password && 0 in o.desk.rows && o.desk.rows[0].status == Processing
    requires 1 in o.tokens && o.tokens[1] == Token(7, DAY, false, false)
    ensures var d := ActStep(o, Close(7));
            && d == o.(desk := d.desk, tokens := d.tokens) && d.desk == o.desk.(rows := d.desk.rows)
            && 0 in d.desk.rows && d.desk.rows[0] == o.desk.rows[0] && 1 in d.tokens && d.tokens[1].revoked
  {}

  lemma Asked(o: Office)
    requires Opened(o) && o.desk.clock == 0
    ensures var d := ActStep(o, Ask(7, 0, 1, DAY));
            && d == Office(d.desk, map[1 := Token(7, DAY, false, false)], {1}, map[0 := 1])
            && d.desk == o.desk.(rows := map[0 := NewRow(ResetLink, 7, DAY, None, 0)], drawn := {0})
  {}

  lemma Claimed(o: Office)
    requires o.desk.queue == Password && o.desk.clock == 0 && o.desk.flights == map[]
    requires o.desk.rows == map[0 := NewRow(ResetLink, 7, DAY, None, 0)]
    ensures var row := NewRow(ResetLink, 7, DAY, None, 0);
            var d := ActStep(o, Mail(Claim(3, 0)));
            && d == o.(desk := d.desk)
            && d.desk == o.desk.(rows := map[0 := row.(status := Processing, locked := Some(MINUTE), updated := 0)],
                                 flights := map[3 := Flight(0, row, 0)])
  {}

  lemma FailsBack(o: Office)
    requires o.desk.queue == Password && o.desk.clock == 0 && o.desk.most >= 3 && 0 in o.desk.rows
        && 3 in o.desk.flights
    requires o.desk.rows[0].kind == ResetLink && o.desk.rows[0].status == Processing && o.desk.rows[0].payload
    requires o.desk.flights[3].id == 0 && o.desk.flights[3].seen.attempts == 0 && o.desk.flights[3].seen.expires == DAY
    ensures var d := ActStep(o, Mail(Fail(3)));
            WaitingLink(d, 0) && d.desk.rows[0].payload && d.names == o.names && d.tokens == o.tokens
  {
    assert Pow2(0) == 1;
  }

  /** It does happen: a worker claims the link, the password is changed meanwhile, the send fails, and the
      row waits again with its ciphertext and a revoked token. */
  lemma ClosedLinkWaitsAgain(o: Office)
    requires Opened(o) && o.desk.clock == 0
    ensures var d := Acts(o, [Ask(7, 0, 1, DAY)] + [Mail(Claim(3, 0))] + [Close(7)] + [Mail(Fail(3))]);
            && WaitingLink(d, 0) && d.desk.rows[0].payload
            && 0 in d.names && d.names[0] == 1 && 1 in d.tokens && d.tokens[1].revoked
  {
    var acts := [Ask(7, 0, 1, DAY)] + [Mail(Claim(3, 0))] + [Close(7)];
    ClaimedAndClosed(o);
    FailsBack(Acts(o, acts));
    Prefixes(o, acts, Mail(Fail(3)));
  }
}
