/** The in-memory rate limiter (backend/controllers/rate_limit.go): fixed windows per key, purged
    lazily and bounded in size. */
module RateLimit {
  import opened Options
  import opened Instants
  import opened Sets

  type IP = string

  datatype Entry = Entry(count: nat, resetAt: Time)

  datatype Verdict = Admitted | Limited | Full

  const PURGE_ABOVE := 1024
  const CAPACITY := 8192

  function Purged(entries: map<IP, Entry>, now: Time): map<IP, Entry> {
    if |entries| <= PURGE_ABOVE then entries
    else map k | k in entries && now <= entries[k].resetAt :: entries[k]
  }

  /** The window that counts for a key at an instant: one that now is not after. */
  function Current(entries: map<IP, Entry>, key: IP, now: Time): Option<Entry> {
    if key in entries && now <= entries[key].resetAt then Some(entries[key]) else None
  }

  function Counted(entries: map<IP, Entry>, key: IP, now: Time, window: Time): Entry {
    var e := Current(entries, key, now).GetOr(Entry(0, now + window));
    e.(count := e.count + 1)
  }

  function Judge(e: Entry, limit: nat): Verdict {
    if e.count > limit then Limited else Admitted
  }

  function Hit(entries: map<IP, Entry>, key: IP, now: Time, limit: nat, window: Time): (map<IP, Entry>, Verdict) {
    var kept := Purged(entries, now);
    if key !in kept && |kept| >= CAPACITY then (kept, Full) else
      var e := Counted(kept, key, now, window);
      (kept[key := e], Judge(e, limit))
  }

  class Limiter {
    const limit: nat
    const window: Time
    var entries: map<IP, Entry>

    constructor (limit: nat, window: Time)
      ensures this.limit == limit && this.window == window && entries == map[]
    {
      this.limit, this.window, entries := limit, window, map[];
    }

    /** The handler, between taking and releasing the mutex. */
    method Handle(key: IP, now: Time) returns (verdict: Verdict)
      modifies this
      ensures (entries, verdict) == Hit(old(entries), key, now, limit, window)
    {
      if |entries| > PURGE_ABOVE {
        var rest := entries.Keys;
        while rest != {}
          invariant rest <= entries.Keys <= old(entries).Keys
          invariant forall k :: k in old(entries) && k !in rest ==> (k in entries <==> now <= old(entries)[k].resetAt)
          invariant forall k :: k in entries ==> entries[k] == old(entries)[k]
          decreases |rest|
        {
          var k :| k in rest;
          rest := rest - {k};
          if now > entries[k].resetAt {
            entries := entries - {k};
          }
        }
        assert entries == Purged(old(entries), now);
      }
      if key !in entries && |entries| >= CAPACITY {
        return Full;
      }
      var entry := if key in entries then entries[key] else Entry(0, now + window);
      if now > entry.resetAt {
        entry := Entry(0, now + window);
      }
      entry := entry.(count := entry.count + 1);
      entries := entries[key := entry];
      return if entry.count > limit then Limited else Admitted;
    }
  }

  // ---------------------------------------------------------------- whole runs

  datatype Arrival = Arrival(key: IP, at: Time)

  /** The limiter beside a counter that never purges and never refuses for lack of room; a request that
      the limiter refuses for lack of room is counted by neither. */
  datatype Twin = Twin(entries: map<IP, Entry>, unbounded: map<IP, Entry>, verdicts: seq<Verdict>,
      reference: seq<Verdict>)

  function Arrive(t: Twin, a: Arrival, limit: nat, window: Time): Twin {
    var (entries, verdict) := Hit(t.entries, a.key, a.at, limit, window);
    if verdict == Full
        then t.(entries := entries, verdicts := t.verdicts + [Full], reference := t.reference + [Full]) else
      var e := Counted(t.unbounded, a.key, a.at, window);
      Twin(entries, t.unbounded[a.key := e], t.verdicts + [verdict], t.reference + [Judge(e, limit)])
  }

  function Run(arrivals: seq<Arrival>, limit: nat, window: Time): (t: Twin)
    ensures |t.verdicts| == |t.reference| == |arrivals|
    decreases |arrivals|
  {
    if arrivals == [] then Twin(map[], map[], [], [])
    else Arrive(Run(arrivals[..|arrivals| - 1], limit, window), arrivals[|arrivals| - 1], limit, window)
  }

  /** The clock does not go back. */
  ghost predicate Forward(arrivals: seq<Arrival>) {
    forall i, j :: 0 <= i < j < |arrivals| ==> arrivals[i].at <= arrivals[j].at
  }

  /** From an instant on, both see the same windows. */
  ghost predicate Agree(t: Twin, now: Time) {
    forall k, at :: now <= at ==> Current(t.entries, k, at) == Current(t.unbounded, k, at)
  }

  ghost predicate Fits(t: Twin) {
    |t.entries| <= CAPACITY
  }

  lemma PurgeKeepsCurrent(entries: map<IP, Entry>, now: Time, key: IP, at: Time)
    requires now <= at
    ensures Current(Purged(entries, now), key, at) == Current(entries, key, at)
    ensures |entries| > PURGE_ABOVE && key in Purged(entries, now) ==> Current(entries, key, now).Some?
  {}

  lemma HitFits(entries: map<IP, Entry>, key: IP, now: Time, limit: nat, window: Time)
    requires |entries| <= CAPACITY
    ensures |Hit(entries, key, now, limit, window).0| <= CAPACITY
  {
    var kept := Purged(entries, now);
    Smaller(kept.Keys, entries.Keys);
    assert |kept.Keys| == |kept| && |entries.Keys| == |entries|;
    var e := Counted(kept, key, now, window);
    assert kept[key := e].Keys == kept.Keys + {key};
  }

  lemma HitAgrees(t: Twin, a: Arrival, limit: nat, window: Time)
    requires Agree(t, a.at)
    ensures Agree(Arrive(t, a, limit, window), a.at)
    ensures var t' := Arrive(t, a, limit, window); t'.verdicts[|t.verdicts|] == t'.reference[|t.reference|]
  {
    var t' := Arrive(t, a, limit, window);
    forall k, at | a.at <= at ensures Current(t'.entries, k, at) == Current(t'.unbounded, k, at) {
      PurgeKeepsCurrent(t.entries, a.at, k, at);
    }
    PurgeKeepsCurrent(t.entries, a.at, a.key, a.at);
  }

  ghost predicate Windows(entries: map<IP, Entry>, others: set<IP>, now: Time) {
    forall k :: k in others ==> Current(entries, k, now).Some?
  }

  /** A refusal for lack of room happens exactly when the key has no window of its own and 8192 other
      keys have one. */
  lemma FullExactly(entries: map<IP, Entry>, key: IP, now: Time, limit: nat, window: Time)
    requires |entries| <= CAPACITY
    ensures Hit(entries, key, now, limit, window).1 == Full <==>
            Current(entries, key, now).None? && exists others: set<IP> ::
                  |others| == CAPACITY && key !in others && Windows(entries, others, now)
  {
    var kept := Purged(entries, now);
    Smaller(kept.Keys, entries.Keys);
    if key !in kept && |kept| >= CAPACITY {
      assert |kept.Keys| == CAPACITY && Windows(entries, kept.Keys, now);
    }
    if others: set<IP> :| |others| == CAPACITY && key !in others && Windows(entries, others, now) {
      forall k | k in others ensures k in kept {
        assert Current(entries, k, now).Some?;
      }
      Smaller(others, kept.Keys);
      assert |entries.Keys| == |entries|;
      PurgeKeepsCurrent(entries, now, key, now);
    }
  }

  lemma {:induction false} RunAgrees(arrivals: seq<Arrival>, limit: nat, window: Time)
    requires Forward(arrivals)
    ensures var t := Run(arrivals, limit, window);
            t.verdicts == t.reference && Fits(t) && (arrivals != [] ==> Agree(t, arrivals[|arrivals| - 1].at))
    decreases |arrivals|
  {
    if arrivals != [] {
      var before, a := arrivals[..|arrivals| - 1], arrivals[|arrivals| - 1];
      var t := Run(before, limit, window);
      RunAgrees(before, limit, window);
      if before != [] {
        assert before[|before| - 1].at <= a.at;
      }
      assert Agree(t, a.at);
      HitAgrees(t, a, limit, window);
      HitFits(t.entries, a.key, a.at, limit, window);
      var t' := Arrive(t, a, limit, window);
      assert t'.verdicts == t.verdicts + [t'.verdicts[|t.verdicts|]];
      assert t'.reference == t.reference + [t'.reference[|t.reference|]];
    }
  }

  // ---------------------------------------------------------------- how many get through

  /** Requests of a key admitted at an instant in from..to, both included. */
  function Through(arrivals: seq<Arrival>, verdicts: seq<Verdict>, key: IP, from: Time, to: Time): nat
    requires |arrivals| == |verdicts|
    decreases |arrivals|
  {
    if arrivals == [] then 0 else
      var n := |arrivals| - 1;
      Through(arrivals[..n], verdicts[..n], key, from, to)
      + if arrivals[n].key == key && verdicts[n] == Admitted && from <= arrivals[n].at <= to then 1 else 0
  }

  lemma {:induction false} ThroughSplits(arrivals: seq<Arrival>, verdicts: seq<Verdict>, key: IP, from: Time, mid: Time,
      to: Time)
    requires |arrivals| == |verdicts| && from <= mid
    ensures Through(arrivals, verdicts, key, from, to) <=
            Through(arrivals, verdicts, key, from, mid - 1) + Through(arrivals, verdicts, key, mid, to)
    decreases |arrivals|
  {
    if arrivals != [] {
      var n := |arrivals| - 1;
      ThroughSplits(arrivals[..n], verdicts[..n], key, from, mid, to);
    }
  }

  lemma {:induction false} ThroughGrows(arrivals: seq<Arrival>, verdicts: seq<Verdict>, key: IP, from: Time, to: Time,
      from': Time, to': Time)
    requires |arrivals| == |verdicts| && from' <= from && to <= to'
    ensures Through(arrivals, verdicts, key, from, to) <= Through(arrivals, verdicts, key, from', to')
    decreases |arrivals|
  {
    if arrivals != [] {
      var n := |arrivals| - 1;
      ThroughGrows(arrivals[..n], verdicts[..n], key, from, to, from', to');
    }
  }

  lemma {:induction false} ThroughPast(arrivals: seq<Arrival>, verdicts: seq<Verdict>, key: IP, from: Time, to: Time)
    requires |arrivals| == |verdicts|
    requires forall i :: 0 <= i < |arrivals| && arrivals[i].key == key && verdicts[i] == Admitted ==>
        arrivals[i].at < from
    ensures Through(arrivals, verdicts, key, from, to) == 0
    decreases |arrivals|
  {
    if arrivals != [] {
      var n := |arrivals| - 1;
      ThroughPast(arrivals[..n], verdicts[..n], key, from, to);
    }
  }

  lemma ThroughLast(arrivals: seq<Arrival>, verdicts: seq<Verdict>, a: Arrival, v: Verdict, key: IP, from: Time,
      to: Time)
    requires |arrivals| == |verdicts|
    ensures Through(arrivals + [a], verdicts + [v], key, from, to) ==
            Through(arrivals, verdicts, key, from, to) + if a.key == key && v == Admitted
                && from <= a.at <= to then 1 else 0
  {}

  /** What the unbounded counter knows of a key: what got through since its window opened was counted and
      is within the limit, so is what got through in the window length before, and nothing came later. */
  ghost predicate Tallied(arrivals: seq<Arrival>, verdicts: seq<Verdict>, e: Entry, key: IP, limit: nat, window: Time)
    requires |arrivals| == |verdicts|
  {
    var start := e.resetAt - window;
    && (forall to :: Through(arrivals, verdicts, key, start, to) <= e.count)
    && (forall to :: Through(arrivals, verdicts, key, start, to) <= limit)
    && Through(arrivals, verdicts, key, start, e.resetAt) == (if e.count < limit then e.count else limit)
    && Through(arrivals, verdicts, key, start - window, start - 1) <= limit
    && (forall i :: 0 <= i < |arrivals| && arrivals[i].key == key && verdicts[i] == Admitted ==>
        arrivals[i].at <= e.resetAt)
  }

  lemma SameWindow(arrivals: seq<Arrival>, verdicts: seq<Verdict>, e: Entry, a: Arrival, limit: nat, window: Time)
    requires |arrivals| == |verdicts| && Tallied(arrivals, verdicts, e, a.key, limit, window)
    requires e.resetAt - window <= a.at <= e.resetAt
    ensures var e' := e.(count := e.count + 1);
            Tallied(arrivals + [a], verdicts + [Judge(e', limit)], e', a.key, limit, window)
  {
    var e' := e.(count := e.count + 1);
    var v, start := Judge(e', limit), e.resetAt - window;
    forall to ensures Through(arrivals + [a], verdicts + [v], a.key, start, to) <= e'.count
              ensures Through(arrivals + [a], verdicts + [v], a.key, start, to) <= limit {
      ThroughLast(arrivals, verdicts, a, v, a.key, start, to);
    }
    ThroughLast(arrivals, verdicts, a, v, a.key, start - window, start - 1);
    ThroughLast(arrivals, verdicts, a, v, a.key, start, e.resetAt);
  }

  lemma NextWindow(arrivals: seq<Arrival>, verdicts: seq<Verdict>, e: Entry, a: Arrival, limit: nat, window: Time)
    requires window >= 0 && |arrivals| == |verdicts| && Tallied(arrivals, verdicts, e, a.key, limit, window)
    requires a.at > e.resetAt
    ensures var e' := Entry(1, a.at + window);
            Tallied(arrivals + [a], verdicts + [Judge(e', limit)], e', a.key, limit, window)
  {
    var e' := Entry(1, a.at + window);
    var v := Judge(e', limit);
    forall to ensures Through(arrivals + [a], verdicts + [v], a.key, a.at, to) <= 1
              ensures Through(arrivals + [a], verdicts + [v], a.key, a.at, to) <= limit {
      ThroughLast(arrivals, verdicts, a, v, a.key, a.at, to);
      ThroughPast(arrivals, verdicts, a.key, a.at, to);
    }
    ThroughLast(arrivals, verdicts, a, v, a.key, a.at, a.at + window);
    ThroughPast(arrivals, verdicts, a.key, a.at, a.at + window);
    ThroughLast(arrivals, verdicts, a, v, a.key, a.at - window, a.at - 1);
    ThroughGrows(arrivals, verdicts, a.key, a.at - window, a.at - 1, e.resetAt - window, a.at - 1);
  }

  lemma FirstWindow(arrivals: seq<Arrival>, verdicts: seq<Verdict>, a: Arrival, limit: nat, window: Time)
    requires window >= 0 && |arrivals| == |verdicts|
    requires forall i :: 0 <= i < |arrivals| && arrivals[i].key == a.key ==> verdicts[i] != Admitted
    ensures var e' := Entry(1, a.at + window);
            Tallied(arrivals + [a], verdicts + [Judge(e', limit)], e', a.key, limit, window)
  {
    var v := Judge(Entry(1, a.at + window), limit);
    forall from, to ensures Through(arrivals + [a], verdicts + [v], a.key, from, to) == if v == Admitted
        && from <= a.at <= to then 1 else 0 {
      ThroughLast(arrivals, verdicts, a, v, a.key, from, to);
      ThroughPast(arrivals, verdicts, a.key, from, to);
    }
  }

  lemma OtherKey(arrivals: seq<Arrival>, verdicts: seq<Verdict>, e: Entry, key: IP, a: Arrival, v: Verdict, limit: nat,
      window: Time)
    requires |arrivals| == |verdicts| && Tallied(arrivals, verdicts, e, key, limit, window)
    requires a.key != key || v != Admitted
    ensures Tallied(arrivals + [a], verdicts + [v], e, key, limit, window)
  {
    forall from, to ensures Through(arrivals + [a], verdicts + [v], key, from, to)
        == Through(arrivals, verdicts, key, from, to) {
      ThroughLast(arrivals, verdicts, a, v, key, from, to);
    }
  }

  /** Every key's tally, and no window that opens in the future. */
  ghost predicate Books(arrivals: seq<Arrival>, t: Twin, limit: nat, window: Time)
    requires |arrivals| == |t.reference|
  {
    && (forall k :: k in t.unbounded ==>
          && Tallied(arrivals, t.reference, t.unbounded[k], k, limit, window)
          && arrivals != [] && t.unbounded[k].resetAt - window <= arrivals[|arrivals| - 1].at)
    && (forall i :: 0 <= i < |arrivals| && arrivals[i].key !in t.unbounded ==> t.reference[i] != Admitted)
  }

  lemma TallyKept(arrivals: seq<Arrival>, t: Twin, a: Arrival, k: IP, limit: nat, window: Time)
    requires window >= 0 && |arrivals| == |t.reference| && Books(arrivals, t, limit, window)
    requires arrivals != [] ==> arrivals[|arrivals| - 1].at <= a.at
    requires Hit(t.entries, a.key, a.at, limit, window).1 != Full && k == a.key
    ensures var e := Counted(t.unbounded, k, a.at, window);
            Tallied(arrivals + [a], t.reference + [Judge(e, limit)], e, k, limit, window)
  {
    if k !in t.unbounded {
      FirstWindow(arrivals, t.reference, a, limit, window);
    } else if a.at <= t.unbounded[k].resetAt {
      SameWindow(arrivals, t.reference, t.unbounded[k], a, limit, window);
    } else {
      NextWindow(arrivals, t.reference, t.unbounded[k], a, limit, window);
    }
  }

  lemma ArriveBooks(arrivals: seq<Arrival>, t: Twin, a: Arrival, limit: nat, window: Time)
    requires window >= 0 && |arrivals| == |t.reference| && Books(arrivals, t, limit, window)
    requires arrivals != [] ==> arrivals[|arrivals| - 1].at <= a.at
    ensures Books(arrivals + [a], Arrive(t, a, limit, window), limit, window)
  {
    var t' := Arrive(t, a, limit, window);
    var v := t'.reference[|t.reference|];
    assert t'.reference == t.reference + [v];
    forall k | k in t'.unbounded ensures Tallied(arrivals + [a], t'.reference, t'.unbounded[k], k, limit, window) {
      if k != a.key || v == Full {
        OtherKey(arrivals, t.reference, t.unbounded[k], k, a, v, limit, window);
      } else {
        TallyKept(arrivals, t, a, k, limit, window);
      }
    }
  }

  lemma {:induction false} RunBooks(arrivals: seq<Arrival>, limit: nat, window: Time)
    requires window >= 0 && Forward(arrivals)
    ensures Books(arrivals, Run(arrivals, limit, window), limit, window)
    decreases |arrivals|
  {
    if arrivals != [] {
      var before, a := arrivals[..|arrivals| - 1], arrivals[|arrivals| - 1];
      RunBooks(before, limit, window);
      ArriveBooks(before, Run(before, limit, window), a, limit, window);
      assert arrivals == before + [a];
    }
  }

  /** An interval that reaches the latest window touches that one and at most one more. */
  lemma TwoWindows(arrivals: seq<Arrival>, verdicts: seq<Verdict>, e: Entry, key: IP, from: Time, limit: nat,
      window: Time)
    requires |arrivals| == |verdicts| && Tallied(arrivals, verdicts, e, key, limit, window)
    requires e.resetAt - window <= from + window
    ensures Through(arrivals, verdicts, key, from, from + window) <= limit + limit
  {
    var start, to := e.resetAt - window, from + window;
    assert Through(arrivals, verdicts, key, start, to) <= limit;
    if from >= start {
      ThroughGrows(arrivals, verdicts, key, from, to, start, to);
    } else {
      ThroughSplits(arrivals, verdicts, key, from, start, to);
      ThroughGrows(arrivals, verdicts, key, from, start - 1, start - window, start - 1);
    }
  }

  lemma {:induction false} AtMostTwice(arrivals: seq<Arrival>, key: IP, from: Time, limit: nat, window: Time)
    requires window >= 0 && Forward(arrivals)
    ensures Through(arrivals, Run(arrivals, limit, window).reference, key, from, from + window) <= 2 * limit
    decreases |arrivals|
  {
    if arrivals != [] {
      var before, a := arrivals[..|arrivals| - 1], arrivals[|arrivals| - 1];
      var t, t' := Run(before, limit, window), Run(arrivals, limit, window);
      assert t'.reference[..|before|] == t.reference;
      var v := t'.reference[|before|];
      if a.key == key && v == Admitted && from <= a.at <= from + window {
        RunBooks(arrivals, limit, window);
        TwoWindows(arrivals, t'.reference, t'.unbounded[key], key, from, limit, window);
      } else {
        AtMostTwice(before, key, from, limit, window);
      }
    }
  }

  /** Nothing was admitted after the last arrival. */
  lemma {:induction false} ThroughUpTo(arrivals: seq<Arrival>, verdicts: seq<Verdict>, key: IP, from: Time, at: Time,
      to: Time)
    requires |arrivals| == |verdicts| && forall i :: 0 <= i < |arrivals| ==> arrivals[i].at <= at
    ensures Through(arrivals, verdicts, key, from, to) <= Through(arrivals, verdicts, key, from, at)
    decreases |arrivals|
  {
    if arrivals != [] {
      var n := |arrivals| - 1;
      ThroughUpTo(arrivals[..n], verdicts[..n], key, from, at, to);
    }
  }

  /** A request is refused for its rate only after the limit was used up: so many requests of its key got
      through within the last window length.  The first ones of a window are admitted. */
  lemma LimitedOnlyWhenUsedUp(arrivals: seq<Arrival>, a: Arrival, limit: nat, window: Time)
    requires window >= 0 && Forward(arrivals + [a])
    ensures var before, after := Run(arrivals, limit, window), Run(arrivals + [a], limit, window);
            after.verdicts[|arrivals|] == Limited ==>
              Through(arrivals, before.verdicts, a.key, a.at - window, a.at) >= limit
  {
    var all := arrivals + [a];
    assert all[..|arrivals|] == arrivals && all[|arrivals|] == a;
    assert forall i :: 0 <= i < |arrivals| ==> all[i] == arrivals[i] && all[i].at <= all[|arrivals|].at;
    RunBooks(arrivals, limit, window);
    RunAgrees(arrivals, limit, window);
    RunAgrees(all, limit, window);
    var t := Run(arrivals, limit, window);
    assert Run(all, limit, window) == Arrive(t, a, limit, window);
    var e := Current(t.unbounded, a.key, a.at);
    if e.Some? && e.value.count >= limit {
      UsedUp(arrivals, t.verdicts, e.value, a, limit, window);
    }
  }

  lemma UsedUp(arrivals: seq<Arrival>, verdicts: seq<Verdict>, e: Entry, a: Arrival, limit: nat, window: Time)
    requires |arrivals| == |verdicts| && Tallied(arrivals, verdicts, e, a.key, limit, window)
    requires e.count >= limit && a.at <= e.resetAt && forall i :: 0 <= i < |arrivals| ==> arrivals[i].at <= a.at
    ensures Through(arrivals, verdicts, a.key, a.at - window, a.at) >= limit
  {
    ThroughUpTo(arrivals, verdicts, a.key, e.resetAt - window, a.at, e.resetAt);
    ThroughGrows(arrivals, verdicts, a.key, e.resetAt - window, a.at, a.at - window, a.at);
  }

  /** With a clock that does not go back: the map stays within 8192 keys; purging never changes a
      decision; and any interval of one window length lets at most twice the limit through per key. */
  lemma EveryRun(arrivals: seq<Arrival>, key: IP, from: Time, limit: nat, window: Time)
    requires window >= 0 && Forward(arrivals)
    ensures var t := Run(arrivals, limit, window);
            && |t.entries| <= CAPACITY
            && t.verdicts == t.reference
            && Through(arrivals, t.verdicts, key, from, from + window) <= 2 * limit
  {
    RunAgrees(arrivals, limit, window);
    AtMostTwice(arrivals, key, from, limit, window);
  }

  // ---------------------------------------------------------------- fmtInt

  function Decimal(n: nat): string {
    if n < 10 then [DIGITS[n]] else Decimal(n / 10) + [DIGITS[n % 10]]
  }

  const DIGITS := "0123456789"

  function Reversed(s: string): string {
    if s == "" then "" else Reversed(s[1..]) + [s[0]]
  }

  lemma {:induction false} ReversedAt(s: string, k: nat)
    requires k < |s|
    ensures |Reversed(s)| == |s| && Reversed(s)[k] == s[|s| - 1 - k]
  {
    if |s| > 1 { ReversedAt(s[1..], if k < |s| - 1 then k else 0); }
  }

  lemma {:induction false} ReversedAppend(s: string, c: char)
    ensures Reversed(s + [c]) == [c] + Reversed(s)
  {
    if s != "" {
      assert (s + [c])[1..] == s[1..] + [c];
      ReversedAppend(s[1..], c);
    }
  }

  /** The swap loop of fmtInt. */
  method ReverseInPlace(digits: array<char>)
    modifies digits
    ensures digits[..] == Reversed(old(digits[..]))
  {
    var left, right := 0, digits.Length - 1;
    while left < right
      invariant 0 <= left && left + right == digits.Length - 1 && left <= right + 1
      invariant forall k :: 0 <= k < left ==>
            digits[k] == old(digits[digits.Length - 1 - k]) && digits[digits.Length - 1 - k] == old(digits[k])
      invariant forall k :: left <= k <= right ==> digits[k] == old(digits[k])
    {
      digits[left], digits[right] := digits[right], digits[left];
      left, right := left + 1, right - 1;
    }
    ghost var was := old(digits[..]);
    assert |was| == 0 ==> digits[..] == Reversed(was);
    forall k | 0 <= k < |was| ensures |Reversed(was)| == |was| && digits[..][k] == Reversed(was)[k] {
      ReversedAt(was, k);
    }
  }

  function Shown(n: nat): string {
    if n == 0 then "" else Decimal(n)
  }

  lemma PrintDigit(rest: nat, digits: string)
    requires rest > 0
    ensures Shown(rest / 10) + Reversed(digits + [DIGITS[rest % 10]]) == Shown(rest) + Reversed(digits)
  {
    var d := DIGITS[rest % 10];
    ReversedAppend(digits, d);
    assert Shown(rest) == Shown(rest / 10) + [d];
    assert Shown(rest / 10) + ([d] + Reversed(digits)) == (Shown(rest / 10) + [d]) + Reversed(digits);
  }

  /** fmtInt: the decimal digits; a negative number prints nothing. */
  method FmtInt(value: int) returns (r: string)
    ensures r == if value < 0 then "" else Decimal(value)
  {
    if value == 0 { return "0"; }
    var rest, digits := value, "";
    while rest > 0
      invariant value < 0 ==> rest == value && digits == ""
      invariant value > 0 ==> rest >= 0 && Shown(rest) + Reversed(digits) == Decimal(value)
      decreases rest
    {
      PrintDigit(rest, digits);
      digits := digits + [DIGITS[rest % 10]];
      rest := rest / 10;
    }
    var buffer := new char[|digits|](i requires 0 <= i < |digits| => digits[i]);
    assert buffer[..] == digits;
    ReverseInPlace(buffer);
    return buffer[..];
  }

  function Value(s: string): nat {
    if s == "" then 0 else 10 * Value(s[..|s| - 1]) + Digit(s[|s| - 1])
  }

  function Digit(c: char): nat {
    if '0' <= c <= '9' then c as int - '0' as int else 0
  }

  lemma DigitOf(d: nat)
    requires d < 10
    ensures Digit(DIGITS[d]) == d && '0' <= DIGITS[d] <= '9'
  {}

  /** The digits denote the number, and two numbers never print alike. */
  lemma {:induction false} DecimalDenotes(n: nat)
    ensures Value(Decimal(n)) == n && Decimal(n) != ""
    ensures Decimal(n)[0] == '0' ==> n == 0
  {
    DigitOf(n % 10);
    if n < 10 {
      assert Decimal(n)[..0] == "";
    } else {
      DecimalDenotes(n / 10);
      assert Decimal(n)[..|Decimal(n)| - 1] == Decimal(n / 10);
    }
  }
}
