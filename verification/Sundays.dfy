/** The backup timetable: Sundays at 02:00 in Asia/Jakarta (backend/backup/config.go).

    Asia/Jakarta is UTC+7 without daylight saving, so civil days have a fixed length. */
module Sundays {
  import opened Instants

  const WEEK: Time := 7 * DAY
  const JAKARTA: Time := 7 * HOUR

  /** Civil day number in Jakarta; day 0 is Thursday 1 January 1970. */
  function LocalDay(t: Time): int {
    (t + JAKARTA) / DAY
  }

  function TimeOfDay(t: Time): Time {
    (t + JAKARTA) % DAY
  }

  /** 0 is Sunday, as in Go's time.Weekday. */
  function Weekday(t: Time): int {
    (LocalDay(t) + 4) % 7
  }

  /** The instant of a civil day at the given hour in Jakarta. */
  function Date(day: int, hour: int): Time {
    day * DAY + hour * HOUR - JAKARTA
  }

  function LatestSunday(now: Time): Time {
    var day := Date(LocalDay(now) - Weekday(now), 2);
    if day > now then day - 7 * DAY else day
  }

  function NextSunday(now: Time): Time {
    LatestSunday(now) + 7 * DAY
  }

  /** What the timetable means, without computing anything from "now". */
  predicate IsSlot(s: Time) {
    Weekday(s) == 0 && TimeOfDay(s) == 2 * HOUR
  }

  /** Slots are exactly the instants congruent to one Sunday 02:00 modulo a week. */
  lemma SlotsAreWeekly(s: Time)
    ensures IsSlot(s) <==> (s + 5 * HOUR + 4 * DAY) % WEEK == 0
  {
    var q, r := LocalDay(s), TimeOfDay(s);
    assert s + JAKARTA == q * DAY + r && 0 <= r < DAY;
    var m, d := (q + 4) / 7, (q + 4) % 7;
    assert s + 5 * HOUR + 4 * DAY == m * WEEK + d * DAY + r - 2 * HOUR;
  }

  lemma SlotsAWeekApart(s: Time, t: Time)
    requires IsSlot(s) && IsSlot(t) && s < t
    ensures s + WEEK <= t
  {
    SlotsAreWeekly(s);
    SlotsAreWeekly(t);
    var a, b := (s + 5 * HOUR + 4 * DAY) / WEEK, (t + 5 * HOUR + 4 * DAY) / WEEK;
    assert t - s == (b - a) * WEEK;
  }

  /** The civil Sunday of the week of "now" at 02:00, before the correction for early Sunday. */
  lemma ThisWeeksSunday(now: Time)
    ensures var day := Date(LocalDay(now) - Weekday(now), 2);
            IsSlot(day) && day <= now + 2 * HOUR && now < day + WEEK
  {
    var q, r, d := LocalDay(now), TimeOfDay(now), Weekday(now);
    assert now + JAKARTA == q * DAY + r && 0 <= r < DAY;
    var day, m := Date(q - d, 2), (q + 4) / 7;
    assert day + 5 * HOUR + 4 * DAY == m * WEEK by {
      assert q - d == 7 * m - 4;
    }
    SlotsAreWeekly(day);
  }

  lemma SlotsRepeat(s: Time)
    requires IsSlot(s)
    ensures IsSlot(s - WEEK) && IsSlot(s + WEEK)
  {
    var c := 5 * HOUR + 4 * DAY;
    SlotsAreWeekly(s);
    var n := (s + c) / WEEK;
    assert s + c == n * WEEK && s - WEEK + c == (n - 1) * WEEK && s + WEEK + c == (n + 1) * WEEK;
    Multiple(n - 1);
    Multiple(n + 1);
    SlotsAreWeekly(s - WEEK);
    SlotsAreWeekly(s + WEEK);
  }

  lemma Multiple(n: int)
    ensures (n * WEEK) % WEEK == 0
  {}

  /** LatestSunday is a slot, not in the future, and less than a week old. */
  lemma LatestSundayIsASlot(now: Time)
    ensures IsSlot(LatestSunday(now))
    ensures LatestSunday(now) <= now < LatestSunday(now) + WEEK
    ensures IsSlot(NextSunday(now)) && now < NextSunday(now)
  {
    ThisWeeksSunday(now);
    SlotsRepeat(Date(LocalDay(now) - Weekday(now), 2));
    SlotsRepeat(LatestSunday(now));
  }

  /** The characterization: the one slot s with s <= now < s + one week. */
  lemma LatestSundayUnique(now: Time, s: Time)
    ensures s == LatestSunday(now) <==> IsSlot(s) && s <= now < s + WEEK
  {
    LatestSundayIsASlot(now);
    if IsSlot(s) && s <= now < s + WEEK {
      var l := LatestSunday(now);
      if s < l {
        SlotsAWeekApart(s, l);
      } else if l < s {
        SlotsAWeekApart(l, s);
      }
    }
  }

  lemma LatestSundayMonotone(a: Time, b: Time)
    requires a <= b
    ensures LatestSunday(a) <= LatestSunday(b)
    ensures NextSunday(a) <= NextSunday(b)
  {
    LatestSundayIsASlot(a);
    LatestSundayIsASlot(b);
    if LatestSunday(b) < LatestSunday(a) {
      SlotsAWeekApart(LatestSunday(b), LatestSunday(a));
    }
  }

  lemma LatestSundayIdempotent(t: Time)
    ensures LatestSunday(LatestSunday(t)) == LatestSunday(t)
    ensures IsSlot(t) <==> LatestSunday(t) == t
  {
    LatestSundayIsASlot(t);
    LatestSundayUnique(LatestSunday(t), LatestSunday(t));
    LatestSundayUnique(t, t);
  }

  /** A slot that has passed is never later than the latest one: however many weeks were missed,
      the slot stamped now is at or after every slot that was due. */
  lemma DueSlotsCollapse(due: Time, now: Time)
    requires IsSlot(due) && due <= now
    ensures due <= LatestSunday(now)
    ensures due < NextSunday(now)
  {
    LatestSundayMonotone(due, now);
    LatestSundayIdempotent(due);
  }
}
