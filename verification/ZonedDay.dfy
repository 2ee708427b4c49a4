/** Calendar days of a time zone (sao-paulo-day.ts). Instants are milliseconds since the
    epoch; a calendar date is its number of days since the epoch, so `Date.UTC` of a date
    is that number times a day. A zone is its offset function, in whole seconds. */
module ZonedDay {

  const DAY_MS := 86_400_000

  type Zone = int -> int

  function Local(zone: Zone, instant: int): int {
    instant + 1000 * zone(instant)
  }

  /** The formatter's parts put together again: local time without its milliseconds. */
  function RepresentedUtc(zone: Zone, instant: int): int {
    Local(zone, instant) / 1000 * 1000
  }

  /** The instant reached by subtracting, from local midnight, the offset in force at `at`. */
  function Corrected(zone: Zone, midnight: int, at: int): int {
    midnight - (RepresentedUtc(zone, at) - at)
  }

  function Midnight(zone: Zone, date: int): int {
    Corrected(zone, date * DAY_MS, Corrected(zone, date * DAY_MS, date * DAY_MS))
  }

  function CalendarDate(zone: Zone, now: int): int {
    Local(zone, now) / DAY_MS
  }

  method ZonedMidnightToUtc(zone: Zone, date: int) returns (result: int)
    ensures result == Midnight(zone, date)
  {
    var utcGuess := date * DAY_MS;
    result := utcGuess;
    for attempt := 0 to 2
      invariant attempt == 0 ==> result == utcGuess
      invariant attempt == 1 ==> result == Corrected(zone, utcGuess, utcGuess)
      invariant attempt == 2 ==> result == Midnight(zone, date)
    {
      var representedUtc := RepresentedUtc(zone, result);
      var offset := representedUtc - result;
      result := utcGuess - offset;
    }
  }

  datatype Bounds = Bounds(start: int, end: int)

  function DayBounds(zone: Zone, now: int): Bounds {
    Bounds(Midnight(zone, CalendarDate(zone, now)), Midnight(zone, CalendarDate(zone, now) + 1))
  }

  method GetDayBounds(zone: Zone, now: int) returns (bounds: Bounds)
    ensures bounds == DayBounds(zone, now)
  {
    var currentDate := CalendarDate(zone, now);
    var start := ZonedMidnightToUtc(zone, currentDate);
    var end := ZonedMidnightToUtc(zone, currentDate + 1);
    return Bounds(start, end);
  }

  // ---------------------------------------------------------------- the two passes

  /** Offsets stay within `span` seconds, and at most one change of offset, from `before` to
      `after` at `change`, falls within `span` seconds of `instant`. */
  ghost predicate OneTransitionNear(zone: Zone, instant: int, span: int, change: int, before: int, after: int) {
    && (forall u :: -span <= zone(u) <= span)
    && (forall u :: instant - 1000 * span <= u <= instant + 1000 * span ==>
                      zone(u) == if u < change then before else after)
  }

  lemma WholeSeconds(n: int)
    ensures 1000 * n / 1000 == n && 1000 * n % 1000 == 0
  {
  }

  lemma CorrectedIsOffset(zone: Zone, midnight: int, seconds: int)
    ensures Corrected(zone, midnight, 1000 * seconds) == midnight - 1000 * zone(1000 * seconds)
  {
    WholeSeconds(seconds + zone(1000 * seconds));
    assert Local(zone, 1000 * seconds) == 1000 * (seconds + zone(1000 * seconds));
  }

  /** The result of the two passes, without the formatter's loss of milliseconds. */
  lemma MidnightIs(zone: Zone, date: int)
    ensures var guess := date * DAY_MS;
            Midnight(zone, date) == guess - 1000 * zone(guess - 1000 * zone(guess))
  {
    var seconds := date * 86_400;
    assert date * DAY_MS == 1000 * seconds;
    CorrectedIsOffset(zone, 1000 * seconds, seconds);
    CorrectedIsOffset(zone, 1000 * seconds, seconds - zone(1000 * seconds));
  }

  lemma TwoPassesSuffice(zone: Zone, guess: int, span: int, change: int, before: int, after: int)
    requires OneTransitionNear(zone, guess, span, change, before, after)
    ensures var second := guess - 1000 * zone(guess - 1000 * zone(guess));
            Local(zone, second) == guess <==> exists u :: Local(zone, u) == guess
  {
    var first := guess - 1000 * zone(guess);
    var second := guess - 1000 * zone(first);
    assert -span <= zone(guess) <= span;
    if u :| Local(zone, u) == guess {
      assert -span <= zone(u) <= span;
      assert zone(u) == if u < change then before else after;
      assert zone(first) == if first < change then before else after;
      assert -span <= zone(first) <= span;
      assert zone(second) == if second < change then before else after;
    }
  }

  /** The two passes find local midnight exactly when the date has one, even across a change of offset. */
  lemma MidnightIsFoundIffItExists(zone: Zone, date: int, span: int, change: int, before: int, after: int)
    requires OneTransitionNear(zone, date * DAY_MS, span, change, before, after)
    ensures Local(zone, Midnight(zone, date)) == date * DAY_MS
        <==> exists u :: Local(zone, u) == date * DAY_MS
  {
    MidnightIs(zone, date);
    TwoPassesSuffice(zone, date * DAY_MS, span, change, before, after);
  }

  // ---------------------------------------------------------------- where a day begins

  /** The computed midnight separates the instants of earlier dates from those of the date and later ones. */
  ghost predicate Separates(zone: Zone, date: int) {
    forall u :: CalendarDate(zone, u) >= date <==> u >= Midnight(zone, date)
  }

  ghost predicate OccursOnce(zone: Zone, date: int) {
    && (exists u :: Local(zone, u) == date * DAY_MS)
    && (forall u, v :: Local(zone, u) == date * DAY_MS && Local(zone, v) == date * DAY_MS ==> u == v)
  }

  /** Midnight under the old and under the new offset are on the same side of the change, so that midnight is
      neither skipped nor repeated. */
  predicate SameSide(date: int, change: int, before: int, after: int) {
    date * DAY_MS - 1000 * before < change <==> date * DAY_MS - 1000 * after < change
  }

  /** The two cases in which a repeated or a skipped midnight does no harm: clocks go back to exactly midnight,
      or forward from exactly midnight, and the first guess falls on the right side of the change. */
  predicate HarmlessChange(date: int, change: int, before: int, after: int) {
    var guess := date * DAY_MS;
    || (guess - 1000 * before < change == guess - 1000 * after && guess < change)
    || (guess - 1000 * after < change == guess - 1000 * before && change <= guess)
  }

  lemma DateFromMidnight(zone: Zone, u: int, date: int)
    ensures CalendarDate(zone, u) >= date <==> Local(zone, u) >= date * DAY_MS
  {
  }

  /** Local time around a change of offset, whatever the instant. */
  lemma LocalReaches(zone: Zone, guess: int, span: int, change: int, before: int, after: int, u: int)
    requires OneTransitionNear(zone, guess, span, change, before, after)
    requires -span <= before <= span && -span <= after <= span
    ensures Local(zone, u) >= guess <==> u >= guess - 1000 * if u < change then before else after
    ensures Local(zone, u) == guess <==> u == guess - 1000 * if u < change then before else after
  {
    assert -span <= zone(u) <= span;
  }

  /** The computed midnight is midnight under the old or under the new offset, as the first pass decides. */
  lemma MidnightChooses(zone: Zone, date: int, span: int, change: int, before: int, after: int)
    requires OneTransitionNear(zone, date * DAY_MS, span, change, before, after)
    ensures var guess := date * DAY_MS;
            var asBefore, asAfter := guess - 1000 * before, guess - 1000 * after;
            Midnight(zone, date)
            == if (if guess < change then asBefore else asAfter) < change then asBefore else asAfter
  {
    MidnightIs(zone, date);
    assert -span <= zone(date * DAY_MS) <= span;
  }

  /** The computed midnight begins the date if and only if the change of offset neither skips nor repeats that
      midnight, or does so in one of the two harmless ways. */
  lemma SeparatesIff(zone: Zone, date: int, span: int, change: int, before: int, after: int)
    requires OneTransitionNear(zone, date * DAY_MS, span, change, before, after)
    requires -span <= before <= span && -span <= after <= span
    ensures Separates(zone, date)
       <==> SameSide(date, change, before, after) || HarmlessChange(date, change, before, after)
  {
    var guess := date * DAY_MS;
    var start := Midnight(zone, date);
    var asBefore, asAfter := guess - 1000 * before, guess - 1000 * after;
    MidnightChooses(zone, date, span, change, before, after);
    forall u ensures CalendarDate(zone, u) >= date <==> u >= if u < change then asBefore else asAfter {
      DateFromMidnight(zone, u, date);
      LocalReaches(zone, guess, span, change, before, after, u);
    }
    if !SameSide(date, change, before, after) && !HarmlessChange(date, change, before, after) {
      var u := if asBefore < change then (if start == asBefore then change else asBefore)
               else if start < change then start else change;
      assert !(CalendarDate(zone, u) >= date <==> u >= start);
    }
  }

  lemma OccursOnceIff(zone: Zone, date: int, span: int, change: int, before: int, after: int)
    requires OneTransitionNear(zone, date * DAY_MS, span, change, before, after)
    requires -span <= before <= span && -span <= after <= span
    ensures OccursOnce(zone, date) <==> SameSide(date, change, before, after)
  {
    var guess := date * DAY_MS;
    var asBefore, asAfter := guess - 1000 * before, guess - 1000 * after;
    forall u ensures Local(zone, u) == guess <==> u == if u < change then asBefore else asAfter {
      LocalReaches(zone, guess, span, change, before, after, u);
    }
    if SameSide(date, change, before, after) {
      assert Local(zone, if asBefore < change then asBefore else asAfter) == guess;
    } else if asBefore < change {
      assert Local(zone, asBefore) == guess && Local(zone, asAfter) == guess;
    }
  }

  // ---------------------------------------------------------------- days that partition time

  predicate In(instant: int, day: Bounds) {
    day.start <= instant < day.end
  }

  /** Every instant lies in its day, and in no other. */
  ghost predicate DaysPartition(zone: Zone) {
    forall now :: In(now, DayBounds(zone, now))
                  && forall other :: In(other, DayBounds(zone, now)) <==> DayBounds(zone, other) == DayBounds(zone, now)
  }

  /** An instant of any day lies in the day computed from it, and that day begins no later. */
  ghost predicate DaysReachBack(zone: Zone) {
    forall now, c :: In(c, DayBounds(zone, now)) ==>
      In(c, DayBounds(zone, c)) && DayBounds(zone, c).start <= DayBounds(zone, now).start
  }

  /** No two offsets of the zone are more than a day apart, so no date is skipped. */
  ghost predicate WithinADay(zone: Zone) {
    forall u, v :: zone(u) - zone(v) <= 86_400
  }

  lemma MidnightsAscend(zone: Zone, date: int, later: int)
    requires WithinADay(zone) && date <= later
    ensures Midnight(zone, date) <= Midnight(zone, later)
  {
    MidnightIs(zone, date);
    MidnightIs(zone, later);
    var g, h := date * DAY_MS, later * DAY_MS;
    assert zone(h - 1000 * zone(h)) - zone(g - 1000 * zone(g)) <= 86_400;
    if date < later { assert h >= g + DAY_MS; }
  }

  lemma InItsDay(zone: Zone, now: int)
    requires forall date :: Separates(zone, date)
    ensures In(now, DayBounds(zone, now))
  {
    var d := CalendarDate(zone, now);
    assert Separates(zone, d) && Separates(zone, d + 1);
  }

  lemma SameDay(zone: Zone, now: int, other: int)
    requires forall date :: Separates(zone, date)
    ensures In(other, DayBounds(zone, now)) <==> DayBounds(zone, other) == DayBounds(zone, now)
  {
    var d := CalendarDate(zone, now);
    assert Separates(zone, d) && Separates(zone, d + 1);
    InItsDay(zone, other);
  }

  lemma PartitionSeparates(zone: Zone, date: int, u: int)
    requires WithinADay(zone) && DaysPartition(zone)
    ensures CalendarDate(zone, u) >= date <==> u >= Midnight(zone, date)
  {
    var e := CalendarDate(zone, u);
    assert In(u, DayBounds(zone, u));
    if date <= e { MidnightsAscend(zone, date, e); } else { MidnightsAscend(zone, e + 1, date); }
  }

  /** Days partition time if and only if every computed midnight begins its date. */
  lemma DaysPartitionIff(zone: Zone)
    requires WithinADay(zone)
    ensures DaysPartition(zone) <==> forall date :: Separates(zone, date)
  {
    if DaysPartition(zone) {
      forall date ensures Separates(zone, date) {
        forall u { PartitionSeparates(zone, date, u); }
      }
    }
    if forall date :: Separates(zone, date) {
      forall now { InItsDay(zone, now); }
      forall now, other { SameDay(zone, now, other); }
    }
  }

  lemma PartitionsReachBack(zone: Zone)
    requires DaysPartition(zone)
    ensures DaysReachBack(zone)
  {
  }

  /** Around every midnight the zone changes its offset at most once. */
  ghost predicate SingleChanges(zone: Zone, span: int) {
    forall date :: exists change, before, after ::
      && OneTransitionNear(zone, date * DAY_MS, span, change, before, after)
      && -span <= before <= span && -span <= after <= span
  }

  /** If every local midnight occurs exactly once, days contain the instants they are computed from and are
      equal or disjoint, whatever happens to the offset within a day. */
  lemma DaysPartitionTime(zone: Zone, span: int)
    requires WithinADay(zone) && SingleChanges(zone, span)
    requires forall date :: OccursOnce(zone, date)
    ensures DaysPartition(zone)
  {
    forall date ensures Separates(zone, date) {
      var change, before, after :|
        && OneTransitionNear(zone, date * DAY_MS, span, change, before, after)
        && -span <= before <= span && -span <= after <= span;
      OccursOnceIff(zone, date, span, change, before, after);
      SeparatesIff(zone, date, span, change, before, after);
    }
    DaysPartitionIff(zone);
  }

  // ---------------------------------------------------------------- days of a fixed offset

  ghost predicate Fixed(zone: Zone, offset: int) {
    forall u :: zone(u) == offset
  }

  /** Under a fixed offset days partition time and last 24 hours. */
  lemma FixedDaysPartitionTime(zone: Zone, offset: int)
    requires Fixed(zone, offset)
    ensures DaysPartition(zone)
    ensures forall now :: DayBounds(zone, now).end == DayBounds(zone, now).start + DAY_MS
  {
    forall date ensures Midnight(zone, date) == date * DAY_MS - 1000 * offset && Separates(zone, date) {
      MidnightIs(zone, date);
      forall u ensures CalendarDate(zone, u) >= date <==> u >= Midnight(zone, date) {
        DateFromMidnight(zone, u, date);
      }
    }
    DaysPartitionIff(zone);
  }

  // ---------------------------------------------------------------- a skipped midnight

  /** Three hours behind, then two, from the instant that would have been local midnight of date 0. */
  function SkippingMidnight(): Zone {
    u => if u < 10_800_000 then -10_800 else -7_200
  }

  /** The last hour of date -1 lies outside the day computed from it, and inside the one of date 0. */
  lemma SkippedMidnight(now: int)
    requires 7_200_000 <= now < 10_800_000
    ensures DayBounds(SkippingMidnight(), now) == Bounds(-75_600_000, 7_200_000)
    ensures DayBounds(SkippingMidnight(), 10_800_000) == Bounds(7_200_000, 93_600_000)
    ensures !DaysReachBack(SkippingMidnight())
  {
    var zone := SkippingMidnight();
    MidnightIs(zone, -1);
    MidnightIs(zone, 0);
    MidnightIs(zone, 1);
    assert CalendarDate(zone, now) == -1 && CalendarDate(zone, 10_800_000) == 0;
    assert In(now, DayBounds(zone, 10_800_000)) && !In(now, DayBounds(zone, now));
  }
}
