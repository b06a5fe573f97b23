/** The daily force-refresh instant (internal/scheduler/scheduler.go, untilNextForce and forceLoop).
    Instants, offsets and durations are integers in nanoseconds; a civil time is the number of
    nanoseconds a zone's clock would show since a fixed midnight. */
module ForceSchedule {
  import opened Wrappers

  const DAY: int := 86_400_000_000_000

  function Days(n: int): int {
    n * 86_400_000_000_000
  }

  /** The civil day a clock reading falls in: Year, Month and Day as one day number. */
  ghost function DayOf(civil: int): (day: int)
    ensures Days(day) <= civil < Days(day) + DAY
  {
    var quotient := civil / 86_400_000_000_000;
    assert Days(quotient) <= civil < Days(quotient) + DAY;
    var day :| Days(day) <= civil < Days(day) + DAY;
    day
  }

  /** A zone is the UTC offset in force at each instant, and the instant time.Date picks for
      each civil time. */
  datatype Zone = Zone(offset: int -> int, date: int -> int)

  const UTC: Zone := Zone(t => 0, civil => civil)

  ghost predicate Shows(z: Zone, t: int, civil: int) {
    t + z.offset(t) == civil
  }

  /** At the transition t the clock jumps forward over civil. */
  ghost predicate JumpsOver(z: Zone, t: int, civil: int) {
    t - 1 + z.offset(t - 1) < civil < t + z.offset(t)
  }

  /** All that time.Date documents: it returns an instant showing the civil time if there is one
      (either of them in an overlap); inside a gap it applies one of the two adjacent offsets. */
  ghost predicate DateIsGenuine(z: Zone) {
    forall civil: int ::
      || Shows(z, z.date(civil), civil)
      || (&& (forall t: int :: !Shows(z, t, civil))
          && exists t: int :: JumpsOver(z, t, civil) && civil - z.date(civil) in {z.offset(t - 1), z.offset(t)})
  }

  ghost predicate OffsetsWithin(z: Zone, lo: int, band: nat) {
    forall t: int :: lo <= z.offset(t) <= lo + band
  }

  /** A zone whose offsets all lie in some band of the given width. */
  ghost predicate Admissible(z: Zone, band: nat) {
    DateIsGenuine(z) && exists lo: int :: OffsetsWithin(z, lo, band)
  }

  function LocationOrUTC(location: Option<Zone>): Zone {
    if location.None? then UTC else location.value
  }

  /** The instant of day `day`'s occurrence of the civil time of day `hm`. */
  function Occurrence(z: Zone, hm: int, day: int): int {
    z.date(Days(day) + hm)
  }

  /** The civil day whose occurrence untilNextForce waits for. */
  ghost function TargetDay(z: Zone, hm: int, now: int): int {
    var day := DayOf(now + z.offset(now));
    if Occurrence(z, hm, day) > now then day else day + 1
  }

  ghost function UntilNextForce(location: Option<Zone>, hm: int, now: int): int {
    var z := LocationOrUTC(location);
    Occurrence(z, hm, TargetDay(z, hm, now)) - now
  }

  /** The wait ends at the least instant strictly after now among all days' occurrences. */
  ghost predicate WaitsForLeast(z: Zone, hm: int, now: int) {
    var target := now + UntilNextForce(Some(z), hm, now);
    && target > now
    && (exists day :: target == Occurrence(z, hm, day))
    && (forall day :: Occurrence(z, hm, day) > now ==> target <= Occurrence(z, hm, day))
  }

  // ---------------------------------------------------------------------------
  // Occurrences of the force time are a day apart, give or take the band
  // ---------------------------------------------------------------------------

  lemma OccurrenceWithinBand(z: Zone, lo: int, band: nat, hm: int, day: int)
    requires DateIsGenuine(z) && OffsetsWithin(z, lo, band)
    ensures Days(day) + hm - lo - band <= Occurrence(z, hm, day) <= Days(day) + hm - lo
  {
    var civil := Days(day) + hm;
    if !Shows(z, z.date(civil), civil) {
      var t :| JumpsOver(z, t, civil) && civil - z.date(civil) in {z.offset(t - 1), z.offset(t)};
      assert lo <= z.offset(t) <= lo + band && lo <= z.offset(t - 1) <= lo + band;
    } else {
      assert lo <= z.offset(z.date(civil)) <= lo + band;
    }
  }

  /** All the later proofs need of a zone: every offset, and every day's occurrence, is pinned to
      within the band. */
  ghost predicate Banded(z: Zone, lo: int, band: nat, hm: int) {
    && OffsetsWithin(z, lo, band)
    && forall day: int :: Days(day) + hm - lo - band <= Occurrence(z, hm, day) <= Days(day) + hm - lo
  }

  lemma AdmissibleIsBanded(z: Zone, band: nat, hm: int) returns (lo: int)
    requires Admissible(z, band)
    ensures Banded(z, lo, band, hm)
  {
    lo :| OffsetsWithin(z, lo, band);
    forall day: int
      ensures Days(day) + hm - lo - band <= Occurrence(z, hm, day) <= Days(day) + hm - lo
    {
      OccurrenceWithinBand(z, lo, band, hm, day);
    }
  }

  lemma OccurrencesSpaced(z: Zone, lo: int, band: nat, hm: int, day: int, later: int)
    requires Banded(z, lo, band, hm)
    requires day <= later
    ensures Days(later - day) - band <= Occurrence(z, hm, later) - Occurrence(z, hm, day) <= Days(later - day) + band
  {
  }

  /** The target lies strictly after now, and the previous day's occurrence does not. */
  lemma TargetIsTight(z: Zone, lo: int, band: nat, hm: int, now: int)
    requires Banded(z, lo, band, hm)
    requires band <= hm <= DAY - band
    ensures Occurrence(z, hm, TargetDay(z, hm, now) - 1) <= now < Occurrence(z, hm, TargetDay(z, hm, now)) <= now + DAY + band
  {
    var day := DayOf(now + z.offset(now));
    assert lo <= z.offset(now) <= lo + band;
    assert Occurrence(z, hm, day - 1) <= now < Occurrence(z, hm, day + 1);
  }

  /** A clock reading before a day's occurrence targets that day or an earlier one, and a reading
      at or after it a later day. */
  lemma TargetDayBracketed(z: Zone, lo: int, band: nat, hm: int, now: int, day: int)
    requires Banded(z, lo, band, hm)
    requires band <= hm <= DAY - band
    ensures now < Occurrence(z, hm, day) <==> TargetDay(z, hm, now) <= day
  {
    var target := TargetDay(z, hm, now);
    TargetIsTight(z, lo, band, hm, now);
    if target <= day {
      OccurrencesSpaced(z, lo, band, hm, target, day);
    } else {
      OccurrencesSpaced(z, lo, band, hm, day, target - 1);
    }
  }

  lemma TargetIsLeast(z: Zone, lo: int, band: nat, hm: int, now: int, day: int)
    requires Banded(z, lo, band, hm)
    requires band <= hm <= DAY - band
    ensures now < Occurrence(z, hm, day) ==> Occurrence(z, hm, TargetDay(z, hm, now)) <= Occurrence(z, hm, day)
  {
    TargetDayBracketed(z, lo, band, hm, now, day);
    if now < Occurrence(z, hm, day) {
      OccurrencesSpaced(z, lo, band, hm, TargetDay(z, hm, now), day);
    }
  }

  /** Main result: with the force time at least a band away from midnight on both sides, the wait
      is positive, at most a day plus the band, and ends at the least future occurrence. */
  lemma NextForceIsLeast(z: Zone, band: nat, hm: int, now: int)
    requires Admissible(z, band)
    requires band <= hm <= DAY - band
    ensures WaitsForLeast(z, hm, now)
    ensures 0 < UntilNextForce(Some(z), hm, now) <= DAY + band
  {
    var lo := AdmissibleIsBanded(z, band, hm);
    TargetIsTight(z, lo, band, hm, now);
    forall day: int
      ensures now < Occurrence(z, hm, day) ==> Occurrence(z, hm, TargetDay(z, hm, now)) <= Occurrence(z, hm, day)
    {
      TargetIsLeast(z, lo, band, hm, now, day);
    }
  }

  /** With a fixed offset every force time of day works, and the clock shows exactly that time. */
  lemma FixedOffsetShowsForceTime(z: Zone, hm: int, now: int)
    requires Admissible(z, 0)
    requires 0 <= hm < DAY
    ensures WaitsForLeast(z, hm, now)
    ensures 0 < UntilNextForce(Some(z), hm, now) <= DAY
    ensures Shows(z, now + UntilNextForce(Some(z), hm, now), Days(TargetDay(z, hm, now)) + hm)
  {
    NextForceIsLeast(z, 0, hm, now);
    var lo := AdmissibleIsBanded(z, 0, hm);
    var fired := Occurrence(z, hm, TargetDay(z, hm, now));
    assert lo <= z.offset(fired) <= lo;
  }

  /** No configured location means UTC, so every force time of day works there too. */
  lemma DefaultLocationIsUTC(hm: int, now: int)
    requires 0 <= hm < DAY
    ensures WaitsForLeast(UTC, hm, now)
    ensures 0 < UntilNextForce(None, hm, now) <= DAY
    ensures now + UntilNextForce(None, hm, now) == Days(TargetDay(UTC, hm, now)) + hm
  {
    assert OffsetsWithin(UTC, 0, 0);
    forall civil: int
      ensures Shows(UTC, UTC.date(civil), civil)
    {
    }
    FixedOffsetShowsForceTime(UTC, hm, now);
  }

  // ---------------------------------------------------------------------------
  // The bounds on the force time are exact
  // ---------------------------------------------------------------------------

  /** A clock `west` behind UTC that jumps forward by `jump` at its midnight of day 0, with
      time.Date resolving the skipped times by the offset after the jump. For jump <= west that is
      the side Go picks: it looks the offset up at the civil time taken as UTC, which still lies
      before the jump, and looks again at the instant that offset leads to, which lies after it.
      The Azores are such a place, with an hour each. */
  function JumpForwardAtMidnight(west: int, jump: int): Zone {
    Zone(t => if t < west then -west else jump - west,
         civil => if civil < 0 then civil + west else civil + west - jump)
  }

  /** A clock `east` ahead of UTC that is set back by `jump` just after its midnight of day 0, with
      time.Date resolving the repeated times by their second showing. For jump <= east that is the
      side Go picks: the civil time taken as UTC already lies after the change. */
  function FallBackAfterMidnight(east: int, jump: int): Zone {
    Zone(t => if t < 1 - east then east else east - jump,
         civil => if civil < 1 - jump then civil - east else civil - east + jump)
  }

  lemma JumpForwardAdmissible(west: nat, jump: nat)
    ensures Admissible(JumpForwardAtMidnight(west, jump), jump)
  {
    var z := JumpForwardAtMidnight(west, jump);
    assert OffsetsWithin(z, 0 - west, jump);
    forall civil: int | !Shows(z, z.date(civil), civil)
      ensures forall t: int :: !Shows(z, t, civil)
      ensures exists t: int :: JumpsOver(z, t, civil) && civil - z.date(civil) in {z.offset(t - 1), z.offset(t)}
    {
      assert JumpsOver(z, west, civil);
      assert civil - z.date(civil) in {z.offset(west - 1), z.offset(west)};
    }
  }

  lemma FallBackAdmissible(east: nat, jump: nat)
    ensures Admissible(FallBackAfterMidnight(east, jump), jump)
  {
    var z := FallBackAfterMidnight(east, jump);
    var lo := east - jump;
    assert OffsetsWithin(z, lo, jump);
    forall civil: int
      ensures Shows(z, z.date(civil), civil)
    {
    }
  }

  /** A force time inside the skipped stretch after midnight: for all of the last
      `jump - hm` before the jump the computed wait is not positive, so forceLoop fires again at
      once, over and over, instead of sleeping to the next day. */
  lemma SkippedForceTimeFiresAtOnce(west: nat, jump: nat, hm: int, now: int)
    requires 0 <= hm < jump && hm < DAY
    requires hm - jump <= now - west < 0 && -DAY + hm <= now - west
    ensures UntilNextForce(Some(JumpForwardAtMidnight(west, jump)), hm, now) <= 0
  {
    assert DayOf(now - west) == -1;
  }

  lemma JumpForwardMissesOccurrence(west: nat, jump: nat, hm: int)
    requires 0 <= hm < jump && hm < DAY
    ensures Admissible(JumpForwardAtMidnight(west, jump), jump)
    ensures !WaitsForLeast(JumpForwardAtMidnight(west, jump), hm, west - 1)
  {
    JumpForwardAdmissible(west, jump);
    SkippedForceTimeFiresAtOnce(west, jump, hm, west - 1);
  }

  /** A force time in the repeated stretch before midnight: just before the change the loop aims at
      the new day's occurrence, although the old day's second one is still ahead. */
  lemma FallBackMissesOccurrence(east: nat, jump: nat, hm: int)
    requires DAY - jump < hm < DAY
    ensures Admissible(FallBackAfterMidnight(east, jump), jump)
    ensures !WaitsForLeast(FallBackAfterMidnight(east, jump), hm, 0 - east)
  {
    var z := FallBackAfterMidnight(east, jump);
    FallBackAdmissible(east, jump);
    assert TargetDay(z, hm, 0 - east) == 0;
    assert 0 - east < Occurrence(z, hm, -1) < Occurrence(z, hm, 0);
  }

  /** The condition is exact: the wait is right in every zone whose offsets span at most `band`
      if and only if the force time keeps at least `band` away from midnight on both sides. */
  lemma ForceTimeBoundsAreExact(band: nat, hm: int)
    requires 0 <= hm < DAY
    ensures (forall z, now | Admissible(z, band) :: WaitsForLeast(z, hm, now)) <==> band <= hm <= DAY - band
  {
    if band <= hm <= DAY - band {
      forall z, now | Admissible(z, band)
        ensures WaitsForLeast(z, hm, now)
      {
        NextForceIsLeast(z, band, hm, now);
      }
    } else if hm < band {
      JumpForwardMissesOccurrence(band, band, hm);
    } else {
      FallBackMissesOccurrence(band, band, hm);
    }
  }

  // ---------------------------------------------------------------------------
  // Whole runs of forceLoop
  // ---------------------------------------------------------------------------

  /** One turn of forceLoop: the clock reading the wait was computed from, and the instant the
      timer's case was taken. */
  datatype Firing = Firing(asked: int, fired: int)

  ghost function Target(z: Zone, hm: int, f: Firing): int {
    f.asked + UntilNextForce(Some(z), hm, f.asked)
  }

  /** Timers never fire early, and each turn asks after the previous one fired. */
  ghost predicate LoopTurns(z: Zone, hm: int, fs: seq<Firing>) {
    && (forall i | 0 <= i < |fs| :: fs[i].fired >= Target(z, hm, fs[i]))
    && (forall i, j | 0 <= i && j == i + 1 < |fs| :: fs[j].asked >= fs[i].fired)
  }

  lemma NextTurnAdvances(z: Zone, lo: int, band: nat, hm: int, f: Firing, g: Firing)
    requires Banded(z, lo, band, hm) && band <= hm <= DAY - band
    requires g.asked >= f.fired >= Target(z, hm, f)
    ensures TargetDay(z, hm, f.asked) < TargetDay(z, hm, g.asked)
    ensures g.asked < Occurrence(z, hm, TargetDay(z, hm, f.asked) + 1) ==>
            TargetDay(z, hm, g.asked) == TargetDay(z, hm, f.asked) + 1
  {
    var day := TargetDay(z, hm, f.asked);
    TargetDayBracketed(z, lo, band, hm, g.asked, day);
    TargetDayBracketed(z, lo, band, hm, g.asked, day + 1);
  }

  lemma {:induction false} TargetDaysAdvance(z: Zone, lo: int, band: nat, hm: int, fs: seq<Firing>, i: nat, j: nat)
    requires Banded(z, lo, band, hm) && band <= hm <= DAY - band
    requires LoopTurns(z, hm, fs)
    requires i <= j < |fs|
    ensures TargetDay(z, hm, fs[i].asked) + (j - i) <= TargetDay(z, hm, fs[j].asked)
  {
    if i < j {
      TargetDaysAdvance(z, lo, band, hm, fs, i, j - 1);
      NextTurnAdvances(z, lo, band, hm, fs[j - 1], fs[j]);
    }
  }

  /** Successive firings target strictly later civil days. */
  lemma FiringsAdvanceDays(z: Zone, band: nat, hm: int, fs: seq<Firing>)
    requires Admissible(z, band) && band <= hm <= DAY - band
    requires LoopTurns(z, hm, fs)
    ensures forall i, j | 0 <= i < j < |fs| :: TargetDay(z, hm, fs[i].asked) < TargetDay(z, hm, fs[j].asked)
  {
    var lo := AdmissibleIsBanded(z, band, hm);
    forall i, j | 0 <= i < j < |fs|
      ensures TargetDay(z, hm, fs[i].asked) < TargetDay(z, hm, fs[j].asked)
    {
      TargetDaysAdvance(z, lo, band, hm, fs, i, j);
    }
  }

  /** However long the run, firings whose targets lie in a window of length `window` number at
      most (window + band) / DAY + 1; a fixed offset gives window / DAY + 1. */
  lemma FiringsInWindow(z: Zone, band: nat, hm: int, fs: seq<Firing>, from: int, window: nat)
    requires Admissible(z, band) && band <= hm <= DAY - band
    requires LoopTurns(z, hm, fs)
    requires forall i | 0 <= i < |fs| :: from <= Target(z, hm, fs[i]) <= from + window
    ensures |fs| <= (window + band) / DAY + 1
  {
    if |fs| > 0 {
      var n := |fs| - 1;
      var lo := AdmissibleIsBanded(z, band, hm);
      TargetDaysAdvance(z, lo, band, hm, fs, 0, n);
      var first, last := TargetDay(z, hm, fs[0].asked), TargetDay(z, hm, fs[n].asked);
      OccurrencesSpaced(z, lo, band, hm, first, last);
      assert Target(z, hm, fs[0]) == Occurrence(z, hm, first) && Target(z, hm, fs[n]) == Occurrence(z, hm, last);
      assert Days(n) <= Days(last - first) <= window + band;
    }
  }

  /** A turn that ends before the next day's occurrence is followed by that very occurrence: no
      day is skipped unless a refresh overran it. */
  lemma NoDaySkipped(z: Zone, band: nat, hm: int, fs: seq<Firing>, i: nat)
    requires Admissible(z, band) && band <= hm <= DAY - band
    requires LoopTurns(z, hm, fs)
    requires i + 1 < |fs|
    requires fs[i + 1].asked < Occurrence(z, hm, TargetDay(z, hm, fs[i].asked) + 1)
    ensures TargetDay(z, hm, fs[i + 1].asked) == TargetDay(z, hm, fs[i].asked) + 1
  {
    var lo := AdmissibleIsBanded(z, band, hm);
    NextTurnAdvances(z, lo, band, hm, fs[i], fs[i + 1]);
  }

  /** Inside the skipped hour nothing bounds the firings: any number of turns fits one instant. */
  lemma SkippedForceTimeHasNoBudget(west: nat, jump: nat, hm: int, n: nat) returns (fs: seq<Firing>)
    requires 0 <= hm < jump && hm < DAY
    ensures Admissible(JumpForwardAtMidnight(west, jump), jump)
    ensures LoopTurns(JumpForwardAtMidnight(west, jump), hm, fs) && |fs| == n
    ensures forall i | 0 <= i < n :: fs[i].asked == fs[i].fired == west - 1
  {
    JumpForwardAdmissible(west, jump);
    SkippedForceTimeFiresAtOnce(west, jump, hm, west - 1);
    fs := seq(n, i => Firing(west - 1, west - 1));
  }
}
