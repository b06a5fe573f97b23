/** Distance units: conversion, rounding and publication (internal/bluelink/parse_ccs2.go,
    internal/bluelink/model.go). Values are exact rationals. */
module Distances {
  import opened Wrappers
  import opened VehicleModel

  const KM_PER_MILE: real := 1.609344

  function ConvertDistance(value: real, from: string, to: string): real {
    if from == to || from == "" || to == "" then value
    else if from == "km" && to == "mi" then value / KM_PER_MILE
    else if from == "mi" && to == "km" then value * KM_PER_MILE
    else value
  }

  /** math.Round: to the nearest integer, halves away from zero. */
  function Round(x: real): int {
    if x >= 0.0 then (x + 0.5).Floor else -((-x + 0.5).Floor)
  }

  function OneDecimal(x: real): real {
    Round(x * 10.0) as real / 10.0
  }

  function ConvertDistanceField(value: Option<real>, from: string, to: string): (Option<real>, string) {
    if value.None? || from == "" || from == to then (value, from)
    else (Some(OneDecimal(ConvertDistance(value.value, from, to))), to)
  }

  function InDistanceUnit(s: VehicleState, unit: string): VehicleState {
    if unit == "" then s
    else
      var odometer := ConvertDistanceField(s.odometer, s.odometerUnit, unit);
      var range := ConvertDistanceField(s.evRange, s.evRangeUnit, unit);
      s.(odometer := odometer.0, odometerUnit := odometer.1, evRange := range.0, evRangeUnit := range.1)
  }

  /** The unit Home Assistant is told for Range and Odometer: km when none is configured. */
  function DiscoveryUnit(unit: string): string {
    if unit == "" then "km" else unit
  }

  // ---------------------------------------------------------------------------
  // Rounding
  // ---------------------------------------------------------------------------

  lemma RoundWithinHalf(x: real)
    ensures -0.5 <= Round(x) as real - x <= 0.5
  {
  }

  /** Halves are rounded away from zero, on both sides. */
  lemma HalvesRoundAway(n: nat)
    ensures Round(n as real + 0.5) == n + 1 && Round(-(n as real) - 0.5) == 0 - n - 1
  {
  }

  lemma RoundMonotone(x: real, y: real)
    requires x <= y
    ensures Round(x) <= Round(y)
  {
    RoundWithinHalf(x);
    RoundWithinHalf(y);
  }

  /** Whatever is less than half a unit away from an integer rounds to it. */
  lemma RoundsTo(x: real, n: int)
    requires -0.5 < x - n as real < 0.5
    ensures Round(x) == n
  {
    RoundWithinHalf(x);
  }

  // ---------------------------------------------------------------------------
  // Known units: what a distance means
  // ---------------------------------------------------------------------------

  predicate Known(unit: string) {
    unit == "km" || unit == "mi"
  }

  /** The length a reading stands for, in kilometres. */
  function Kilometres(value: real, unit: string): real
    requires Known(unit)
  {
    if unit == "km" then value else value * 1.609344
  }

  /** The published reading stands for the same length as the reported one, up to 0.05 of the
      published unit, carries the published unit, and publishing it again changes nothing. */
  lemma PublishedReadingIsFaithful(value: real, from: string, to: string)
    requires Known(from) && Known(to)
    ensures var (published, unit) := ConvertDistanceField(Some(value), from, to);
            && published.Some? && unit == to
            && -Kilometres(0.05, to) <= Kilometres(published.value, to) - Kilometres(value, from) <= Kilometres(0.05, to)
            && ConvertDistanceField(published, unit, to) == (published, unit)
  {
    var converted := ConvertDistance(value, from, to);
    RoundWithinHalf(converted * 10.0);
    assert Kilometres(converted, to) == Kilometres(value, from);
  }

  lemma PublishedReadingsAreMonotone(value: real, larger: real, from: string, to: string)
    requires value <= larger
    ensures ConvertDistanceField(Some(value), from, to).0.value <= ConvertDistanceField(Some(larger), from, to).0.value
  {
    var x, y := ConvertDistance(value, from, to), ConvertDistance(larger, from, to);
    assert x <= y;
    RoundMonotone(x * 10.0, y * 10.0);
  }

  /** Miles with one decimal survive the trip to kilometres and back. */
  lemma MilesRoundTrip(tenths: int)
    ensures var miles := tenths as real / 10.0;
            var (km, unit) := ConvertDistanceField(Some(miles), "mi", "km");
            ConvertDistanceField(km, unit, "mi") == (Some(miles), "mi")
  {
    var miles := tenths as real / 10.0;
    var km := OneDecimal(miles * KM_PER_MILE);
    RoundWithinHalf(miles * KM_PER_MILE * 10.0);
    RoundsTo(km / KM_PER_MILE * 10.0, tenths);
  }

  /** Tenths of a unit from one unit to another, as published. */
  function Converted(tenths: int, from: string, to: string): (Option<real>, string) {
    ConvertDistanceField(Some(tenths as real / 10.0), from, to)
  }

  /** Published in miles and then in kilometres again, the reading comes back. */
  predicate SurvivesMiles(tenths: int) {
    var (miles, unit) := Converted(tenths, "km", "mi");
    ConvertDistanceField(miles, unit, "km") == (Some(tenths as real / 10.0), "km")
  }

  /** The reading is what `m` tenths of a mile are published as. */
  predicate PublishedFromMiles(tenths: int, m: int) {
    Converted(m, "mi", "km") == (Some(tenths as real / 10.0), "km")
  }

  /** Kilometres with one decimal survive the trip to miles and back exactly when they are what
      some reading in miles with one decimal is published as. */
  lemma KilometresRoundTripIff(tenths: int)
    ensures SurvivesMiles(tenths) <==> exists m: int :: PublishedFromMiles(tenths, m)
  {
    var m := Round(tenths as real / 10.0 / KM_PER_MILE * 10.0);
    assert Converted(tenths, "km", "mi") == (Some(m as real / 10.0), "mi");
    assert SurvivesMiles(tenths) <==> PublishedFromMiles(tenths, m);
    forall n: int | PublishedFromMiles(tenths, n)
      ensures SurvivesMiles(tenths)
    {
      MilesRoundTrip(n);
    }
  }

  /** Not all of them do: 0.4 km comes back as 0.3 km. */
  lemma FourTenthsDoNotRoundTrip()
    ensures Converted(4, "km", "mi") == (Some(0.2), "mi") && Converted(2, "mi", "km") == (Some(0.3), "km")
    ensures !SurvivesMiles(4) && forall m: int :: !PublishedFromMiles(4, m)
  {
    RoundsTo(0.4 / KM_PER_MILE * 10.0, 2);
    RoundsTo(0.2 * KM_PER_MILE * 10.0, 3);
    KilometresRoundTripIff(4);
  }

  /** Converting never relabels a reading it could not convert, exactly when the source unit is
      empty, known, or already the target: any other unit name is stamped with the target unit
      although the value was only rounded. */
  lemma RelabelledWithoutConversionIff(value: real, from: string, to: string)
    requires Known(to)
    ensures (from != to && ConvertDistanceField(Some(value), from, to) == (Some(OneDecimal(value)), to)
              && forall x: real :: ConvertDistance(x, from, to) == x)
            <==> !(from == "" || Known(from))
  {
    if Known(from) && from != to {
      assert ConvertDistance(1.0, from, to) != 1.0;
    }
  }

  // ---------------------------------------------------------------------------
  // Whole snapshots
  // ---------------------------------------------------------------------------

  /** A distance as a parser leaves it: in a known unit, or with the unit unknown. */
  predicate Parsed(value: Option<real>, unit: string) {
    unit == "" || Known(unit)
  }

  ghost predicate AgreesWithLabel(value: Option<real>, unit: string, shown: string) {
    value.Some? && unit != "" ==> unit == shown
  }

  /** For a state with parsed distances the published units match the discovery labels for every
      configured unit except none: with no unit configured a reading in miles is published as it
      is under a label saying km. */
  lemma PublishedUnitsMatchLabels(unit: string)
    requires unit == "" || Known(unit)
    ensures (forall s: VehicleState | Parsed(s.odometer, s.odometerUnit) && Parsed(s.evRange, s.evRangeUnit) ::
               && AgreesWithLabel(InDistanceUnit(s, unit).odometer, InDistanceUnit(s, unit).odometerUnit, DiscoveryUnit(unit))
               && AgreesWithLabel(InDistanceUnit(s, unit).evRange, InDistanceUnit(s, unit).evRangeUnit, DiscoveryUnit(unit)))
            <==> unit != ""
    ensures DiscoveryUnit(unit) == if unit == "km" || unit == "mi" then unit else "km"
  {
    if unit == "" {
      var s := ZERO.(evRange := Some(100.0), evRangeUnit := "mi");
      assert Parsed(s.odometer, s.odometerUnit) && Parsed(s.evRange, s.evRangeUnit);
      assert !AgreesWithLabel(InDistanceUnit(s, unit).evRange, InDistanceUnit(s, unit).evRangeUnit, DiscoveryUnit(unit));
    }
  }

  /** Everything but the two distances is untouched, a distance of unknown unit included, and
      publishing twice is publishing once. */
  lemma InDistanceUnitFrame(s: VehicleState, unit: string)
    ensures InDistanceUnit(InDistanceUnit(s, unit), unit) == InDistanceUnit(s, unit)
    ensures InDistanceUnit(s, unit).(odometer := s.odometer, odometerUnit := s.odometerUnit,
                                     evRange := s.evRange, evRangeUnit := s.evRangeUnit) == s
    ensures var p := InDistanceUnit(s, unit);
            && (s.odometerUnit == "" ==> p.odometer == s.odometer && p.odometerUnit == "")
            && (s.evRangeUnit == "" ==> p.evRange == s.evRange && p.evRangeUnit == "")
  {
  }

  // ---------------------------------------------------------------------------
  // What a publication has to say
  // ---------------------------------------------------------------------------

  /** A distance is published in the unit of its label, and stands for the length that was read up
      to 0.05 of that unit; one of unknown unit is published as it was read. */
  ghost predicate PublishedRightly(value: Option<real>, unit: string, published: Option<real>, shown: string,
                                   configured: string)
    requires Known(configured)
  {
    && (value.None? <==> published.None?)
    && (unit == "" ==> published == value && shown == "")
    && (value.Some? && unit != "" ==>
      && Known(unit) && shown == configured
      && -Kilometres(0.05, configured) <= Kilometres(published.value, configured) - Kilometres(value.value, unit)
      && Kilometres(published.value, configured) - Kilometres(value.value, unit) <= Kilometres(0.05, configured))
  }

  lemma ConvertedRightly(value: Option<real>, unit: string, configured: string)
    requires Known(configured) && Parsed(value, unit)
    ensures var (published, shown) := ConvertDistanceField(value, unit, configured);
            PublishedRightly(value, unit, published, shown, configured)
  {
    if value.Some? && unit != "" {
      PublishedReadingIsFaithful(value.value, unit, configured);
    }
  }

  predicate UnitsParsed(s: VehicleState) {
    Parsed(s.odometer, s.odometerUnit) && Parsed(s.evRange, s.evRangeUnit)
  }

  predicate Configurable(unit: string) {
    unit == "" || Known(unit)
  }

  /** The document says what the state says: its distances rightly in the configured unit, or as they
      are with none configured, and everything else unchanged. */
  ghost predicate SaysTheSame(doc: VehicleState, s: VehicleState, configured: string)
    requires Configurable(configured)
  {
    && (configured == "" ==> doc == s)
    && (configured != "" ==>
      && PublishedRightly(s.odometer, s.odometerUnit, doc.odometer, doc.odometerUnit, configured)
      && PublishedRightly(s.evRange, s.evRangeUnit, doc.evRange, doc.evRangeUnit, configured)
      && doc.(odometer := s.odometer, odometerUnit := s.odometerUnit,
              evRange := s.evRange, evRangeUnit := s.evRangeUnit) == s)
  }

  lemma ConvertedStateSaysTheSame(s: VehicleState, configured: string)
    requires Configurable(configured) && UnitsParsed(s)
    ensures SaysTheSame(InDistanceUnit(s, configured), s, configured)
  {
    if configured != "" {
      ConvertedRightly(s.odometer, s.odometerUnit, configured);
      ConvertedRightly(s.evRange, s.evRangeUnit, configured);
    }
  }
}
