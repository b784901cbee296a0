// The watering schedule of one plant: the interval, the early-watering
// guard and the update made by `markPlantWatered`
// (MainViewModel.markPlantWatered), kept apart from the store.

module Schedule {
  import opened Model
  import opened KotlinInt

  const MillisPerDay: int := 24 * 60 * 60 * 1000

  /** `wateringDays.takeIf { it > 0 } ?: 7`: a non-positive interval counts as the default week. */
  function EffectiveWateringDays(wateringDays: int): (d: int)
    ensures d >= 1
    ensures wateringDays > 0 ==> d == wateringDays
    ensures wateringDays <= 0 ==> d == DefaultWateringDays
  {
    if wateringDays > 0 then wateringDays else DefaultWateringDays
  }

  /**
   * The watering interval in milliseconds. This is the corrected computation
   * (no 32-bit wrap-around); `IntervalMillisInt32` is the one the source performs.
   */
  function IntervalMillis(days: int): (ms: int)
    requires days >= 1
    ensures ms >= MillisPerDay
    ensures ms % MillisPerDay == 0 && ms / MillisPerDay == days
  {
    days * MillisPerDay
  }

  /** The interval of a plant, after the default is applied. */
  function PlantInterval(p: Plant): (ms: int)
    ensures ms >= MillisPerDay
  {
    IntervalMillis(EffectiveWateringDays(p.wateringDays))
  }

  /**
   * The earliest moment a previously watered plant may be watered again: a
   * third of the interval, which is 8 hours per day of it, before the due date.
   */
  function Threshold(p: Plant): (t: int)
    ensures p.nextWateringDate - PlantInterval(p) < t < p.nextWateringDate
    ensures t == p.nextWateringDate - EffectiveWateringDays(p.wateringDays) * 28_800_000
  {
    var d := EffectiveWateringDays(p.wateringDays);
    assert PlantInterval(p) == 3 * (d * 28_800_000);
    p.nextWateringDate - PlantInterval(p) / 3
  }

  /**
   * The early-watering guard of `markPlantWatered`: it refuses exactly these
   * calls. It never refuses at or after the due date, and always refuses a
   * plant watered before a whole interval or more ahead of its due date.
   */
  predicate TooEarly(p: Plant, now: int)
    ensures TooEarly(p, now) ==> p.lastWatered.Some? && now < p.nextWateringDate
    ensures p.lastWatered.Some? && now <= p.nextWateringDate - PlantInterval(p) ==> TooEarly(p, now)
  {
    p.lastWatered.Some? && now < Threshold(p)
  }

  /** The copy of the plant that an accepted watering at `now` writes back. */
  function Watered(p: Plant, now: int): (r: Plant)
    ensures r.nextWateringDate == now + PlantInterval(p)
    ensures r.lastWatered == Some(now)
    ensures r.timesWatered == p.timesWatered + 1
    ensures r.(nextWateringDate := p.nextWateringDate, lastWatered := p.lastWatered,
               timesWatered := p.timesWatered) == p
  {
    p.(nextWateringDate := now + PlantInterval(p), lastWatered := Some(now),
       timesWatered := p.timesWatered + 1)
  }

  /** A plant that was never watered is accepted at any time. */
  lemma NeverWateredIsAccepted(p: Plant, now: int)
    requires p.lastWatered.None?
    ensures !TooEarly(p, now)
  {
  }

  /**
   * For a plant watered before, the guard refuses exactly the moments before
   * `nextWateringDate - (days * 86400000) / 3`: that moment itself is accepted.
   */
  lemma GuardBoundary(p: Plant, now: int)
    requires p.lastWatered.Some?
    ensures var d := EffectiveWateringDays(p.wateringDays);
      TooEarly(p, now) <==> now < p.nextWateringDate - (d * 86400000) / 3
  {
  }

  /**
   * After an accepted watering at `now`, the guard refuses exactly the moments
   * before two thirds of the new interval have passed.
   */
  lemma RewaterWindow(p: Plant, now: int, t: int)
    ensures var d := EffectiveWateringDays(p.wateringDays);
      var q := Watered(p, now);
      && PlantInterval(p) % 3 == 0
      && Threshold(q) == now + d * 57_600_000
      && (TooEarly(q, t) <==> t < now + 2 * (PlantInterval(p) / 3))
  {
    var d := EffectiveWateringDays(p.wateringDays);
    assert PlantInterval(p) == 3 * (d * 28_800_000);
  }

  /** Watering twice at the same moment: the second call is refused. */
  lemma NoDoubleWatering(p: Plant, now: int)
    ensures TooEarly(Watered(p, now), now)
  {
    RewaterWindow(p, now, now);
  }

  /**
   * An illustration of the guard with concrete numbers: a 7-day plant last
   * watered at t and due at t + 7 days is refused 3 days before it is due, and
   * accepted from 7 days / 3 = 2 days 8 hours (201,600,000 ms) before it is due.
   */
  lemma SevenDayExample(p: Plant, t: int)
    requires p.wateringDays == 7 && p.lastWatered == Some(t)
    requires p.nextWateringDate == t + 7 * MillisPerDay
    ensures TooEarly(p, t + 4 * MillisPerDay)
    ensures Threshold(p) == t + 7 * MillisPerDay - 201_600_000
    ensures !TooEarly(p, t + 7 * MillisPerDay - 201_600_000)
    ensures TooEarly(p, t + 7 * MillisPerDay - 201_600_000 - 1)
  {
  }

  // ---- the interval as the source computes it ----

  /** `wateringIntervalDays * 24 * 60 * 60 * 1000` evaluated in Kotlin `Int`, left to right. */
  function IntervalMillisInt32(days: int): (ms: int)
    ensures InIntRange(ms)
  {
    Mul32(Mul32(Mul32(Mul32(days, 24), 60), 60), 1000)
  }

  /** The as-written interval is the true product wrapped to 32 bits. */
  lemma Int32IntervalIsWrapped(days: int)
    ensures IntervalMillisInt32(days) == Wrap32(days * MillisPerDay)
  {
    MulWrapLeft(days * 24, 60);
    MulWrapLeft(days * 24 * 60, 60);
    MulWrapLeft(days * 24 * 60 * 60, 1000);
  }

  /** The as-written interval is right exactly when the interval is at most 24 days. */
  lemma Int32IntervalCorrectIff(days: int)
    requires 1 <= days <= IntMax
    ensures IntervalMillisInt32(days) == IntervalMillis(days) <==> days <= 24
  {
    Int32IntervalIsWrapped(days);
  }

  /** From 25 to 49 days the as-written interval is negative: the product wraps round once. */
  lemma Int32IntervalNegative(days: int)
    requires 25 <= days <= 49
    ensures IntervalMillisInt32(days) == days * MillisPerDay - TwoTo32
    ensures IntervalMillisInt32(days) < 0
  {
    Int32IntervalIsWrapped(days);
    WrapOnceAboveMax(days * MillisPerDay);
  }

  /** At 25 days the as-written product overflows to a negative number. */
  lemma Int32IntervalAt25Days()
    ensures IntervalMillisInt32(25) == -2_134_967_296
  {
    Int32IntervalIsWrapped(25);
  }

  /** `markPlantWatered`'s threshold as written (`Int` product, truncating `/`). */
  /**
   * Whatever the interval, the `Int` third is within `Int` range / 3, so the
   * as-written threshold is never more than about 8.3 days from the due date.
   */
  function ThresholdAsWritten(p: Plant): (t: int)
    ensures p.nextWateringDate - 715_827_882 <= t <= p.nextWateringDate + 715_827_882
  {
    p.nextWateringDate - TruncDiv(IntervalMillisInt32(EffectiveWateringDays(p.wateringDays)), 3)
  }

  /** `markPlantWatered`'s update as written. */
  function WateredAsWritten(p: Plant, now: int): (r: Plant)
    ensures now + IntMin <= r.nextWateringDate <= now + IntMax
    ensures r.lastWatered == Some(now) && r.timesWatered == p.timesWatered + 1
    ensures r.(nextWateringDate := p.nextWateringDate, lastWatered := p.lastWatered,
               timesWatered := p.timesWatered) == p
  {
    p.(nextWateringDate := now + IntervalMillisInt32(EffectiveWateringDays(p.wateringDays)),
       lastWatered := Some(now), timesWatered := p.timesWatered + 1)
  }

  /** Up to 24 days the as-written schedule is the corrected one. */
  lemma AsWrittenAgreesUpTo24Days(p: Plant, now: int)
    requires EffectiveWateringDays(p.wateringDays) <= 24
    ensures ThresholdAsWritten(p) == Threshold(p)
    ensures WateredAsWritten(p, now) == Watered(p, now)
  {
    Int32IntervalCorrectIff(EffectiveWateringDays(p.wateringDays));
  }

  /**
   * At 25 days the as-written update schedules the next watering about 24.7
   * days in the past, and the guard then never refuses a later watering.
   */
  lemma AsWrittenBreaksAt25Days(p: Plant, now: int, t: int)
    requires p.wateringDays == 25
    requires t >= now
    ensures WateredAsWritten(p, now).nextWateringDate < now
    ensures var q := WateredAsWritten(p, now); !(t < ThresholdAsWritten(q))
  {
    Int32IntervalAt25Days();
  }
}
