/** The Consumption document (server/models/Consumption.js): the pre-save defaults,
    the anomaly predicate, savings against a baseline, the grouping and time filter
    of `getStats`, and the threshold rule of `detectAnomalies`. Times are
    milliseconds since the epoch; the local calendar is a parameter. */
module ConsumptionModel {
  import opened Common

  datatype ReviewStatus = Pending | Confirmed | FalsePositive | Ignored | Resolved

  /** The stored spelling of each review status. */
  function StatusName(s: ReviewStatus): string
  {
    match s
    case Pending => "pending"
    case Confirmed => "confirmed"
    case FalsePositive => "false_positive"
    case Ignored => "ignored"
    case Resolved => "resolved"
  }

  datatype Review = Review(status: ReviewStatus)

  /** The `anomaly` sub-document: `detected` may be unset, `reviewed` may be absent. */
  datatype Anomaly = Anomaly(detected: Option<bool>, reviewed: Option<Review>)

  /** What a `Date` reports in local time: `getMonth()` counts from 0, `getDay()` is 0 on Sunday. */
  datatype DateParts = DateParts(fullYear: int, monthIndex: int, date: int, hours: int, minutes: int, day: int)

  /** The derived `time` fields. */
  datatype TimeFields = TimeFields(year: int, month: int, day: int, hour: int, minute: int,
                                   dayOfWeek: int, isWeekend: bool, hourOfDay: int)

  /** The derived time fields of a date. */
  function TimeFieldsOf(p: DateParts): (t: TimeFields)
    ensures t.month == p.monthIndex + 1 && t.year == p.fullYear && t.day == p.date
    ensures t.isWeekend <==> p.day == 0 || p.day == 6
    ensures t.hourOfDay == t.hour == p.hours && t.dayOfWeek == p.day
  {
    TimeFields(p.fullYear, p.monthIndex + 1, p.date, p.hours, p.minutes, p.day,
               p.day in {0, 6}, p.hours)
  }

  /** For a well-formed date the month lands in 1..12, and exactly Saturday and Sunday
      are weekend days. */
  lemma TimeFieldsRanges(p: DateParts)
    requires 0 <= p.monthIndex < 12 && 0 <= p.day < 7
    ensures 1 <= TimeFieldsOf(p).month <= 12
    ensures TimeFieldsOf(p).isWeekend <==> !(1 <= p.day <= 5)
  {
  }

  /** `isAnomalyDetected()` as written: it compares the review status with
      'false_negative', a value the status enumeration does not contain. */
  predicate IsAnomalyDetectedAsWritten(a: Anomaly)
  {
    a.detected == Some(true) && (a.reviewed.None? || StatusName(a.reviewed.value.status) != "false_negative")
  }

  /** The comparison can never fail, so a record that a reviewer dismissed as a false
      positive is still reported as an anomaly. */
  lemma AsWrittenIgnoresReview(a: Anomaly)
    ensures IsAnomalyDetectedAsWritten(a) <==> a.detected == Some(true)
    ensures a == Anomaly(Some(true), Some(Review(FalsePositive))) ==> IsAnomalyDetectedAsWritten(a)
  {
    if a.reviewed.Some? {
      var name := StatusName(a.reviewed.value.status);
      if a.reviewed.value.status == FalsePositive {
        assert name[6] != "false_negative"[6];
      } else {
        assert |name| != |"false_negative"|;
      }
    }
  }

  /** `isAnomalyDetected()` as intended: detected, and not dismissed as a false positive. */
  predicate IsAnomalyDetected(a: Anomaly)
  {
    a.detected == Some(true) && (a.reviewed.None? || a.reviewed.value.status != FalsePositive)
  }

  /** The intended predicate drops exactly the records reviewed as false positives. */
  lemma AnomalyDetectedExact(a: Anomaly)
    ensures IsAnomalyDetected(a) ==> IsAnomalyDetectedAsWritten(a)
    ensures IsAnomalyDetectedAsWritten(a) && !IsAnomalyDetected(a) <==>
      a.detected == Some(true) && a.reviewed == Some(Review(FalsePositive))
  {
    AsWrittenIgnoresReview(a);
  }

  /** The cost of `value` units at `rate` per unit. */
  function CostOf(value: real, rate: real): real
  {
    value * rate
  }

  /** A consumption record; the pre-save hook fills its derived fields in place. */
  class Consumption {
    var timestamp: Option<int>
    var time: Option<TimeFields>
    var value: real
    var costAmount: Option<real>
    var costRate: Option<real>
    var anomaly: Anomaly

    constructor (timestamp: Option<int>, value: real, costAmount: Option<real>, costRate: Option<real>, anomaly: Anomaly)
      ensures this.timestamp == timestamp && time == None && this.value == value
      ensures this.costAmount == costAmount && this.costRate == costRate && this.anomaly == anomaly
    {
      this.timestamp, time, this.value := timestamp, None, value;
      this.costAmount, this.costRate, this.anomaly := costAmount, costRate, anomaly;
    }

    /** The pre-save hook. `localParts` is the local calendar; `now` stands for `new Date()`.
        The branch for a missing timestamp is kept as the hook writes it, but on `save()`
        it is not reached: `time.timestamp` is required, and validation runs before the
        pre-save hooks, so a document without one is rejected first. */
    method PreSave(timestampModified: bool, now: int, localParts: int -> DateParts)
      modifies this
      ensures value == old(value) && costRate == old(costRate)
      ensures timestampModified || old(timestamp).None? ==>
        var date := Override(old(timestamp), now);
        timestamp == Some(date) && time == Some(TimeFieldsOf(localParts(date)))
      ensures !(timestampModified || old(timestamp).None?) ==> timestamp == old(timestamp) && time == old(time)
      ensures costAmount == (if old(costRate).Some? && old(costAmount).None?
                             then Some(CostOf(old(value), old(costRate).value)) else old(costAmount))
      ensures anomaly.detected == old(anomaly.detected)
      ensures anomaly.reviewed == (if old(anomaly.detected) == Some(true) && old(anomaly.reviewed).None?
                                   then Some(Review(Pending)) else old(anomaly.reviewed))
    {
      if timestampModified || timestamp.None? {
        var date := Override(timestamp, now);
        timestamp := Some(date);
        time := Some(TimeFieldsOf(localParts(date)));
      }
      if costRate.Some? && costAmount.None? {
        costAmount := Some(CostOf(value, costRate.value));
      }
      if anomaly.detected == Some(true) && anomaly.reviewed.None? {
        anomaly := anomaly.(reviewed := Some(Review(Pending)));
      }
    }
  }

  /** The object `calculateSavings` returns. `percentage` is `None` where JavaScript
      produces `Infinity` (a zero baseline); `energySaved` and `unit` are absent on the
      no-savings branch. */
  datatype Savings = Savings(amount: real, percentage: Option<real>, currency: string,
                             energySaved: Option<real>, unit: Option<string>)

  const DefaultCurrency := "USD"

  /** `rate || this.cost.rate || 0`. */
  function EffectiveRate(rate: Option<real>, costRate: Option<real>): (r: real)
    ensures TruthyNum(rate) ==> r == rate.value
    ensures !TruthyNum(rate) && TruthyNum(costRate) ==> r == costRate.value
    ensures !TruthyNum(rate) && !TruthyNum(costRate) ==> r == 0.0
  {
    if TruthyNum(rate) then rate.value else if TruthyNum(costRate) then costRate.value else 0.0
  }

  /** `calculateSavings(baselineConsumption, rate)` for a record of `value` in `unit`. */
  function CalculateSavings(value: real, unit: string, costRate: Option<real>, currency: Option<string>,
                            baseline: real, rate: Option<real>): (s: Savings)
    ensures s.currency == (if TruthyStr(currency) then currency.value else DefaultCurrency)
    ensures value <= baseline ==>
      s.amount == 0.0 && s.percentage == Some(0.0) && s.energySaved.None? && s.unit.None?
    ensures value > baseline ==>
      s.energySaved == Some(value - baseline) && s.unit == Some(unit)
      && s.amount == s.energySaved.value * EffectiveRate(rate, costRate)
      && (s.percentage.None? <==> baseline == 0.0)
      && (baseline != 0.0 ==> s.percentage.value * baseline == (value - baseline) * 100.0)
  {
    var cur := if TruthyStr(currency) then currency.value else DefaultCurrency;
    if value <= baseline then Savings(0.0, Some(0.0), cur, None, None)
    else
      var diff := value - baseline;
      var pct := if baseline == 0.0 then None else Some(diff / baseline * 100.0);
      Savings(diff * EffectiveRate(rate, costRate), pct, cur, Some(diff), Some(unit))
  }

  /** With a positive baseline and a non-negative rate, the savings are never negative,
      and the percentage is positive exactly when consumption is above the baseline. */
  lemma SavingsSigns(value: real, unit: string, costRate: Option<real>, currency: Option<string>,
                     baseline: real, rate: Option<real>)
    requires baseline > 0.0
    requires rate.Some? ==> rate.value >= 0.0
    requires costRate.Some? ==> costRate.value >= 0.0
    ensures var s := CalculateSavings(value, unit, costRate, currency, baseline, rate);
      s.amount >= 0.0 && s.percentage.Some? && (s.percentage.value > 0.0 <==> value > baseline)
  {
    var s := CalculateSavings(value, unit, costRate, currency, baseline, rate);
    if value > baseline {
      assert s.percentage.value * baseline == (value - baseline) * 100.0;
    }
  }

  /** The `groupBy` choices of `getStats`. */
  datatype Grouping = ByHour | ByDay | ByWeek | ByMonth | ByYear

  /** The `groupBy` switch: unknown or missing values fall back to day. */
  function GroupingFor(groupBy: Option<string>): (g: Grouping)
    ensures groupBy == Some("hour") <==> g == ByHour
    ensures groupBy == Some("week") <==> g == ByWeek
    ensures groupBy == Some("month") <==> g == ByMonth
    ensures groupBy == Some("year") <==> g == ByYear
    ensures g == ByDay <==> groupBy !in {Some("hour"), Some("week"), Some("month"), Some("year")}
  {
    if groupBy.None? then ByDay
    else match groupBy.value
      case "hour" => ByHour
      case "week" => ByWeek
      case "month" => ByMonth
      case "year" => ByYear
      case _ => ByDay
  }

  /** A record's group in `getStats`: the time fields the grouping keeps, most
      significant first. Weeks use the ISO week-year and week number. */
  function GroupKey(g: Grouping, t: TimeFields, isoWeekYear: int, isoWeek: int): (r: seq<int>)
    ensures |r| == 4 <==> g == ByHour
    ensures |r| == 3 <==> g == ByDay
    ensures |r| == 2 <==> g == ByWeek || g == ByMonth
    ensures |r| == 1 <==> g == ByYear
    ensures g == ByWeek ==> r == [isoWeekYear, isoWeek]
    ensures g != ByWeek ==> r[0] == t.year && (|r| >= 2 ==> r[1] == t.month)
  {
    match g
    case ByHour => [t.year, t.month, t.day, t.hour]
    case ByDay => [t.year, t.month, t.day]
    case ByWeek => [isoWeekYear, isoWeek]
    case ByMonth => [t.year, t.month]
    case ByYear => [t.year]
  }

  /** Apart from weeks, which follow the ISO calendar, each coarser key is a prefix of
      the next finer one, so readings grouped together by hour are grouped together by
      day, by day together by month, and by month together by year. */
  lemma GroupKeysRefine(t1: TimeFields, t2: TimeFields, wy: int, w: int)
    ensures GroupKey(ByDay, t1, wy, w) == GroupKey(ByHour, t1, wy, w)[..3]
    ensures GroupKey(ByMonth, t1, wy, w) == GroupKey(ByDay, t1, wy, w)[..2]
    ensures GroupKey(ByYear, t1, wy, w) == GroupKey(ByMonth, t1, wy, w)[..1]
    ensures GroupKey(ByHour, t1, wy, w) == GroupKey(ByHour, t2, wy, w) ==> GroupKey(ByDay, t1, wy, w) == GroupKey(ByDay, t2, wy, w)
    ensures GroupKey(ByDay, t1, wy, w) == GroupKey(ByDay, t2, wy, w) ==> GroupKey(ByMonth, t1, wy, w) == GroupKey(ByMonth, t2, wy, w)
    ensures GroupKey(ByMonth, t1, wy, w) == GroupKey(ByMonth, t2, wy, w) ==> GroupKey(ByYear, t1, wy, w) == GroupKey(ByYear, t2, wy, w)
  {
    var h1, h2 := GroupKey(ByHour, t1, wy, w), GroupKey(ByHour, t2, wy, w);
    if h1 == h2 {
      assert h1[0] == h2[0] && h1[1] == h2[1] && h1[2] == h2[2];
    }
    var d1, d2 := GroupKey(ByDay, t1, wy, w), GroupKey(ByDay, t2, wy, w);
    if d1 == d2 {
      assert d1[0] == d2[0] && d1[1] == d2[1];
    }
  }

  /** The `time.timestamp` condition of `getStats`: absent when neither bound is given. */
  datatype TimeRange = TimeRange(from: Option<int>, to: Option<int>)

  function TimeFilter(startDate: Option<int>, endDate: Option<int>): (r: Option<TimeRange>)
    ensures r.None? <==> startDate.None? && endDate.None?
    ensures r.Some? ==> r.value.from == startDate && r.value.to == endDate
  {
    if startDate.None? && endDate.None? then None else Some(TimeRange(startDate, endDate))
  }

  predicate InFilter(r: Option<TimeRange>, t: int)
  {
    r.None? || ((r.value.from.None? || r.value.from.value <= t) && (r.value.to.None? || t <= r.value.to.value))
  }

  /** Without bounds every record matches; with bounds exactly the records inside them. */
  lemma TimeFilterExact(startDate: Option<int>, endDate: Option<int>, t: int)
    ensures InFilter(TimeFilter(startDate, endDate), t) <==>
      (startDate.None? || startDate.value <= t) && (endDate.None? || t <= endDate.value)
  {
  }

  /** The result of the `$group` stage over the matching records. */
  datatype Aggregate = Aggregate(avg: real, stdDev: real, count: nat)

  /** A matching record as `detectAnomalies` reads it. */
  datatype Reading = Reading(id: string, value: real, detected: Option<bool>)

  /** The `$set` each flagged record receives. `score` is `None` where JavaScript
      divides by a zero standard deviation. */
  datatype AnomalyUpdate = AnomalyUpdate(id: string, score: Option<real>, confidence: real,
                                         expectedValue: real, deviation: real, status: ReviewStatus)

  const MinRecords := 10
  const DefaultThreshold := 2.5
  const DefaultMinConfidence := 0.7

  function ThresholdValue(a: Aggregate, threshold: real): real
  {
    a.avg + a.stdDev * threshold
  }

  /** Whether a record is a new anomaly for the given cut-off. */
  predicate Exceeds(cutoff: real, r: Reading)
  {
    r.value > cutoff && r.detected != Some(true)
  }

  /** The records `detectAnomalies` returns: none below ten records, otherwise the
      not-yet-flagged records above avg + stdDev * threshold, in query order. */
  function DetectAnomalies(stats: Option<Aggregate>, records: seq<Reading>, threshold: Option<real>): (r: seq<Reading>)
    ensures stats.None? || stats.value.count < MinRecords ==> r == []
    ensures stats.Some? && stats.value.count >= MinRecords ==>
      var cutoff := ThresholdValue(stats.value, Override(threshold, DefaultThreshold));
      (forall x :: x in r <==> x in records && x.value > cutoff && x.detected != Some(true))
      && |r| <= |records|
  {
    if stats.None? || stats.value.count < MinRecords then []
    else
      var cutoff := ThresholdValue(stats.value, Override(threshold, DefaultThreshold));
      KeepWhere(records, (x: Reading) => Exceeds(cutoff, x))
  }

  /** The query keeps the records' order: with enough records, detection distributes
      over concatenation, and a single record is returned exactly when it is a new
      reading above the cut-off. */
  lemma DetectionKeepsOrder(a: Aggregate, xs: seq<Reading>, ys: seq<Reading>, x: Reading, threshold: Option<real>)
    requires a.count >= MinRecords
    ensures DetectAnomalies(Some(a), xs + ys, threshold)
            == DetectAnomalies(Some(a), xs, threshold) + DetectAnomalies(Some(a), ys, threshold)
    ensures DetectAnomalies(Some(a), [x], threshold)
            == if Exceeds(ThresholdValue(a, Override(threshold, DefaultThreshold)), x) then [x] else []
  {
    var cutoff := ThresholdValue(a, Override(threshold, DefaultThreshold));
    var p := (r: Reading) => Exceeds(cutoff, r);
    KeepWhereAppend(xs, ys, p);
    KeepWhereSingleton(x, p);
  }

  /** The update written for one flagged record. */
  function UpdateFor(a: Aggregate, cutoff: real, minConfidence: real, r: Reading): (u: AnomalyUpdate)
    ensures u.id == r.id && u.status == Pending && u.confidence == minConfidence
    ensures u.expectedValue == a.avg && u.deviation == r.value - a.avg
    ensures u.score.Some? <==> a.stdDev != 0.0
    ensures a.stdDev > 0.0 && r.value > cutoff ==> u.score.value > 0.0
  {
    var score := if a.stdDev == 0.0 then None else Some((r.value - cutoff) / a.stdDev);
    AnomalyUpdate(r.id, score, minConfidence, a.avg, r.value - a.avg, Pending)
  }

  /** The bulk write: one update per returned record, in the same order. */
  function AnomalyUpdates(stats: Option<Aggregate>, records: seq<Reading>, threshold: Option<real>,
                          minConfidence: Option<real>): (us: seq<AnomalyUpdate>)
    ensures var found := DetectAnomalies(stats, records, threshold);
      |us| == |found| && forall k :: 0 <= k < |us| ==> us[k].id == found[k].id && us[k].status == Pending
  {
    var found := DetectAnomalies(stats, records, threshold);
    if found == [] then []
    else
      var cutoff := ThresholdValue(stats.value, Override(threshold, DefaultThreshold));
      UpdatesFor(stats.value, cutoff, Override(minConfidence, DefaultMinConfidence), found)
  }

  function UpdatesFor(a: Aggregate, cutoff: real, minConfidence: real, found: seq<Reading>): (us: seq<AnomalyUpdate>)
    ensures |us| == |found|
    ensures forall k :: 0 <= k < |us| ==> us[k] == UpdateFor(a, cutoff, minConfidence, found[k])
  {
    if found == [] then []
    else [UpdateFor(a, cutoff, minConfidence, found[0])] + UpdatesFor(a, cutoff, minConfidence, found[1..])
  }

  /** With a positive spread every update's score is positive, since every returned
      record lies above the cut-off. */
  lemma UpdateScoresPositive(stats: Option<Aggregate>, records: seq<Reading>, threshold: Option<real>,
                             minConfidence: Option<real>)
    requires stats.Some? && stats.value.stdDev > 0.0
    ensures var us := AnomalyUpdates(stats, records, threshold, minConfidence);
      forall k :: 0 <= k < |us| ==> us[k].score.Some? && us[k].score.value > 0.0
  {
    var found := DetectAnomalies(stats, records, threshold);
    if found != [] {
      var cutoff := ThresholdValue(stats.value, Override(threshold, DefaultThreshold));
      assert forall k :: 0 <= k < |found| ==> found[k] in found;
      assert forall k :: 0 <= k < |found| ==> found[k].value > cutoff;
    }
  }
}
