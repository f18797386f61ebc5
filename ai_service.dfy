/** The decision logic of server/services/aiService.js around its calls to the
    analytics service: the minimum history for training, the empty case of anomaly
    detection, the efficiency score and the way each wraps a failure. The HTTP
    calls and database reads arrive as parameters. */
module AiService {
  import opened Common
  import opened Http

  /** The outcome of a call to the analytics service or the database: a value, or a
      thrown error with its message and (possibly unset) status code. */
  datatype Outcome<T> = Done(value: T) | Threw(message: string, statusCode: Option<int>)

  /** `new ErrorResponse(prefix + error.message, error.statusCode || 500)`. */
  function Wrap(prefix: string, message: string, statusCode: Option<int>): (e: ErrorResponse)
    ensures e.message == prefix + message
    ensures e.statusCode == (if statusCode.Some? && statusCode.value != 0 then statusCode.value else ServerError)
  {
    ErrorResponse(prefix + message, if statusCode.Some? && statusCode.value != 0 then statusCode.value else ServerError)
  }

  const MinTrainingRecords := 100
  const TrainPrefix := "AI Service Error: "
  const InsufficientTraining := "Insufficient data for training. At least 100 data points are required."

  /** `trainModel`: `historyCount` is the number of records found (at most 1000), and
      `train` the service call with the model update that follows it. */
  function TrainModel<T>(historyCount: nat, train: Outcome<T>): (r: Result<T, ErrorResponse>)
    ensures historyCount < MinTrainingRecords ==>
      r == Err(ErrorResponse(TrainPrefix + InsufficientTraining, BadRequest))
    ensures historyCount >= MinTrainingRecords ==>
      (r.Ok? <==> train.Done?) && (r.Ok? ==> r.value == train.value)
    ensures r.Err? ==> StartsWith(r.error.message, TrainPrefix) && r.error.statusCode != 0
  {
    if historyCount < MinTrainingRecords then
      Err(Wrap(TrainPrefix, InsufficientTraining, Some(BadRequest)))
    else match train
      case Done(v) => Ok(v)
      case Threw(m, code) => Err(Wrap(TrainPrefix, m, code))
  }

  /** One anomaly the analytics service reports. */
  datatype ReportedAnomaly = ReportedAnomaly(dataPointId: string, score: real)

  const DetectPrefix := "Anomaly Detection Error: "

  /** `detectAnomalies`: with no consumption in the last seven days it returns an empty
      list without calling the service. */
  function DetectAnomalies(recentCount: nat, detect: Outcome<seq<ReportedAnomaly>>): (r: Result<seq<ReportedAnomaly>, ErrorResponse>)
    ensures recentCount == 0 ==> r == Ok([])
    ensures recentCount > 0 ==> (r.Ok? <==> detect.Done?) && (r.Ok? ==> r.value == detect.value)
    ensures r.Err? ==> StartsWith(r.error.message, DetectPrefix)
  {
    if recentCount == 0 then Ok([])
    else match detect
      case Done(v) => Ok(v)
      case Threw(m, code) => Err(Wrap(DetectPrefix, m, code))
  }

  /** The 30-day aggregate `calculateEfficiency` reads. */
  datatype ConsumptionStats = ConsumptionStats(avg: real, max: real, min: real, count: nat)

  /** The result of `calculateEfficiency`. A score of `None` is JavaScript's `NaN`. */
  datatype Efficiency =
    | Insufficient(score: Option<int>, message: string)
    | Scored(score: Option<int>, averageConsumption: real, dataPoints: nat)

  const BaseEfficiency := 80.0
  const MaxPenalty := 20.0
  const InsufficientEfficiency := "Insufficient data for efficiency calculation"
  const EfficiencyPrefix := "Efficiency Calculation Error: "

  /** The variability penalty as a JavaScript number: finite, minus infinity, or `NaN`. */
  datatype PenaltyValue = Finite(value: real) | MinusInfinity | NotANumber

  /** `Math.min(20, (max - min) / avg * 10)`. A zero average divides the spread into an
      infinity of its sign (plus infinity is capped at 20), or into `NaN` when the
      spread is zero too. */
  function Penalty(s: ConsumptionStats): (p: PenaltyValue)
    ensures p == NotANumber <==> s.avg == 0.0 && s.max == s.min
    ensures p == MinusInfinity <==> s.avg == 0.0 && s.max < s.min
    ensures p.Finite? ==> p.value <= MaxPenalty
    ensures s.avg > 0.0 && s.min <= s.max ==> p.Finite? && 0.0 <= p.value
  {
    if s.avg == 0.0 then
      if s.max > s.min then Finite(MaxPenalty)
      else if s.max == s.min then NotANumber
      else MinusInfinity
    else Finite(MinReal(MaxPenalty, (s.max - s.min) / s.avg * 10.0))
  }

  /** `Math.round(Math.max(0, Math.min(100, 80 - penalty)))`; `None` is `NaN`. */
  function ScoreFor(s: ConsumptionStats): (score: Option<int>)
    ensures score.None? <==> Penalty(s) == NotANumber
    ensures score.Some? ==> 60 <= score.value <= 100
  {
    match Penalty(s)
    case NotANumber => None
    case MinusInfinity => Some(100)
    case Finite(p) => Some(Round(MaxReal(0.0, MinReal(100.0, BaseEfficiency - p))))
  }

  /** `calculateEfficiency(deviceId)`; `stats` is `None` when the aggregation is empty. */
  function CalculateEfficiency(deviceFound: bool, stats: Option<ConsumptionStats>): (r: Result<Efficiency, ErrorResponse>)
    ensures !deviceFound ==> r == Err(ErrorResponse(EfficiencyPrefix + "Device not found", NotFound))
    ensures deviceFound && stats.None? ==> r == Ok(Insufficient(Some(0), InsufficientEfficiency))
    ensures deviceFound && stats.Some? ==>
      r.Ok? && r.value.Scored? && r.value.score == ScoreFor(stats.value)
      && r.value.averageConsumption == stats.value.avg && r.value.dataPoints == stats.value.count
  {
    if !deviceFound then Err(Wrap(EfficiencyPrefix, "Device not found", Some(NotFound)))
    else if stats.None? then Ok(Insufficient(Some(0), InsufficientEfficiency))
    else Ok(Scored(ScoreFor(stats.value), stats.value.avg, stats.value.count))
  }

  /** For a positive average the score lies between 60 and 80: the penalty is capped,
      and a constant series scores the full 80. */
  lemma ScoreRange(s: ConsumptionStats)
    requires s.avg > 0.0 && s.min <= s.max
    ensures ScoreFor(s).Some? && 60 <= ScoreFor(s).value <= 80
    ensures s.min == s.max ==> ScoreFor(s) == Some(80)
  {
  }

  /** More variability never raises the score. */
  lemma ScoreMonotone(s1: ConsumptionStats, s2: ConsumptionStats)
    requires s1.avg > 0.0 && s1.avg == s2.avg
    requires s1.min <= s1.max && s2.max - s2.min >= s1.max - s1.min
    ensures ScoreFor(s2).value <= ScoreFor(s1).value
  {
    var p1, p2 := Penalty(s1).value, Penalty(s2).value;
    DivideMonotone(s1.max - s1.min, s2.max - s2.min, s1.avg);
    assert p2 >= p1;
    RoundMonotone(MaxReal(0.0, MinReal(100.0, BaseEfficiency - p2)), MaxReal(0.0, MinReal(100.0, BaseEfficiency - p1)));
  }

  lemma DivideMonotone(x: real, y: real, d: real)
    requires x <= y && d > 0.0
    ensures x / d <= y / d
  {
    assert y / d - x / d == (y - x) / d;
  }

  lemma RoundMonotone(x: real, y: real)
    requires x <= y
    ensures Round(x) <= Round(y)
  {
  }
}
