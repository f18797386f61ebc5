/** The two endpoints of the Python analysis service (server/ai/main.py):
    `/predict` (ARIMA forecast with generated future timestamps) and
    `/detect-anomalies` (IsolationForest outlier labels turned into timestamps).

    The statistical fits are library calls; here they are parameters: `arima`
    stands for fitting ARIMA(1,1,1) to the sorted values and forecasting, and
    `detector` for fitting IsolationForest and labelling every value. Timestamp
    parsing (`pd.to_datetime`) is the parameter `parse`, yielding seconds since the
    epoch, and the pandas calendar generator used for other frequencies is `calendar`. */
module AiShim {
  import opened Common

  /** One observation as the client sends it. */
  datatype DataPoint = DataPoint(timestamp: string, value: real)

  /** An observation whose timestamp was parsed to seconds since the epoch. */
  datatype Observation = Observation(time: int, value: real)

  /** One forecast point of the `/predict` response. */
  datatype Prediction = Prediction(timestamp: int, value: real)

  /** What fitting ARIMA(1,1,1) and forecasting produce, or the message of the exception raised. */
  datatype ArimaOutcome = ArimaFailed(message: string) | Forecast(values: seq<real>, summary: string)

  /** What fitting IsolationForest and predicting produce: one label per value
      (-1 for an outlier, 1 for an inlier), or the message of the exception raised. */
  datatype DetectorOutcome = DetectorFailed(message: string) | Labels(labels: seq<int>)

  datatype PredictResponse = PredictResponse(predictions: seq<Prediction>, modelSummary: string)

  datatype AnomalyResponse = AnomalyResponse(anomalyTimestamps: seq<string>, totalAnomalies: nat)

  /** The `HTTPException` both handlers raise: a status and the exception text. */
  datatype HttpError = HttpError(status: int, detail: string)

  const SecondsPerDay := 86400
  const SecondsPerHour := 3600
  const ServerError := 500
  /** The text of the `KeyError` pandas raises when an empty `data` list has no 'timestamp' column. */
  const MissingTimestampColumn := "'timestamp'"
  const IndexOutOfRange := "list index out of range"

  // ---------------------------------------------------------------------------
  // Parsing and ordering of the input series

  /** Parse every timestamp; the first one that does not parse raises. */
  function ParseAll(data: seq<DataPoint>, parse: string -> Result<int, string>): (r: Result<seq<Observation>, string>)
    ensures r.Ok? ==> |r.value| == |data|
    ensures r.Ok? ==> forall i :: 0 <= i < |data| ==>
      parse(data[i].timestamp) == Ok(r.value[i].time) && r.value[i].value == data[i].value
    ensures r.Ok? <==> forall i :: 0 <= i < |data| ==> parse(data[i].timestamp).Ok?
    ensures r.Err? ==> exists i :: 0 <= i < |data| && parse(data[i].timestamp) == Err(r.error)
                                   && forall j :: 0 <= j < i ==> parse(data[j].timestamp).Ok?
  {
    if data == [] then Ok([])
    else match ParseAll(data[..|data| - 1], parse)
      case Err(m) => Err(m)
      case Ok(prefix) =>
        match parse(data[|data| - 1].timestamp)
        case Err(m) => Err(m)
        case Ok(t) => Ok(prefix + [Observation(t, data[|data| - 1].value)])
  }

  predicate SortedByTime(s: seq<Observation>)
  {
    forall i, j :: 0 <= i < j < |s| ==> s[i].time <= s[j].time
  }

  /** Insert `x` into a series after every observation with the same or an earlier time. */
  function Insert(x: Observation, s: seq<Observation>): (r: seq<Observation>)
    ensures |r| == |s| + 1
  {
    if s == [] then [x]
    else if x.time < s[0].time then [x] + s
    else [s[0]] + Insert(x, s[1..])
  }

  lemma {:induction false} InsertKeepsElements(x: Observation, s: seq<Observation>)
    ensures multiset(Insert(x, s)) == multiset(s) + multiset{x}
  {
    if s != [] && x.time >= s[0].time {
      InsertKeepsElements(x, s[1..]);
      assert s == [s[0]] + s[1..];
    }
  }

  /** The first element of an insertion is either the inserted one or the old first. */
  lemma InsertHead(x: Observation, s: seq<Observation>)
    ensures Insert(x, s)[0] == x || (s != [] && Insert(x, s)[0] == s[0])
  {
  }

  lemma {:induction false} InsertKeepsOrder(x: Observation, s: seq<Observation>)
    requires SortedByTime(s)
    ensures SortedByTime(Insert(x, s))
  {
    if s != [] && x.time >= s[0].time {
      var rest := Insert(x, s[1..]);
      InsertKeepsOrder(x, s[1..]);
      InsertHead(x, s[1..]);
      assert s[0].time <= rest[0].time;
      var r := Insert(x, s);
      assert r == [s[0]] + rest;
      forall i, j | 0 <= i < j < |r| ensures r[i].time <= r[j].time {
        if i > 0 {
          assert r[i] == rest[i - 1] && r[j] == rest[j - 1];
        } else {
          assert r[j] == rest[j - 1];
          assert rest[0].time <= rest[j - 1].time;
        }
      }
    }
  }

  /** `df.set_index('timestamp').sort_index()`: the observations in ascending time order. */
  function SortByTime(s: seq<Observation>): (r: seq<Observation>)
    ensures SortedByTime(r)
    ensures multiset(r) == multiset(s)
    ensures |r| == |s|
  {
    if s == [] then []
    else
      var init := SortByTime(s[..|s| - 1]);
      InsertKeepsOrder(s[|s| - 1], init);
      InsertKeepsElements(s[|s| - 1], init);
      assert s == s[..|s| - 1] + [s[|s| - 1]];
      Insert(s[|s| - 1], init)
  }

  /** The latest time in a non-empty series, defined without sorting. */
  function MaxTime(s: seq<Observation>): (m: int)
    requires s != []
  {
    if |s| == 1 then s[0].time
    else
      var m := MaxTime(s[..|s| - 1]);
      if s[|s| - 1].time > m then s[|s| - 1].time else m
  }

  lemma {:induction false} MaxTimeIsMaximum(s: seq<Observation>)
    requires s != []
    ensures forall o :: o in s ==> o.time <= MaxTime(s)
    ensures exists o :: o in s && o.time == MaxTime(s)
  {
    if |s| == 1 {
      assert s[0] in s;
    } else {
      var init := s[..|s| - 1];
      MaxTimeIsMaximum(init);
      assert s == init + [s[|s| - 1]];
      if s[|s| - 1].time > MaxTime(init) {
        assert s[|s| - 1] in s;
      } else {
        var o :| o in init && o.time == MaxTime(init);
        assert o in s;
      }
    }
  }

  /** The series is sorted before the forecast, so the base date of the generated
      timestamps, the last sorted observation, is the latest input timestamp. */
  lemma SortedLastIsLatest(s: seq<Observation>)
    requires s != []
    ensures SortByTime(s)[|s| - 1].time == MaxTime(s)
  {
    var r := SortByTime(s);
    SameElements(r, s);
    SortedLastAttains(r, s);
  }

  /** A time-sorted arrangement of a series ends with an observation at the latest time. */
  lemma SortedLastAttains(r: seq<Observation>, s: seq<Observation>)
    requires s != [] && |r| == |s| && SortedByTime(r)
    requires forall o :: o in r <==> o in s
    ensures r[|r| - 1].time == MaxTime(s)
  {
    var latest := MaxTimeWitness(s);
    SortedLastBounds(r, latest);
    MaxTimeIsMaximum(s);
    assert r[|r| - 1] in s;
  }

  /** An observation that attains the latest time. */
  lemma MaxTimeWitness(s: seq<Observation>) returns (o: Observation)
    requires s != []
    ensures o in s && o.time == MaxTime(s)
  {
    MaxTimeIsMaximum(s);
    o :| o in s && o.time == MaxTime(s);
  }

  /** In a time-sorted series no observation is later than the last one. */
  lemma SortedLastBounds(r: seq<Observation>, o: Observation)
    requires SortedByTime(r) && o in r
    ensures o.time <= r[|r| - 1].time
  {
    var j :| 0 <= j < |r| && r[j] == o;
  }

  /** Two series with the same multiset of observations hold the same observations. */
  lemma SameElements(a: seq<Observation>, b: seq<Observation>)
    requires multiset(a) == multiset(b)
    ensures forall o :: o in a <==> o in b
  {
    forall o ensures o in a <==> o in b {
      assert o in a <==> o in multiset(a);
      assert o in b <==> o in multiset(b);
    }
  }

  function Values(s: seq<Observation>): (v: seq<real>)
    ensures |v| == |s| && forall i :: 0 <= i < |s| ==> v[i] == s[i].value
  {
    seq(|s|, i requires 0 <= i < |s| => s[i].value)
  }

  // ---------------------------------------------------------------------------
  // Forecast timestamps

  /** `[last + step * (x + 1) for x in range(periods)]`. */
  function Steps(last: int, periods: int, step: int): seq<int>
  {
    seq(if periods < 0 then 0 else periods, i => last + (i + 1) * step)
  }

  /** The generated forecast timestamps: whole days for 'D', whole hours for 'H',
      otherwise the calendar range of `periods + 1` points starting at `last`, minus
      its first point. */
  function FutureDates(last: int, periods: int, freq: string,
                       calendar: (int, int, string) -> Result<seq<int>, string>): (r: Result<seq<int>, string>)
    ensures freq == "D" || freq == "H" ==> r.Ok?
    ensures freq != "D" && freq != "H" ==> (r.Ok? <==> calendar(last, periods + 1, freq).Ok?)
    ensures freq != "D" && freq != "H" && r.Ok? && calendar(last, periods + 1, freq).value != [] ==>
      r.value == calendar(last, periods + 1, freq).value[1..]
  {
    if freq == "D" then Ok(Steps(last, periods, SecondsPerDay))
    else if freq == "H" then Ok(Steps(last, periods, SecondsPerHour))
    else match calendar(last, periods + 1, freq)
      case Err(m) => Err(m)
      case Ok(range) => Ok(if range == [] then [] else range[1..])
  }

  function StepFor(freq: string): int
  {
    if freq == "D" then SecondsPerDay else SecondsPerHour
  }

  /** For 'D' and 'H' there are exactly `periods` dates, the i-th one `i + 1` steps
      after the base date, so they increase strictly and all lie after it. */
  lemma FixedStepDates(last: int, periods: nat, freq: string,
                       calendar: (int, int, string) -> Result<seq<int>, string>)
    requires freq == "D" || freq == "H"
    ensures var r := FutureDates(last, periods, freq, calendar);
      r.Ok? && |r.value| == periods
      && (forall i :: 0 <= i < periods ==> r.value[i] == last + (i + 1) * StepFor(freq))
      && (forall i, j :: 0 <= i < j < periods ==> last < r.value[i] < r.value[j])
  {
    var r := FutureDates(last, periods, freq, calendar).value;
    forall i, j | 0 <= i < j < periods ensures last < r[i] < r[j] {
      assert r[j] - r[i] == (j - i) * StepFor(freq);
    }
  }

  /** `zip(future_dates, forecast)`: pairs position by position, as long as the shorter list. */
  function Zip(dates: seq<int>, values: seq<real>): seq<Prediction>
  {
    seq(if |dates| <= |values| then |dates| else |values|, i requires 0 <= i < |dates| && i < |values| =>
      Prediction(dates[i], values[i]))
  }

  // ---------------------------------------------------------------------------
  // POST /predict

  function Predict(data: seq<DataPoint>, periods: int, freq: string,
                   parse: string -> Result<int, string>,
                   arima: (seq<real>, int) -> ArimaOutcome,
                   calendar: (int, int, string) -> Result<seq<int>, string>): (r: Result<PredictResponse, HttpError>)
    ensures r.Err? ==> r.error.status == ServerError
    ensures data == [] ==> r == Err(HttpError(ServerError, MissingTimestampColumn))
    ensures data != [] && ParseAll(data, parse).Err? ==> r == Err(HttpError(ServerError, ParseAll(data, parse).error))
    ensures data != [] && ParseAll(data, parse).Ok? && arima(Values(SortByTime(ParseAll(data, parse).value)), periods).ArimaFailed? ==>
      r == Err(HttpError(ServerError, arima(Values(SortByTime(ParseAll(data, parse).value)), periods).message))
    ensures r.Ok? ==> ParseAll(data, parse).Ok? && arima(Values(SortByTime(ParseAll(data, parse).value)), periods).Forecast?
    ensures r.Ok? ==> r.value.modelSummary == arima(Values(SortByTime(ParseAll(data, parse).value)), periods).summary
    ensures data != [] && r.Err? && r.error.detail != MissingTimestampColumn ==>
      (ParseAll(data, parse).Err? && r.error.detail == ParseAll(data, parse).error)
      || (ParseAll(data, parse).Ok? && arima(Values(SortByTime(ParseAll(data, parse).value)), periods).ArimaFailed?
          && r.error.detail == arima(Values(SortByTime(ParseAll(data, parse).value)), periods).message)
      || (ParseAll(data, parse).Ok? && arima(Values(SortByTime(ParseAll(data, parse).value)), periods).Forecast?
          && exists last :: FutureDates(last, periods, freq, calendar) == Err(r.error.detail))
  {
    if data == [] then Err(HttpError(ServerError, MissingTimestampColumn))
    else match ParseAll(data, parse)
      case Err(m) => Err(HttpError(ServerError, m))
      case Ok(obs) =>
        var series := SortByTime(obs);
        match arima(Values(series), periods)
        case ArimaFailed(m) => Err(HttpError(ServerError, m))
        case Forecast(values, summary) =>
          match FutureDates(series[|series| - 1].time, periods, freq, calendar)
          case Err(m) => Err(HttpError(ServerError, m))
          case Ok(dates) => Ok(PredictResponse(Zip(dates, values), summary))
  }

  /** For 'D' and 'H' with a forecast of `periods` values, the response holds exactly
      `periods` predictions; the i-th pairs the i-th forecast value with the latest
      input timestamp plus `i + 1` days (or hours). */
  lemma PredictFixedStep(data: seq<DataPoint>, periods: nat, freq: string,
                         parse: string -> Result<int, string>,
                         arima: (seq<real>, int) -> ArimaOutcome,
                         calendar: (int, int, string) -> Result<seq<int>, string>,
                         obs: seq<Observation>, values: seq<real>, summary: string)
    requires freq == "D" || freq == "H"
    requires data != [] && ParseAll(data, parse) == Ok(obs)
    requires arima(Values(SortByTime(obs)), periods) == Forecast(values, summary)
    requires |values| == periods
    ensures var r := Predict(data, periods, freq, parse, arima, calendar);
      r.Ok? && |r.value.predictions| == periods && r.value.modelSummary == summary
      && forall i :: 0 <= i < periods ==>
           r.value.predictions[i] == Prediction(MaxTime(obs) + (i + 1) * StepFor(freq), values[i])
  {
    SortedLastIsLatest(obs);
    FixedStepDates(MaxTime(obs), periods, freq, calendar);
  }

  /** The body of a forecast request; a client may leave out `periods` and `freq`. */
  datatype PredictionRequest = PredictionRequest(data: seq<DataPoint>, periods: Option<int>, freq: Option<string>)

  const DefaultPeriods := 7
  const DefaultFreq := "D"

  /** The `/predict` handler on a request body, with the request model's defaults. */
  function PredictRequest(req: PredictionRequest,
                          parse: string -> Result<int, string>,
                          arima: (seq<real>, int) -> ArimaOutcome,
                          calendar: (int, int, string) -> Result<seq<int>, string>): Result<PredictResponse, HttpError>
  {
    Predict(req.data, Override(req.periods, DefaultPeriods), Override(req.freq, DefaultFreq), parse, arima, calendar)
  }

  /** A request that gives neither `periods` nor `freq` asks for a week of daily values:
      with a seven-value forecast the response holds seven predictions, one day apart
      from the latest input timestamp. */
  lemma DefaultRequestForecastsAWeek(req: PredictionRequest,
                                     parse: string -> Result<int, string>,
                                     arima: (seq<real>, int) -> ArimaOutcome,
                                     calendar: (int, int, string) -> Result<seq<int>, string>,
                                     obs: seq<Observation>, values: seq<real>, summary: string)
    requires req.periods.None? && req.freq.None?
    requires req.data != [] && ParseAll(req.data, parse) == Ok(obs)
    requires arima(Values(SortByTime(obs)), 7) == Forecast(values, summary) && |values| == 7
    ensures var r := PredictRequest(req, parse, arima, calendar);
      r.Ok? && |r.value.predictions| == 7
      && forall i :: 0 <= i < 7 ==> r.value.predictions[i] == Prediction(MaxTime(obs) + (i + 1) * SecondsPerDay, values[i])
  {
    PredictFixedStep(req.data, DefaultPeriods, DefaultFreq, parse, arima, calendar, obs, values, summary);
  }

  // ---------------------------------------------------------------------------
  // POST /detect-anomalies

  /** `[timestamps[i] for i, pred in enumerate(preds) if pred == -1]`; indexing past
      the end of `timestamps` raises. */
  function FlaggedTimestamps(timestamps: seq<string>, labels: seq<int>): (r: Result<seq<string>, string>)
  {
    if labels == [] then Ok([])
    else match FlaggedTimestamps(timestamps, labels[..|labels| - 1])
      case Err(m) => Err(m)
      case Ok(prefix) =>
        var i := |labels| - 1;
        if labels[i] != -1 then Ok(prefix)
        else if i < |timestamps| then Ok(prefix + [timestamps[i]])
        else Err(IndexOutOfRange)
  }

  /** The positions labelled -1, in increasing order. */
  function OutlierPositions(labels: seq<int>): (p: seq<nat>)
    ensures forall k :: 0 <= k < |p| ==> p[k] < |labels| && labels[p[k]] == -1
    ensures forall k, l :: 0 <= k < l < |p| ==> p[k] < p[l]
  {
    if labels == [] then []
    else OutlierPositions(labels[..|labels| - 1]) + (if labels[|labels| - 1] == -1 then [|labels| - 1] else [])
  }

  /** No position labelled -1 is missed. */
  lemma {:induction false} OutlierPositionsComplete(labels: seq<int>)
    ensures forall i :: 0 <= i < |labels| && labels[i] == -1 ==> i in OutlierPositions(labels)
  {
    if labels != [] {
      var init := labels[..|labels| - 1];
      OutlierPositionsComplete(init);
      var p := OutlierPositions(labels);
      forall i | 0 <= i < |labels| && labels[i] == -1 ensures i in p {
        if i < |labels| - 1 {
          assert init[i] == -1;
        }
      }
    }
  }

  /** The timestamps at the given positions, in the order of the positions. */
  function Pick(timestamps: seq<string>, positions: seq<nat>): (r: seq<string>)
    requires forall k :: 0 <= k < |positions| ==> positions[k] < |timestamps|
    ensures |r| == |positions|
    ensures forall k :: 0 <= k < |r| ==> r[k] == timestamps[positions[k]]
  {
    if positions == [] then []
    else Pick(timestamps, positions[..|positions| - 1]) + [timestamps[positions[|positions| - 1]]]
  }

  /** When every outlier position has a timestamp, the flagged timestamps are exactly
      the timestamps at the outlier positions, in input order. */
  lemma {:induction false} FlaggedAreOutliers(timestamps: seq<string>, labels: seq<int>)
    requires |labels| <= |timestamps|
    ensures FlaggedTimestamps(timestamps, labels) == Ok(Pick(timestamps, OutlierPositions(labels)))
  {
    if labels != [] {
      var init := labels[..|labels| - 1];
      FlaggedAreOutliers(timestamps, init);
      var p, q := OutlierPositions(labels), OutlierPositions(init);
      if labels[|labels| - 1] == -1 {
        assert p == q + [|labels| - 1];
        assert p[..|p| - 1] == q;
      } else {
        assert p == q;
      }
    }
  }

  /** The text of the `ValueError` IsolationForest raises when fitted on `np.array([])`,
      which is one-dimensional. */
  const EmptyValuesError := "Expected 2D array, got 1D array instead:\narray=[].\n"
    + "Reshape your data either using array.reshape(-1, 1) if your data has a single feature "
    + "or array.reshape(1, -1) if it contains a single sample."

  /** `detect_anomalies`: an empty series cannot be fitted; otherwise the detector's
      labels pick the timestamps. */
  function DetectAnomalies(data: seq<DataPoint>, contamination: real,
                           detector: (seq<real>, real) -> DetectorOutcome): (r: Result<seq<string>, string>)
  {
    if data == [] then Err(EmptyValuesError)
    else
      var values := seq(|data|, i requires 0 <= i < |data| => data[i].value);
      var timestamps := seq(|data|, i requires 0 <= i < |data| => data[i].timestamp);
      match detector(values, contamination)
      case DetectorFailed(m) => Err(m)
      case Labels(labels) => FlaggedTimestamps(timestamps, labels)
  }

  /** The body of a detection request; a client may leave out `contamination`. */
  datatype AnomalyDetectionRequest = AnomalyDetectionRequest(data: seq<DataPoint>, contamination: Option<real>)

  const DefaultContamination := 0.1

  /** The contamination the detector is fitted with: the request's, else 0.1. */
  function ContaminationOf(req: AnomalyDetectionRequest): (c: real)
    ensures req.contamination.None? ==> c == DefaultContamination
    ensures req.contamination.Some? ==> c == req.contamination.value
  {
    Override(req.contamination, DefaultContamination)
  }

  /** `POST /detect-anomalies`: the detector is fitted with the request's contamination
      (0.1 when left out), and any failure becomes a 500 carrying its message. */
  function DetectAnomaliesEndpoint(req: AnomalyDetectionRequest,
                                   detector: (seq<real>, real) -> DetectorOutcome): (r: Result<AnomalyResponse, HttpError>)
    ensures r.Ok? ==> r.value.totalAnomalies == |r.value.anomalyTimestamps|
    ensures r.Err? ==> r.error.status == ServerError
    ensures var d := DetectAnomalies(req.data, ContaminationOf(req), detector);
      (r.Ok? <==> d.Ok?) && (r.Ok? ==> r.value.anomalyTimestamps == d.value)
      && (r.Err? ==> r.error.detail == d.error)
    ensures req.data == [] ==> r == Err(HttpError(ServerError, EmptyValuesError))
  {
    match DetectAnomalies(req.data, ContaminationOf(req), detector)
    case Err(m) => Err(HttpError(ServerError, m))
    case Ok(anomalies) => Ok(AnomalyResponse(anomalies, |anomalies|))
  }

  /** With one label per input point, the response lists exactly the timestamps of the
      points labelled -1, in request order, and counts them. */
  lemma AnomalyResponseExact(req: AnomalyDetectionRequest,
                             detector: (seq<real>, real) -> DetectorOutcome, labels: seq<int>)
    requires detector(seq(|req.data|, i requires 0 <= i < |req.data| => req.data[i].value), ContaminationOf(req)) == Labels(labels)
    requires req.data != [] && |labels| == |req.data|
    ensures var r := DetectAnomaliesEndpoint(req, detector);
      var p := OutlierPositions(labels);
      r.Ok? && r.value.totalAnomalies == |p|
      && |r.value.anomalyTimestamps| == |p|
      && (forall k :: 0 <= k < |p| ==> r.value.anomalyTimestamps[k] == req.data[p[k]].timestamp)
      && (forall i :: 0 <= i < |req.data| && labels[i] == -1 ==> i in p)
      && (forall k :: 0 <= k < |p| ==> labels[p[k]] == -1)
  {
    var data := req.data;
    var timestamps := seq(|data|, i requires 0 <= i < |data| => data[i].timestamp);
    var values := seq(|req.data|, i requires 0 <= i < |req.data| => req.data[i].value);
    assert values == seq(|data|, i requires 0 <= i < |data| => data[i].value);
    assert DetectAnomalies(data, ContaminationOf(req), detector) == FlaggedTimestamps(timestamps, labels);
    FlaggedAreOutliers(timestamps, labels);
    OutlierPositionsComplete(labels);
  }
}
