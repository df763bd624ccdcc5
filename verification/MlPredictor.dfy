/** The occupancy forecaster (backend/ml_predictor.py): the temporal features
    and defaults of the input vector, which of the three trained models are
    loaded, and how `predict` turns their outputs into a forecast, or falls
    back to the current occupancy when none is loaded. The models' outputs,
    the label encodings and the weighted ensemble average are inputs. */
module MlPredictor {
  import opened Common

  type Hour = h: int | 0 <= h < 24

  /** `datetime.weekday()`: Monday is 0, Sunday is 6. */
  type Weekday = d: int | 0 <= d < 7

  // ---------------------------------------------------------------------
  // Temporal features
  // ---------------------------------------------------------------------

  datatype TimeOfDay = Morning | Afternoon | Evening | Night

  function TimeOfDayOf(hour: Hour): TimeOfDay
  {
    if 6 <= hour < 12 then Morning
    else if 12 <= hour < 17 then Afternoon
    else if 17 <= hour < 21 then Evening
    else Night
  }

  // Each band is one contiguous range of hours: six hours of morning from
  // 06, five of afternoon from 12, four of evening from 17, and the nine
  // remaining hours are night.

  lemma MorningHours()
    ensures (set h: Hour | TimeOfDayOf(h) == Morning) == {6, 7, 8, 9, 10, 11}
  {
    assert forall h: Hour :: TimeOfDayOf(h) == Morning <==> h in {6, 7, 8, 9, 10, 11};
  }

  lemma AfternoonHours()
    ensures (set h: Hour | TimeOfDayOf(h) == Afternoon) == {12, 13, 14, 15, 16}
  {
    assert forall h: Hour :: TimeOfDayOf(h) == Afternoon <==> h in {12, 13, 14, 15, 16};
  }

  lemma EveningHours()
    ensures (set h: Hour | TimeOfDayOf(h) == Evening) == {17, 18, 19, 20}
  {
    assert forall h: Hour :: TimeOfDayOf(h) == Evening <==> h in {17, 18, 19, 20};
  }

  lemma NightHours()
    ensures (set h: Hour | TimeOfDayOf(h) == Night) == {0, 1, 2, 3, 4, 5, 21, 22, 23}
  {
    assert forall h: Hour :: TimeOfDayOf(h) == Night <==> h in {0, 1, 2, 3, 4, 5, 21, 22, 23};
  }

  function Flag(b: bool): (f: int)
    ensures f == 0 || f == 1
    ensures f == 1 <==> b
  {
    if b then 1 else 0
  }

  function IsWeekend(day: Weekday): int { Flag(day >= 5) }

  function IsPeakHour(hour: Hour): int { Flag(8 <= hour <= 17) }

  /** The request fields `preprocess_input` reads; the behavioural counts may
      be absent. */
  datatype Request = Request(
    hour: Hour, dayOfWeek: Weekday, dayOfMonth: int, month: int,
    visitCount: Option<int>, uniqueLocations: Option<int>,
    locationHourCount: Option<int>, currentOccupancy: Option<int>)

  /** The label encodings of location, time of day, source and entity. */
  datatype Encodings = Encodings(location: int, timeOfDay: int, source: int, entity: int)

  function Or(x: Option<int>, fallback: int): int
  {
    if x.Some? then x.value else fallback
  }

  /** The 14 features, in the order the models were trained on. */
  function FeatureVector(r: Request, e: Encodings): (v: seq<int>)
    ensures |v| == 14
  {
    [r.hour, r.dayOfWeek, r.dayOfMonth, r.month,
     IsWeekend(r.dayOfWeek), IsPeakHour(r.hour),
     Or(r.visitCount, 10), Or(r.uniqueLocations, 5),
     Or(r.locationHourCount, 15), Or(r.currentOccupancy, 20),
     e.location, e.timeOfDay, e.source, e.entity]
  }

  /** The calendar fields read back from a feature vector. */
  function Calendar(v: seq<int>): (int, int, int, int)
    requires |v| >= 4
  {
    (v[0], v[1], v[2], v[3])
  }

  /** The vector starts with the hour, weekday, day and month it was built
      from; its two flags agree with them (weekend exactly from Saturday,
      peak exactly for hours 8 to 17); and an absent count is replaced by
      its default 10, 5, 15 or 20. */
  lemma FeatureLayout(r: Request, e: Encodings)
    ensures var v := FeatureVector(r, e);
      Calendar(v) == (r.hour, r.dayOfWeek, r.dayOfMonth, r.month)
      && (v[4] == 1 <==> v[1] >= 5) && (v[4] == 0 <==> v[1] < 5)
      && (v[5] == 1 <==> 8 <= v[0] <= 17) && (v[5] == 0 <==> !(8 <= v[0] <= 17))
      && (r.visitCount.None? ==> v[6] == 10) && (r.uniqueLocations.None? ==> v[7] == 5)
      && (r.locationHourCount.None? ==> v[8] == 15) && (r.currentOccupancy.None? ==> v[9] == 20)
      && v[10..] == [e.location, e.timeOfDay, e.source, e.entity]
  {
  }

  // ---------------------------------------------------------------------
  // Ensemble weights
  // ---------------------------------------------------------------------

  /** The weights appended for the loaded models: 0.4 for the network, 0.3
      for each boosted-tree model. */
  function Weights(nn: bool, xgb: bool, lgb: bool): (ws: seq<real>)
    ensures |ws| == Flag(nn) + Flag(xgb) + Flag(lgb)
    ensures forall i :: 0 <= i < |ws| ==> ws[i] == 0.4 || ws[i] == 0.3
  {
    (if nn then [0.4] else []) + (if xgb then [0.3] else []) + (if lgb then [0.3] else [])
  }

  function Sum(s: seq<real>): real
  {
    if s == [] then 0.0 else Sum(s[..|s| - 1]) + s[|s| - 1]
  }

  /** `[w / sum(weights) for w in weights]`, or three thirds when the sum is
      not positive. */
  function Normalized(ws: seq<real>): (ns: seq<real>)
  {
    var total := Sum(ws);
    if total > 0.0 then seq(|ws|, i requires 0 <= i < |ws| => ws[i] / total)
    else [1.0 / 3.0, 1.0 / 3.0, 1.0 / 3.0]
  }

  lemma {:induction false} SumDivided(ws: seq<real>, total: real)
    requires total > 0.0
    ensures Sum(seq(|ws|, i requires 0 <= i < |ws| => ws[i] / total)) == Sum(ws) / total
  {
    if ws != [] {
      var init := ws[..|ws| - 1];
      SumDivided(init, total);
      var d := seq(|ws|, i requires 0 <= i < |ws| => ws[i] / total);
      assert d[..|d| - 1] == seq(|init|, i requires 0 <= i < |init| => init[i] / total);
      assert Sum(init) / total + ws[|ws| - 1] / total == (Sum(init) + ws[|ws| - 1]) / total;
    }
  }

  /** Normalised weights always add up to 1. */
  lemma WeightsNormalized(nn: bool, xgb: bool, lgb: bool)
    ensures Sum(Normalized(Weights(nn, xgb, lgb))) == 1.0
  {
    var ws := Weights(nn, xgb, lgb);
    if nn || xgb || lgb {
      WeightsPositive(nn, xgb, lgb);
      SumDivided(ws, Sum(ws));
    } else {
      var third := 1.0 / 3.0;
      var t := Normalized(ws);
      assert ws == [] && t == [third, third, third];
      assert t[..2] == [third, third] && t[..2][..1] == [third] && t[..2][..1][..0] == [];
      assert Sum(t[..2][..1]) == third;
      assert Sum(t[..2]) == third + third;
    }
  }

  /** Each loaded model keeps its share of the total: alone the network
      weighs 1; beside one boosted-tree model 4/7; beside both 0.4; and two
      boosted-tree models weigh 1/2 each. */
  lemma NormalizedShares()
    ensures Normalized(Weights(true, false, false)) == [1.0]
    ensures Normalized(Weights(true, true, false)) == [4.0 / 7.0, 3.0 / 7.0]
    ensures Normalized(Weights(true, true, true)) == [0.4, 0.3, 0.3]
    ensures Normalized(Weights(false, true, true)) == [0.5, 0.5]
  {
    var one, two, three, trees := [0.4], [0.4, 0.3], [0.4, 0.3, 0.3], [0.3, 0.3];
    assert Weights(true, false, false) == one && Weights(true, true, false) == two;
    assert Weights(true, true, true) == three && Weights(false, true, true) == trees;
    assert one[..0] == [] && two[..1] == one && three[..2] == two && trees[..1] == [0.3];
    assert Sum(one) == 0.4 && Sum(two) == 0.7 && Sum(three) == 1.0 && Sum(trees) == 0.6;
  }

  /** The weights are all positive once any model is loaded. */
  lemma WeightsPositive(nn: bool, xgb: bool, lgb: bool)
    requires nn || xgb || lgb
    ensures Sum(Weights(nn, xgb, lgb)) > 0.0
  {
    var ws := Weights(nn, xgb, lgb);
    PositiveSum(ws);
  }

  lemma {:induction false} PositiveSum(ws: seq<real>)
    requires ws != [] && forall i :: 0 <= i < |ws| ==> ws[i] > 0.0
    ensures Sum(ws) > 0.0
  {
    if |ws| > 1 {
      PositiveSum(ws[..|ws| - 1]);
    }
  }

  // ---------------------------------------------------------------------
  // Rounding and confidence
  // ---------------------------------------------------------------------

  /** Python's `round` to an integer: to the nearest, ties to even. */
  function Round(x: real): (n: int)
    ensures n as real - 0.5 <= x <= n as real + 0.5
  {
    var f := x.Floor;
    var frac := x - f as real;
    if frac < 0.5 then f
    else if frac > 0.5 then f + 1
    else if f % 2 == 0 then f else f + 1
  }

  /** Rounding never leaves the integer bounds the value lies in. */
  lemma RoundWithin(x: real, lo: int, hi: int)
    requires lo as real <= x <= hi as real
    ensures lo <= Round(x) <= hi
  {
  }

  /** `round(c, 3)`, on exact reals. */
  function Round3(c: real): real
  {
    Round(c * 1000.0) as real / 1000.0
  }

  /** `max(0.5, min(0.99, 1 / (1 + u / 10)))`. */
  function Clamped(u: real): (c: real)
    requires u >= 0.0
    ensures 0.5 <= c <= 0.99
  {
    var raw := 1.0 / (1.0 + u / 10.0);
    if raw < 0.5 then 0.5 else if raw > 0.99 then 0.99 else raw
  }

  /** A larger uncertainty never gives a higher confidence. */
  lemma ClampedMonotone(u: real, w: real)
    requires 0.0 <= u <= w
    ensures Clamped(w) <= Clamped(u)
  {
    var a, b := 1.0 + u / 10.0, 1.0 + w / 10.0;
    assert 1.0 / b <= 1.0 / a;
  }

  /** Inside the clamp the confidence is exactly `1 / (1 + u / 10)`: an
      uncertainty of 10 gives 0.5, and of 0 gives the 0.99 cap. */
  lemma ClampedValues()
    ensures Clamped(10.0) == 0.5 && Clamped(0.0) == 0.99 && Clamped(2.5) == 0.8
  {
  }

  // ---------------------------------------------------------------------
  // The predictor
  // ---------------------------------------------------------------------

  /** The raw outputs of the three models for one input: the network's mean
      and its softplus standard deviation (never negative), and one value
      from each boosted-tree model. */
  datatype Outputs = Outputs(nnMean: real, nnStd: real, xgb: real, lgb: real)

  predicate ValidOutputs(o: Outputs) { o.nnStd >= 0.0 }

  datatype Forecast = Forecast(forecastCount: int, confidence: real, individual: map<string, real>, modelVersion: string)

  /** The `predictions` dictionary: one entry per loaded model, plus the
      uncertainty when the network ran and it was asked for. */
  function Individual(nn: bool, xgb: bool, lgb: bool, o: Outputs, withUncertainty: bool): (m: map<string, real>)
    ensures m.Keys == (if nn then {"neural_net"} else {}) + (if nn && withUncertainty then {"uncertainty"} else {})
      + (if xgb then {"xgboost"} else {}) + (if lgb then {"lightgbm"} else {})
  {
    var m1 := if nn then map["neural_net" := o.nnMean] else map[];
    var m2 := if nn && withUncertainty then m1["uncertainty" := o.nnStd] else m1;
    var m3 := if xgb then m2["xgboost" := o.xgb] else m2;
    if lgb then m3["lightgbm" := o.lgb] else m3
  }

  /** `predict`, given which models are loaded, their outputs and the
      ensemble average `ensemble` of those outputs. */
  function PredictOf(nn: bool, xgb: bool, lgb: bool, r: Request, o: Outputs, ensemble: real, withUncertainty: bool): Forecast
    requires ValidOutputs(o)
  {
    var individual := Individual(nn, xgb, lgb, o, withUncertainty);
    if individual != map[] then
      var confidence := if withUncertainty && "uncertainty" in individual then Clamped(individual["uncertainty"]) else 0.85;
      var count := Round(ensemble);
      Forecast(if count > 0 then count else 0, Round3(confidence), individual, "SpaceFlow-v1.0-Ensemble")
    else
      var occupancy := Or(r.currentOccupancy, 20);
      Forecast(occupancy, 0.60, map["fallback" := occupancy as real], "Fallback-Heuristic")
  }

  /** Importing the module as the source writes it. `OccupancyForecastNet`
      names `nn.Module` as its base class when the module is imported, and
      `nn` is bound only by a successful `import torch.nn`, so without
      PyTorch the import stops with a NameError (and `__init__` would read
      `torch.cuda` before consulting `TORCH_AVAILABLE` in any case). */
  datatype ImportOutcome = Imported | ImportNameError(name: string)

  function ImportAsWritten(torchInstalled: bool): (r: ImportOutcome)
    ensures r.Imported? <==> torchInstalled
  {
    if torchInstalled then Imported else ImportNameError("nn")
  }

  /** As written, no predictor exists without PyTorch, so the
      `if TORCH_AVAILABLE` guard of `_load_models` and the fallback it
      announces are unreachable. */
  lemma TorchGuardsDead(torchInstalled: bool)
    requires ImportAsWritten(torchInstalled).Imported?
    ensures torchInstalled
    ensures ImportAsWritten(false) == ImportNameError("nn")
  {
  }

  class Predictor {
    var nnLoaded: bool
    var xgbLoaded: bool
    var lgbLoaded: bool

    /** `_load_models` as evidently intended: a model is loaded exactly when
        its library is installed and its file exists, so without PyTorch the
        predictor runs on the tree models alone. */
    constructor(torchInstalled: bool, xgbInstalled: bool, lgbInstalled: bool,
                nnFile: bool, xgbFile: bool, lgbFile: bool)
      ensures nnLoaded == (torchInstalled && nnFile)
      ensures xgbLoaded == (xgbInstalled && xgbFile)
      ensures lgbLoaded == (lgbInstalled && lgbFile)
    {
      nnLoaded := torchInstalled && nnFile;
      xgbLoaded := xgbInstalled && xgbFile;
      lgbLoaded := lgbInstalled && lgbFile;
    }

    /** The weights list, one append per loaded model. */
    method LoadedWeights() returns (ws: seq<real>)
      ensures ws == Weights(nnLoaded, xgbLoaded, lgbLoaded)
    {
      ws := [];
      if nnLoaded {
        ws := ws + [0.4];
      }
      if xgbLoaded {
        ws := ws + [0.3];
      }
      if lgbLoaded {
        ws := ws + [0.3];
      }
    }

    method Predict(r: Request, o: Outputs, ensemble: real, withUncertainty: bool) returns (f: Forecast)
      requires ValidOutputs(o)
      ensures f == PredictOf(nnLoaded, xgbLoaded, lgbLoaded, r, o, ensemble, withUncertainty)
    {
      var predictions: map<string, real> := map[];
      if nnLoaded {
        predictions := predictions["neural_net" := o.nnMean];
        if withUncertainty {
          predictions := predictions["uncertainty" := o.nnStd];
        }
      }
      if xgbLoaded {
        predictions := predictions["xgboost" := o.xgb];
      }
      if lgbLoaded {
        predictions := predictions["lightgbm" := o.lgb];
      }
      assert predictions == Individual(nnLoaded, xgbLoaded, lgbLoaded, o, withUncertainty);
      if predictions != map[] {
        var confidence := 0.85;
        if withUncertainty && "uncertainty" in predictions {
          confidence := Clamped(predictions["uncertainty"]);
        }
        var count := Round(ensemble);
        f := Forecast(if count > 0 then count else 0, Round3(confidence), predictions, "SpaceFlow-v1.0-Ensemble");
      } else {
        var occupancy := Or(r.currentOccupancy, 20);
        f := Forecast(occupancy, 0.60, map["fallback" := occupancy as real], "Fallback-Heuristic");
      }
    }

    /** `batch_predict`: one prediction per request, in order. */
    method BatchPredict(rs: seq<Request>, os: seq<Outputs>, ensembles: seq<real>) returns (fs: seq<Forecast>)
      requires |os| == |rs| && |ensembles| == |rs|
      requires forall i :: 0 <= i < |os| ==> ValidOutputs(os[i])
      ensures |fs| == |rs|
      ensures forall i :: 0 <= i < |rs| ==>
        fs[i] == PredictOf(nnLoaded, xgbLoaded, lgbLoaded, rs[i], os[i], ensembles[i], true)
    {
      fs := [];
      var i := 0;
      while i < |rs|
        invariant 0 <= i <= |rs|
        invariant |fs| == i
        invariant forall j :: 0 <= j < i ==>
          fs[j] == PredictOf(nnLoaded, xgbLoaded, lgbLoaded, rs[j], os[j], ensembles[j], true)
      {
        var f := Predict(rs[i], os[i], ensembles[i], true);
        fs := fs + [f];
        i := i + 1;
      }
    }
  }

  /** Without PyTorch the intended predictor weighs the tree models alone. */
  method TreesOnlyWithoutTorch(xgbInstalled: bool, lgbInstalled: bool, nnFile: bool, xgbFile: bool, lgbFile: bool)
    returns (p: Predictor, ws: seq<real>)
    ensures !p.nnLoaded
    ensures ws == Weights(false, xgbInstalled && xgbFile, lgbInstalled && lgbFile)
    ensures 0.4 !in ws
  {
    p := new Predictor(false, xgbInstalled, lgbInstalled, nnFile, xgbFile, lgbFile);
    ws := p.LoadedWeights();
  }

  // ---------------------------------------------------------------------
  // What a forecast promises
  // ---------------------------------------------------------------------

  /** The fallback is taken exactly when no model is loaded; it forecasts the
      current occupancy (20 when unknown) with confidence 0.6. */
  lemma FallbackExactly(nn: bool, xgb: bool, lgb: bool, r: Request, o: Outputs, ensemble: real, withUncertainty: bool)
    requires ValidOutputs(o)
    ensures var f := PredictOf(nn, xgb, lgb, r, o, ensemble, withUncertainty);
      (f.modelVersion == "Fallback-Heuristic" <==> !nn && !xgb && !lgb)
      && (!nn && !xgb && !lgb ==>
            f.forecastCount == Or(r.currentOccupancy, 20) && f.confidence == 0.60
            && f.individual == map["fallback" := Or(r.currentOccupancy, 20) as real])
  {
    assert "SpaceFlow-v1.0-Ensemble" != "Fallback-Heuristic" by {
      assert "SpaceFlow-v1.0-Ensemble"[0] != "Fallback-Heuristic"[0];
    }
    if nn || xgb || lgb {
      var m := Individual(nn, xgb, lgb, o, withUncertainty);
      assert m.Keys != {};
    }
  }

  /** With a model loaded, the forecast is the ensemble average rounded and
      floored at zero, and the confidence is 0.85 unless the network's
      uncertainty was requested, in which case it lies in [0.5, 0.99]. */
  lemma EnsembleForecast(nn: bool, xgb: bool, lgb: bool, r: Request, o: Outputs, ensemble: real, withUncertainty: bool)
    requires ValidOutputs(o) && (nn || xgb || lgb)
    ensures var f := PredictOf(nn, xgb, lgb, r, o, ensemble, withUncertainty);
      f.forecastCount >= 0
      && (ensemble >= 0.0 ==> f.forecastCount as real - 0.5 <= ensemble <= f.forecastCount as real + 0.5)
      && (!(nn && withUncertainty) ==> f.confidence == 0.85)
      && (nn && withUncertainty ==> 0.5 <= f.confidence <= 0.99 && f.confidence == Round3(Clamped(o.nnStd)))
  {
    var m := Individual(nn, xgb, lgb, o, withUncertainty);
    assert m.Keys != {};
    assert Round3(0.85) == 0.85 by {
      assert Round(0.85 * 1000.0) == 850;
    }
    if nn && withUncertainty {
      var c := Clamped(o.nnStd);
      RoundWithin(c * 1000.0, 500, 990);
    }
  }
}
