/** The predictive monitor (backend/predictive_analytics.py): next-location
    prediction from visit counts, hour patterns and location transitions; the
    rare-location and long-gap anomaly rules; and the rule-based inference of
    missing profile data. The timeline and profile lookups are parameters, and
    each timestamp arrives already reduced to its hour of the day and to
    seconds since the epoch. */
module PredictiveAnalytics {
  import opened Common
  import Tally
  import Ranking

  type Hour = h: int | 0 <= h < 24

  /** One timeline activity. */
  datatype Activity = Activity(location: string, hour: Hour, time: int, detectionType: string)

  /** The timeline lookup's result: its `activities` and `current_location`
      keys, each possibly absent. */
  datatype Timeline = Timeline(activities: Option<seq<Activity>>, currentLocation: Option<string>)

  function Locations(acts: seq<Activity>): (ls: seq<string>)
    ensures |ls| == |acts| && forall i :: 0 <= i < |acts| ==> ls[i] == acts[i].location
  {
    seq(|acts|, i requires 0 <= i < |acts| => acts[i].location)
  }

  function Hours(acts: seq<Activity>): (hs: seq<Hour>)
    ensures |hs| == |acts| && forall i :: 0 <= i < |acts| ==> hs[i] == acts[i].hour
  {
    seq(|acts|, i requires 0 <= i < |acts| => acts[i].hour)
  }

  function DetectionTypes(acts: seq<Activity>): (ds: seq<string>)
    ensures |ds| == |acts| && forall i :: 0 <= i < |acts| ==> ds[i] == acts[i].detectionType
  {
    seq(|acts|, i requires 0 <= i < |acts| => acts[i].detectionType)
  }

  // ---------------------------------------------------------------------
  // The counting pass of predict_next_location
  // ---------------------------------------------------------------------

  /** `time_location_patterns`: the locations visited at each hour seen, in
      visiting order, built one activity at a time. */
  function ByHour(acts: seq<Activity>): map<Hour, seq<string>>
  {
    if acts == [] then map[]
    else
      var m := ByHour(acts[..|acts| - 1]);
      var a := acts[|acts| - 1];
      m[a.hour := (if a.hour in m then m[a.hour] else []) + [a.location]]
  }

  /** `location_transitions`: for each location left, a tally of the
      locations that followed it, built one consecutive pair at a time. */
  function Transitions(acts: seq<Activity>): map<string, seq<(string, nat)>>
  {
    if |acts| < 2 then map[]
    else
      var m := Transitions(acts[..|acts| - 1]);
      var prev := acts[|acts| - 2].location;
      m[prev := Tally.Bump(if prev in m then m[prev] else [], acts[|acts| - 1].location)]
  }

  // One more activity extends each of the three accumulations by one step.

  lemma ByHourStep(acts: seq<Activity>, i: nat)
    requires i < |acts|
    ensures var m := ByHour(acts[..i]);
      ByHour(acts[..i + 1]) == m[acts[i].hour := (if acts[i].hour in m then m[acts[i].hour] else []) + [acts[i].location]]
  {
    assert acts[..i + 1][..i] == acts[..i];
  }

  lemma TransitionsStep(acts: seq<Activity>, i: nat)
    requires 0 < i < |acts|
    ensures var m := Transitions(acts[..i]);
      var prev := acts[i - 1].location;
      Transitions(acts[..i + 1]) == m[prev := Tally.Bump(if prev in m then m[prev] else [], acts[i].location)]
  {
    assert acts[..i + 1][..i] == acts[..i];
  }

  lemma LocationsStep(acts: seq<Activity>, i: nat)
    requires i < |acts|
    ensures Tally.Tally(Locations(acts[..i + 1])) == Tally.Bump(Tally.Tally(Locations(acts[..i])), acts[i].location)
  {
    assert Locations(acts[..i + 1])[..i] == Locations(acts[..i]);
  }

  /** The loop over the activities. */
  method CountPatterns(acts: seq<Activity>)
    returns (frequency: seq<(string, nat)>, byHour: map<Hour, seq<string>>, transitions: map<string, seq<(string, nat)>>)
    ensures frequency == Tally.Tally(Locations(acts))
    ensures byHour == ByHour(acts)
    ensures transitions == Transitions(acts)
  {
    frequency, byHour, transitions := [], map[], map[];
    var i := 0;
    while i < |acts|
      invariant 0 <= i <= |acts|
      invariant frequency == Tally.Tally(Locations(acts[..i]))
      invariant byHour == ByHour(acts[..i])
      invariant transitions == Transitions(acts[..i])
    {
      var a := acts[i];
      LocationsStep(acts, i);
      frequency := Tally.Bump(frequency, a.location);
      ByHourStep(acts, i);
      var slot := if a.hour in byHour then byHour[a.hour] else [];
      byHour := byHour[a.hour := slot + [a.location]];
      if i > 0 {
        TransitionsStep(acts, i);
        var prev := acts[i - 1].location;
        var row := if prev in transitions then transitions[prev] else [];
        transitions := transitions[prev := Tally.Bump(row, a.location)];
      } else {
        assert acts[..1] == [a];
      }
      i := i + 1;
    }
    assert acts[..i] == acts;
  }

  /** The locations visited at hour `h`, in order. */
  function AtHour(acts: seq<Activity>, h: Hour): seq<string>
  {
    if acts == [] then []
    else AtHour(acts[..|acts| - 1], h) + (if acts[|acts| - 1].hour == h then [acts[|acts| - 1].location] else [])
  }

  /** The locations that directly followed a visit to `p`, in order. */
  function Successors(acts: seq<Activity>, p: string): seq<string>
  {
    if |acts| < 2 then []
    else Successors(acts[..|acts| - 1], p) + (if acts[|acts| - 2].location == p then [acts[|acts| - 1].location] else [])
  }

  /** The locations each transition starts from: every activity but the last. */
  function Departures(acts: seq<Activity>): seq<string>
  {
    if |acts| < 2 then [] else Locations(acts[..|acts| - 1])
  }

  /** An hour is a key exactly when something happened at that hour, and its
      list is the locations visited at that hour. */
  lemma {:induction false} ByHourMeaning(acts: seq<Activity>)
    ensures forall h: Hour :: h in ByHour(acts) <==> AtHour(acts, h) != []
    ensures forall h: Hour :: h in ByHour(acts) ==> ByHour(acts)[h] == AtHour(acts, h)
  {
    if acts != [] {
      ByHourMeaning(acts[..|acts| - 1]);
    }
  }

  lemma TallySnoc<K>(s: seq<K>, x: K)
    ensures Tally.Tally(s + [x]) == Tally.Bump(Tally.Tally(s), x)
  {
    assert (s + [x])[..|s + [x]| - 1] == s;
  }

  /** A location is a key exactly when it was left at least once, and its row
      tallies the locations that followed it. */
  lemma {:induction false} TransitionsMeaning(acts: seq<Activity>, p: string)
    ensures p in Transitions(acts) <==> Successors(acts, p) != []
    ensures p in Transitions(acts) ==> Transitions(acts)[p] == Tally.Tally(Successors(acts, p))
  {
    if |acts| >= 2 {
      var init := acts[..|acts| - 1];
      TransitionsMeaning(init, p);
      var prev := acts[|acts| - 2].location;
      assert init[|init| - 1] == acts[|acts| - 2];
      if p == prev {
        var next := acts[|acts| - 1].location;
        var before := Successors(init, p);
        TallySnoc(before, next);
        assert Successors(acts, p) == before + [next];
        var row := if p in Transitions(init) then Transitions(init)[p] else [];
        assert row == Tally.Tally(before);
        assert Transitions(acts)[p] == Tally.Bump(row, next);
        assert Tally.Tally(Successors(acts, p)) == Tally.Tally(before + [next]);
        assert Transitions(acts)[p] == Tally.Tally(Successors(acts, p));
      } else {
        assert Successors(acts, p) == Successors(init, p) + [];
        assert Successors(init, p) + [] == Successors(init, p);
        assert p in Transitions(acts) <==> p in Transitions(init);
        if p in Transitions(init) {
          assert Transitions(acts)[p] == Transitions(init)[p];
        }
      }
    }
  }

  /** The number of transitions out of `p` is the number of departures from `p`. */
  lemma {:induction false} SuccessorsCount(acts: seq<Activity>, p: string)
    ensures |Successors(acts, p)| == Tally.Count(Departures(acts), p)
  {
    if |acts| >= 2 {
      var init := acts[..|acts| - 1];
      SuccessorsCount(init, p);
      var d := Departures(acts);
      assert d[..|d| - 1] == Departures(init) by {
        if |init| >= 2 {
          assert Locations(init[..|init| - 1]) == Locations(acts[..|acts| - 1])[..|acts| - 2];
        }
      }
    }
  }

  /** `sum(location_transitions[p].values())` summed over every location left. */
  function OutgoingTotal(transitions: map<string, seq<(string, nat)>>, ps: seq<string>): nat
  {
    if ps == [] then 0
    else (if ps[0] in transitions then Tally.Total(transitions[ps[0]]) else 0) + OutgoingTotal(transitions, ps[1..])
  }

  lemma {:induction false} SumOfCounts(s: seq<string>, t: seq<(string, nat)>, transitions: map<string, seq<(string, nat)>>)
    requires forall i :: 0 <= i < |t| ==> t[i].1 == (if t[i].0 in transitions then Tally.Total(transitions[t[i].0]) else 0)
    ensures OutgoingTotal(transitions, Common.Keys(t)) == Tally.Total(t)
  {
    if t != [] {
      SumOfCounts(s, t[1..], transitions);
      assert Common.Keys(t)[1..] == Common.Keys(t[1..]);
    }
  }

  /** The consecutive-pair counts add up to one less than the number of
      activities. */
  lemma TransitionsTotal(acts: seq<Activity>)
    requires acts != []
    ensures OutgoingTotal(Transitions(acts), Tally.Distinct(Departures(acts))) == |acts| - 1
  {
    var d := Departures(acts);
    var t := Tally.Tally(d);
    var tr := Transitions(acts);
    Tally.TallyKeys(d);
    Tally.TallyCounts(d);
    Tally.TallyTotal(d);
    forall i | 0 <= i < |t|
      ensures t[i].1 == (if t[i].0 in tr then Tally.Total(tr[t[i].0]) else 0)
    {
      var p := t[i].0;
      Tally.LookupAt(t, i);
      SuccessorsCount(acts, p);
      TransitionsMeaning(acts, p);
      Tally.TallyTotal(Successors(acts, p));
    }
    SumOfCounts(d, t, tr);
  }

  /** The visit counts add up to the number of activities. */
  lemma FrequencyTotal(acts: seq<Activity>)
    ensures Tally.Total(Tally.Tally(Locations(acts))) == |acts|
  {
    Tally.TallyTotal(Locations(acts));
  }

  /** A tally entry is an element of the tallied sequence, counted between 1
      and the sequence's length times. */
  lemma EntryBounds<K>(s: seq<K>, e: (K, nat))
    requires e in Tally.Tally(s)
    ensures e.0 in s && 1 <= e.1 == Tally.Count(s, e.0) <= |s|
  {
    var t := Tally.Tally(s);
    Tally.TallyCounts(s);
    Tally.TallyKeys(s);
    Tally.DistinctMembers(s);
    var i :| 0 <= i < |t| && t[i] == e;
    Tally.LookupAt(t, i);
    assert Common.Keys(t)[i] == e.0;
    CountBound(s, e.0);
  }

  lemma {:induction false} CountBound<K>(s: seq<K>, x: K)
    ensures Tally.Count(s, x) <= |s|
  {
    if s != [] {
      CountBound(s[..|s| - 1], x);
    }
  }

  // ---------------------------------------------------------------------
  // The three prediction sources
  // ---------------------------------------------------------------------

  datatype PredictionMethod = TimePattern | TransitionPattern | Frequency

  datatype Prediction = Prediction(location: string, probability: real, via: PredictionMethod)

  /** One prediction per tally entry, with probability `count / denominator`,
      halved for the frequency method. */
  function Scaled(entries: seq<(string, nat)>, denominator: nat, m: PredictionMethod): (ps: seq<Prediction>)
    requires entries == [] || denominator > 0
    ensures |ps| == |entries|
  {
    if entries == [] then []
    else
      var share := (entries[0].1 as real) / (denominator as real);
      [Prediction(entries[0].0, if m == Frequency then share * 0.5 else share, m)] + Scaled(entries[1..], denominator, m)
  }

  /** The five locations most visited at the current hour, each with its share
      of that hour's visits; none when nothing happened at that hour. */
  function TimePredictions(byHour: map<Hour, seq<string>>, currentHour: Hour): seq<Prediction>
  {
    if currentHour in byHour then
      var visits := byHour[currentHour];
      Scaled(Ranking.MostCommon(Tally.Tally(visits), 5), |visits|, TimePattern)
    else []
  }

  /** Every transition row counts each successor at least once. */
  predicate CountsPositive(transitions: map<string, seq<(string, nat)>>)
  {
    forall p, i :: p in transitions && 0 <= i < |transitions[p]| ==> transitions[p][i].1 >= 1
  }

  /** The three locations most often reached from the current one, each with
      its share of the departures from it. */
  function TransitionPredictions(transitions: map<string, seq<(string, nat)>>, current: string): seq<Prediction>
    requires CountsPositive(transitions)
  {
    if current in transitions then
      var row := transitions[current];
      assert row == [] || row[0].1 >= 1;
      Scaled(Ranking.MostCommon(row, 3), Tally.Total(row), TransitionPattern)
    else []
  }

  /** The five most visited locations, each with half its share of all visits. */
  function FrequencyPredictions(frequency: seq<(string, nat)>, n: nat): seq<Prediction>
    requires frequency == [] || n > 0
  {
    Scaled(Ranking.MostCommon(frequency, 5), n, Frequency)
  }

  /** The transition rows built from a timeline count each successor at least once. */
  lemma TransitionsPositive(acts: seq<Activity>)
    ensures CountsPositive(Transitions(acts))
  {
    forall p, i | p in Transitions(acts) && 0 <= i < |Transitions(acts)[p]|
      ensures Transitions(acts)[p][i].1 >= 1
    {
      TransitionsMeaning(acts, p);
      Tally.TallyCounts(Successors(acts, p));
    }
  }

  /** All predictions, in the order the three methods produce them. */
  function AllPredictions(acts: seq<Activity>, currentHour: Hour, current: string): seq<Prediction>
  {
    TransitionsPositive(acts);
    TimePredictions(ByHour(acts), currentHour)
    + TransitionPredictions(Transitions(acts), current)
    + FrequencyPredictions(Tally.Tally(Locations(acts)), |acts|)
  }

  /** Every prediction names a visited location with a probability in (0, 1];
      frequency predictions weigh at most 0.5, and there is always at least one
      of them. */
  lemma PredictionBounds(acts: seq<Activity>, currentHour: Hour, current: string)
    ensures forall p :: p in AllPredictions(acts, currentHour, current) ==>
      p.location in Locations(acts) && 0.0 < p.probability <= 1.0
    ensures acts != [] ==> AllPredictions(acts, currentHour, current) != []
  {
    TimeBounds(acts, currentHour);
    TransitionBounds(acts, current);
    FrequencyBounds(acts);
  }

  /** The weight a method gives to a full share. */
  function MethodWeight(m: PredictionMethod): real
  {
    if m == Frequency then 0.5 else 1.0
  }

  /** The predictions drawn from the `k` commonest elements of `s` name
      elements of `s`, with probabilities in (0, 1], and in (0, 0.5] for the
      frequency method. */
  lemma ScaledBounds(s: seq<string>, k: nat, m: PredictionMethod)
    ensures var ps := Scaled(Ranking.MostCommon(Tally.Tally(s), k), |s|, m);
      |ps| <= k && forall p :: p in ps ==> p.location in s && 0.0 < p.probability <= MethodWeight(m)
  {
    var entries := Ranking.MostCommon(Tally.Tally(s), k);
    forall e | e in entries ensures e.0 in s && 1 <= e.1 <= |s| {
      EntryBounds(s, e);
    }
    if entries != [] {
      assert entries[0] in entries;
    }
    ScaledOver(entries, s, m);
  }

  lemma {:induction false} ScaledOver(entries: seq<(string, nat)>, s: seq<string>, m: PredictionMethod)
    requires forall e :: e in entries ==> e.0 in s && 1 <= e.1 <= |s|
    requires entries == [] || |s| > 0
    ensures forall p :: p in Scaled(entries, |s|, m) ==> p.location in s && 0.0 < p.probability <= MethodWeight(m)
  {
    if entries != [] {
      assert entries[0] in entries;
      assert forall x :: x in entries[1..] ==> x in entries;
      ScaledOver(entries[1..], s, m);
      RatioBounds(entries[0].1, |s|);
    }
  }

  lemma TimeBounds(acts: seq<Activity>, currentHour: Hour)
    ensures forall p :: p in TimePredictions(ByHour(acts), currentHour) ==> p.location in Locations(acts) && 0.0 < p.probability <= 1.0
    ensures |TimePredictions(ByHour(acts), currentHour)| <= 5
  {
    ByHourMeaning(acts);
    if currentHour in ByHour(acts) {
      var visits := ByHour(acts)[currentHour];
      ScaledBounds(visits, 5, TimePattern);
      forall loc | loc in visits ensures loc in Locations(acts) {
        AtHourVisited(acts, currentHour, loc);
      }
    }
  }

  lemma TransitionBounds(acts: seq<Activity>, current: string)
    ensures CountsPositive(Transitions(acts))
    ensures forall p :: p in TransitionPredictions(Transitions(acts), current) ==> p.location in Locations(acts) && 0.0 < p.probability <= 1.0
    ensures |TransitionPredictions(Transitions(acts), current)| <= 3
  {
    TransitionsPositive(acts);
    TransitionsMeaning(acts, current);
    if current in Transitions(acts) {
      var succ := Successors(acts, current);
      Tally.TallyTotal(succ);
      ScaledBounds(succ, 3, TransitionPattern);
      forall loc | loc in succ ensures loc in Locations(acts) {
        SuccessorVisited(acts, current, loc);
      }
    }
  }

  lemma FrequencyBounds(acts: seq<Activity>)
    ensures var ps := FrequencyPredictions(Tally.Tally(Locations(acts)), |acts|);
      (forall p :: p in ps ==> p.location in Locations(acts) && 0.0 < p.probability <= 0.5)
      && |ps| <= 5 && (acts != [] ==> ps != [])
  {
    var ls := Locations(acts);
    ScaledBounds(ls, 5, Frequency);
    if acts != [] {
      Tally.TallyTotal(ls);
      var t := Tally.Tally(ls);
      assert t != [];
      assert |Ranking.SortDesc(t, Ranking.CountKey)| == |t|;
    }
  }

  lemma RatioBounds(count: nat, denominator: nat)
    requires 1 <= count <= denominator
    ensures 0.0 < (count as real) / (denominator as real) <= 1.0
  {
    var c := count as real;
    var d := denominator as real;
    var q := c / d;
    assert q * d == c;
    assert (1.0 - q) * d == d - c;
  }

  lemma {:induction false} AtHourVisited(acts: seq<Activity>, h: Hour, loc: string)
    requires loc in AtHour(acts, h)
    ensures loc in Locations(acts)
  {
    var init := acts[..|acts| - 1];
    if loc in AtHour(init, h) {
      AtHourVisited(init, h, loc);
      assert Locations(init)[..] == Locations(acts)[..|acts| - 1];
    } else {
      assert Locations(acts)[|acts| - 1] == loc;
    }
  }

  lemma {:induction false} SuccessorVisited(acts: seq<Activity>, p: string, loc: string)
    requires loc in Successors(acts, p)
    ensures loc in Locations(acts)
  {
    var init := acts[..|acts| - 1];
    if loc in Successors(init, p) {
      SuccessorVisited(init, p, loc);
      assert Locations(init)[..] == Locations(acts)[..|acts| - 1];
    } else {
      assert Locations(acts)[|acts| - 1] == loc;
    }
  }

  // ---------------------------------------------------------------------
  // Aggregation per location
  // ---------------------------------------------------------------------

  /** A `location_scores` entry: the summed probability and the methods that
      contributed, in contribution order. */
  datatype Score = Score(location: string, probability: real, methods: seq<PredictionMethod>)

  /** The entry for `p`'s location after adding `p` to the entry `prev`
      (none yet: start from probability 0). */
  function Merged(prev: Option<Score>, p: Prediction): Score
  {
    if prev.Some? then Score(p.location, prev.value.probability + p.probability, prev.value.methods + [p.via])
    else Score(p.location, 0.0 + p.probability, [p.via])
  }

  /** Add one prediction to the entry for its location, creating the entry
      when the location is new. */
  function AddPrediction(scores: seq<Score>, p: Prediction): seq<Score>
  {
    if scores == [] then [Merged(None, p)]
    else if scores[0].location == p.location then [Merged(Some(scores[0]), p)] + scores[1..]
    else [scores[0]] + AddPrediction(scores[1..], p)
  }

  /** `location_scores` after every prediction, in order. */
  function Aggregate(preds: seq<Prediction>): seq<Score>
  {
    if preds == [] then [] else AddPrediction(Aggregate(preds[..|preds| - 1]), preds[|preds| - 1])
  }

  /** The aggregation loop. */
  method AggregateScores(preds: seq<Prediction>) returns (scores: seq<Score>)
    ensures scores == Aggregate(preds)
  {
    scores := [];
    var i := 0;
    while i < |preds|
      invariant 0 <= i <= |preds|
      invariant scores == Aggregate(preds[..i])
    {
      scores := AddPrediction(scores, preds[i]);
      assert preds[..i + 1][..i] == preds[..i];
      i := i + 1;
    }
    assert preds[..i] == preds;
  }

  /** The summed probability of the predictions for `loc`. */
  function SumFor(preds: seq<Prediction>, loc: string): real
  {
    if preds == [] then 0.0
    else SumFor(preds[..|preds| - 1], loc) + (if preds[|preds| - 1].location == loc then preds[|preds| - 1].probability else 0.0)
  }

  /** The methods of the predictions for `loc`. */
  function MethodsFor(preds: seq<Prediction>, loc: string): set<PredictionMethod>
  {
    set p | p in preds && p.location == loc :: p.via
  }

  function ScoreLocations(scores: seq<Score>): (ls: seq<string>)
    ensures |ls| == |scores| && forall i :: 0 <= i < |scores| ==> ls[i] == scores[i].location
  {
    seq(|scores|, i requires 0 <= i < |scores| => scores[i].location)
  }

  predicate DistinctLocations(scores: seq<Score>)
  {
    forall i, j :: 0 <= i < j < |scores| ==> scores[i].location != scores[j].location
  }

  /** The entry for `loc`, if any. */
  function Find(scores: seq<Score>, loc: string): Option<Score>
  {
    if scores == [] then None else if scores[0].location == loc then Some(scores[0]) else Find(scores[1..], loc)
  }

  /** What adding one prediction does: only its location's entry changes. */
  lemma {:induction false} AddFind(scores: seq<Score>, p: Prediction, loc: string)
    ensures Find(AddPrediction(scores, p), loc) ==
      (if loc == p.location then Some(Merged(Find(scores, loc), p)) else Find(scores, loc))
  {
    if scores != [] && scores[0].location != p.location {
      AddFind(scores[1..], p, loc);
    }
  }

  /** A new location is appended at the end; a known one keeps its place. */
  lemma {:induction false} AddLocations(scores: seq<Score>, p: Prediction)
    ensures ScoreLocations(AddPrediction(scores, p)) ==
      (if p.location in ScoreLocations(scores) then ScoreLocations(scores) else ScoreLocations(scores) + [p.location])
  {
    if scores != [] && scores[0].location != p.location {
      AddLocations(scores[1..], p);
      assert ScoreLocations(scores) == [scores[0].location] + ScoreLocations(scores[1..]);
      assert ScoreLocations(AddPrediction(scores, p)) == [scores[0].location] + ScoreLocations(AddPrediction(scores[1..], p));
    } else if scores != [] {
      assert ScoreLocations(scores)[0] == p.location;
    }
  }

  lemma AddKeepsDistinct(scores: seq<Score>, p: Prediction)
    requires DistinctLocations(scores)
    ensures DistinctLocations(AddPrediction(scores, p))
  {
    AddLocations(scores, p);
    var r := AddPrediction(scores, p);
    forall i, j | 0 <= i < j < |r| ensures r[i].location != r[j].location {
      assert ScoreLocations(r)[i] == r[i].location && ScoreLocations(r)[j] == r[j].location;
      if j < |scores| {
        assert ScoreLocations(scores)[i] == scores[i].location && ScoreLocations(scores)[j] == scores[j].location;
      }
    }
  }

  /** Each location's entry holds the sum of its predictions' probabilities
      and the methods that predicted it; entries exist exactly for predicted
      locations and never repeat. */
  lemma AggregateMeaning(preds: seq<Prediction>, loc: string)
    ensures DistinctLocations(Aggregate(preds))
    ensures Find(Aggregate(preds), loc).Some? <==> exists p :: p in preds && p.location == loc
    ensures Find(Aggregate(preds), loc).Some? ==>
      Find(Aggregate(preds), loc).value.location == loc
      && Find(Aggregate(preds), loc).value.probability == SumFor(preds, loc)
      && (set m | m in Find(Aggregate(preds), loc).value.methods) == MethodsFor(preds, loc)
  {
    AggregateDistinct(preds);
    AggregateFind(preds, loc);
  }

  lemma {:induction false} AggregateDistinct(preds: seq<Prediction>)
    ensures DistinctLocations(Aggregate(preds))
  {
    if preds != [] {
      AggregateDistinct(preds[..|preds| - 1]);
      AddKeepsDistinct(Aggregate(preds[..|preds| - 1]), preds[|preds| - 1]);
    }
  }

  /** One more prediction adds its method to its own location only. */
  lemma MethodsForSnoc(preds: seq<Prediction>, loc: string)
    requires preds != []
    ensures var last := preds[|preds| - 1];
      MethodsFor(preds, loc) == MethodsFor(preds[..|preds| - 1], loc) + (if last.location == loc then {last.via} else {})
  {
    var init, last := preds[..|preds| - 1], preds[|preds| - 1];
    assert preds == init + [last];
    assert forall p :: p in preds <==> p in init || p == last;
  }

  lemma {:induction false} AggregateFind(preds: seq<Prediction>, loc: string)
    ensures Find(Aggregate(preds), loc).Some? <==> exists p :: p in preds && p.location == loc
    ensures Find(Aggregate(preds), loc).Some? ==>
      Find(Aggregate(preds), loc).value.location == loc
      && Find(Aggregate(preds), loc).value.probability == SumFor(preds, loc)
      && (set m | m in Find(Aggregate(preds), loc).value.methods) == MethodsFor(preds, loc)
  {
    if preds != [] {
      var init := preds[..|preds| - 1];
      var last := preds[|preds| - 1];
      AggregateFind(init, loc);
      AddFind(Aggregate(init), last, loc);
      MethodsForSnoc(preds, loc);
      assert preds == init + [last];
      if loc == last.location {
        if Find(Aggregate(init), loc).None? {
          assert MethodsFor(init, loc) == {};
          SumForAbsent(init, loc);
        }
      } else {
        assert forall p :: p in preds && p.location == loc ==> p in init;
      }
    }
  }

  lemma {:induction false} SumForAbsent(preds: seq<Prediction>, loc: string)
    requires forall p :: p in preds ==> p.location != loc
    ensures SumFor(preds, loc) == 0.0
  {
    if preds != [] {
      assert preds[|preds| - 1] in preds;
      assert forall p :: p in preds[..|preds| - 1] ==> p in preds;
      SumForAbsent(preds[..|preds| - 1], loc);
    }
  }

  /** An entry of a list with distinct locations is what `Find` returns for it. */
  lemma {:induction false} FindAt(scores: seq<Score>, i: nat)
    requires DistinctLocations(scores) && i < |scores|
    ensures Find(scores, scores[i].location) == Some(scores[i])
  {
    if i > 0 {
      FindAt(scores[1..], i - 1);
    }
  }

  // ---------------------------------------------------------------------
  // Final ranking
  // ---------------------------------------------------------------------

  datatype Level = High | Medium | Low

  /** The confidence label of a summed (uncapped) probability. */
  function LevelOf(sum: real): Level
  {
    if sum > 0.7 then High else if sum > 0.4 then Medium else Low
  }

  /** A reported prediction; `methods_used` is a set. */
  datatype Ranked = Ranked(location: string, probability: real, confidence: Level, methodsUsed: set<PredictionMethod>)

  /** `min(probability, 1.0)` and the label of the uncapped sum. */
  function Finalize(s: Score): (r: Ranked)
    ensures r.location == s.location && r.confidence == LevelOf(s.probability)
    ensures r.probability <= 1.0 && r.probability <= s.probability
    ensures s.probability <= 1.0 ==> r.probability == s.probability
    ensures r.methodsUsed == set m | m in s.methods
  {
    Ranked(s.location, if s.probability <= 1.0 then s.probability else 1.0, LevelOf(s.probability), set m | m in s.methods)
  }

  function FinalizeAll(scores: seq<Score>): (rs: seq<Ranked>)
    ensures |rs| == |scores| && forall i :: 0 <= i < |scores| ==> rs[i] == Finalize(scores[i])
  {
    seq(|scores|, i requires 0 <= i < |scores| => Finalize(scores[i]))
  }

  /** Capping changes nothing about the label: it is High exactly when the
      reported probability exceeds 0.7, Medium exactly when it lies in
      (0.4, 0.7], and Low otherwise. */
  lemma LabelMatchesReported(s: Score)
    ensures Finalize(s).confidence == LevelOf(Finalize(s).probability)
  {
  }

  function Probability(r: Ranked): real { r.probability }

  datatype PredictionError = InsufficientData | MissingCurrentLocation

  datatype LocationForecast =
    | PredictFailed(reason: PredictionError)
    | Forecast(currentLocation: string, predicted: seq<Ranked>, dataPointsAnalyzed: nat)

  /** `predict_next_location`, given the timeline lookup and the current hour. */
  function PredictNextLocation(timeline: Option<Timeline>, currentHour: Hour): LocationForecast
  {
    if timeline.None? || timeline.value.activities.None? || timeline.value.activities.value == [] then
      PredictFailed(InsufficientData)
    else if timeline.value.currentLocation.None? then
      PredictFailed(MissingCurrentLocation)
    else
      var acts := timeline.value.activities.value;
      var current := timeline.value.currentLocation.value;
      var ranked := FinalizeAll(Aggregate(AllPredictions(acts, currentHour, current)));
      Forecast(current, Ranking.Take(Ranking.SortDesc(ranked, Probability), 5), |acts|)
  }

  /** The loop that caps each entry and labels it. */
  method FinalizeScores(scores: seq<Score>) returns (ranked: seq<Ranked>)
    ensures ranked == FinalizeAll(scores)
  {
    ranked := [];
    var i := 0;
    while i < |scores|
      invariant 0 <= i <= |scores|
      invariant ranked == FinalizeAll(scores[..i])
    {
      assert FinalizeAll(scores[..i + 1]) == FinalizeAll(scores[..i]) + [Finalize(scores[i])];
      ranked := ranked + [Finalize(scores[i])];
      i := i + 1;
    }
    assert scores[..i] == scores;
  }

  /** The whole computation: count, predict, aggregate, finalise, sort. */
  method PredictNext(timeline: Option<Timeline>, currentHour: Hour) returns (r: LocationForecast)
    ensures r == PredictNextLocation(timeline, currentHour)
  {
    if timeline.None? || timeline.value.activities.None? || timeline.value.activities.value == [] {
      return PredictFailed(InsufficientData);
    }
    var acts := timeline.value.activities.value;
    var frequency, byHour, transitions := CountPatterns(acts);
    if timeline.value.currentLocation.None? {
      return PredictFailed(MissingCurrentLocation);
    }
    var current := timeline.value.currentLocation.value;
    TransitionsPositive(acts);
    var predictions := TimePredictions(byHour, currentHour)
      + TransitionPredictions(transitions, current)
      + FrequencyPredictions(frequency, |acts|);
    var scores := AggregateScores(predictions);
    var ranked := FinalizeScores(scores);
    r := Forecast(current, Ranking.Take(Ranking.SortDesc(ranked, Probability), 5), |acts|);
  }

  /** The failure cases: no timeline or no activities, then a missing current
      location. */
  lemma ForecastFails(timeline: Option<Timeline>, currentHour: Hour)
    ensures PredictNextLocation(timeline, currentHour) == PredictFailed(InsufficientData) <==>
      timeline.None? || timeline.value.activities.None? || timeline.value.activities.value == []
    ensures PredictNextLocation(timeline, currentHour).PredictFailed? <==>
      timeline.None? || timeline.value.activities.None? || timeline.value.activities.value == []
      || timeline.value.currentLocation.None?
  {
  }

  /** Every aggregated entry carries its location's summed probability, and
      some prediction named that location. */
  lemma EntryMeaning(preds: seq<Prediction>, i: nat)
    requires i < |Aggregate(preds)|
    ensures var s := Aggregate(preds)[i];
      s.probability == SumFor(preds, s.location) && exists p :: p in preds && p.location == s.location
  {
    var scores := Aggregate(preds);
    AggregateMeaning(preds, scores[i].location);
    FindAt(scores, i);
  }

  /** The property every reported entry has, before sorting and truncation. */
  predicate WellReported(x: Ranked, acts: seq<Activity>, preds: seq<Prediction>)
  {
    var sum := SumFor(preds, x.location);
    x.location in Locations(acts) && 0.0 < x.probability <= 1.0
    && x.probability == (if sum <= 1.0 then sum else 1.0) && x.confidence == LevelOf(sum)
  }

  lemma RankedFacts(acts: seq<Activity>, currentHour: Hour, current: string)
    ensures var preds := AllPredictions(acts, currentHour, current);
      forall x :: x in FinalizeAll(Aggregate(preds)) ==> WellReported(x, acts, preds)
  {
    var preds := AllPredictions(acts, currentHour, current);
    var scores := Aggregate(preds);
    var ranked := FinalizeAll(scores);
    PredictionBounds(acts, currentHour, current);
    forall x | x in ranked ensures WellReported(x, acts, preds) {
      var i :| 0 <= i < |ranked| && ranked[i] == x;
      EntryMeaning(preds, i);
      var p :| p in preds && p.location == scores[i].location;
      SumForPositive(preds, scores[i].location, p);
    }
  }

  /** A forecast lists between one and five visited locations, most probable
      first, each with a probability in (0, 1] that is its summed probability
      capped at 1 and labelled from that sum; it reports the number of
      activities analysed. */
  lemma ForecastShape(acts: seq<Activity>, current: string, currentHour: Hour)
    requires acts != []
    ensures var r := PredictNextLocation(Some(Timeline(Some(acts), Some(current))), currentHour);
      r.Forecast? && r.dataPointsAnalyzed == |acts| && r.currentLocation == current
      && 1 <= |r.predicted| <= 5
      && Ranking.SortedDesc(r.predicted, Probability)
      && forall x :: x in r.predicted ==> WellReported(x, acts, AllPredictions(acts, currentHour, current))
  {
    var preds := AllPredictions(acts, currentHour, current);
    var ranked := FinalizeAll(Aggregate(preds));
    var sorted := Ranking.SortDesc(ranked, Probability);
    var top := Ranking.Take(sorted, 5);
    PredictionBounds(acts, currentHour, current);
    RankedFacts(acts, currentHour, current);
    AggregateMeaning(preds, preds[0].location);
    assert preds[0] in preds;
    assert |ranked| >= 1;
    Ranking.TopOfSorted(ranked, 5, Probability);
  }

  /** The summed probability of a predicted location is positive. */
  lemma {:induction false} SumForPositive(preds: seq<Prediction>, loc: string, p: Prediction)
    requires forall q :: q in preds ==> q.probability > 0.0
    requires p in preds && p.location == loc
    ensures SumFor(preds, loc) > 0.0
  {
    var init := preds[..|preds| - 1];
    assert forall q :: q in init ==> q in preds;
    if p in init {
      SumForPositive(init, loc, p);
      SumForNonNegative(init, loc);
    } else {
      SumForNonNegative(init, loc);
    }
  }

  lemma {:induction false} SumForNonNegative(preds: seq<Prediction>, loc: string)
    requires forall q :: q in preds ==> q.probability > 0.0
    ensures SumFor(preds, loc) >= 0.0
  {
    if preds != [] {
      assert forall q :: q in preds[..|preds| - 1] ==> q in preds;
      assert preds[|preds| - 1] in preds;
      SumForNonNegative(preds[..|preds| - 1], loc);
    }
  }

  // ---------------------------------------------------------------------
  // detect_anomalies
  // ---------------------------------------------------------------------

  /** One reported anomaly. The z-score is a square root and is not carried:
      the rule and the severity are decided on squares, which is the same
      test for a positive standard deviation. */
  datatype Anomaly =
    | UnusualTimePattern(hour: Hour, count: nat, severity: Level)
    | RareLocation(location: string, count: nat)
    | UnusualGap(gapHours: real, averageGap: real)

  function Times(acts: seq<Activity>): (ts: seq<int>)
    ensures |ts| == |acts| && forall i :: 0 <= i < |acts| ==> ts[i] == acts[i].time
  {
    seq(|acts|, i requires 0 <= i < |acts| => acts[i].time)
  }

  /** The baseline loop: activity per hour, visits per location and
      detections per type, each in first-seen order. */
  method Baseline(acts: seq<Activity>)
    returns (hourActivity: seq<(Hour, nat)>, locationFrequency: seq<(string, nat)>, typeFrequency: seq<(string, nat)>)
    ensures hourActivity == Tally.Tally(Hours(acts))
    ensures locationFrequency == Tally.Tally(Locations(acts))
    ensures typeFrequency == Tally.Tally(DetectionTypes(acts))
  {
    hourActivity, locationFrequency, typeFrequency := [], [], [];
    var i := 0;
    while i < |acts|
      invariant 0 <= i <= |acts|
      invariant hourActivity == Tally.Tally(Hours(acts[..i]))
      invariant locationFrequency == Tally.Tally(Locations(acts[..i]))
      invariant typeFrequency == Tally.Tally(DetectionTypes(acts[..i]))
    {
      hourActivity := Tally.Bump(hourActivity, acts[i].hour);
      locationFrequency := Tally.Bump(locationFrequency, acts[i].location);
      typeFrequency := Tally.Bump(typeFrequency, acts[i].detectionType);
      assert acts[..i + 1][..i] == acts[..i];
      assert Hours(acts[..i + 1])[..i] == Hours(acts[..i]);
      assert Locations(acts[..i + 1])[..i] == Locations(acts[..i]);
      assert DetectionTypes(acts[..i + 1])[..i] == DetectionTypes(acts[..i]);
      i := i + 1;
    }
    assert acts[..i] == acts;
  }

  function Square(x: real): (r: real)
    ensures r >= 0.0
  {
    x * x
  }

  /** `statistics.mean` of the per-hour counts, 0 when there are none. */
  function MeanCount(t: seq<(Hour, nat)>): real
  {
    if t == [] then 0.0 else Tally.Total(t) as real / |t| as real
  }

  /** Sum of the squared deviations of the counts from `mean`. */
  function SquaredDeviation(t: seq<(Hour, nat)>, mean: real): (r: real)
    ensures r >= 0.0
  {
    if t == [] then 0.0 else SquaredDeviation(t[..|t| - 1], mean) + Square(t[|t| - 1].1 as real - mean)
  }

  /** The square of `statistics.stdev` (the sample variance) when there are
      at least two hours, and 0 otherwise. */
  function Variance(t: seq<(Hour, nat)>): real
  {
    if |t| > 1 then SquaredDeviation(t, MeanCount(t)) / (|t| - 1) as real else 0.0
  }

  /** The rule for one hour: with a positive deviation, |z| > 2 flags it,
      as medium below |z| = 3 and high from there on. */
  function TimeFlag(e: (Hour, nat), mean: real, variance: real): seq<Anomaly>
  {
    var d := Square(e.1 as real - mean);
    if variance > 0.0 && d > 4.0 * variance then
      [UnusualTimePattern(e.0, e.1, if d < 9.0 * variance then Medium else High)]
    else []
  }

  function TimeAnomalies(t: seq<(Hour, nat)>, mean: real, variance: real): seq<Anomaly>
  {
    if t == [] then [] else TimeAnomalies(t[..|t| - 1], mean, variance) + TimeFlag(t[|t| - 1], mean, variance)
  }

  /** The rule for one location: seen more than once, yet in under 5% of the
      activities. */
  function RareFlag(e: (string, nat), total: nat): seq<Anomaly>
    requires total > 0
  {
    if (e.1 as real) / (total as real) < 0.05 && e.1 > 1 then [RareLocation(e.0, e.1)] else []
  }

  function RareAnomalies(t: seq<(string, nat)>, total: nat): seq<Anomaly>
    requires total > 0
  {
    if t == [] then [] else RareAnomalies(t[..|t| - 1], total) + RareFlag(t[|t| - 1], total)
  }

  function Abs(x: int): nat { if x < 0 then -x else x }

  /** The gaps, in hours, between consecutive timestamps. */
  function Gaps(ts: seq<int>): (gs: seq<real>)
    ensures |gs| == if |ts| < 2 then 0 else |ts| - 1
    ensures forall i :: 0 <= i < |gs| ==> gs[i] >= 0.0
  {
    if |ts| < 2 then [] else Gaps(ts[..|ts| - 1]) + [Abs(ts[|ts| - 2] - ts[|ts| - 1]) as real / 3600.0]
  }

  function Sum(s: seq<real>): real
  {
    if s == [] then 0.0 else Sum(s[..|s| - 1]) + s[|s| - 1]
  }

  /** `statistics.mean`. */
  function Mean(s: seq<real>): real
    requires s != []
  {
    Sum(s) / |s| as real
  }

  /** The rule for one gap: more than three times the average gap. */
  function GapAnomalies(gaps: seq<real>, average: real): seq<Anomaly>
  {
    if gaps == [] then []
    else
      var last := gaps[|gaps| - 1];
      GapAnomalies(gaps[..|gaps| - 1], average) + (if last > average * 3.0 then [UnusualGap(last, average)] else [])
  }

  /** The key that sorts timestamps earliest first. */
  function Earliest(t: int): real { -(t as real) }

  /** `timestamps.sort()`. */
  function SortTimes(ts: seq<int>): (r: seq<int>)
    ensures |r| == |ts| && multiset(r) == multiset(ts)
    ensures forall i, j :: 0 <= i < j < |r| ==> r[i] <= r[j]
  {
    var r := Ranking.SortDesc(ts, Earliest);
    Ranking.SortDescPermutes(ts, Earliest);
    assert forall i, j :: 0 <= i < j < |r| ==> Earliest(r[i]) >= Earliest(r[j]);
    r
  }

  datatype AnomalyReport =
    | InsufficientAnomalyData
    | Anomalies(anomaliesDetected: nat, anomalies: seq<Anomaly>, periodStart: int, periodEnd: int,
                totalActivities: nat, avgHourlyActivity: real,
                mostCommonLocations: seq<string>, mostCommonDetectionTypes: seq<string>)

  lemma HourTallyNonEmpty(acts: seq<Activity>)
    requires acts != []
    ensures Tally.Tally(Hours(acts)) != []
  {
    Tally.TallyNonEmpty(Hours(acts));
  }

  /** The anomalies of a non-empty timeline: hours first, then rare
      locations, then long gaps between sorted timestamps. */
  function FoundAnomalies(acts: seq<Activity>): seq<Anomaly>
    requires acts != []
  {
    var hourly := Tally.Tally(Hours(acts));
    TimeAnomalies(hourly, MeanCount(hourly), Variance(hourly))
      + RareAnomalies(Tally.Tally(Locations(acts)), |acts|)
      + (if |acts| > 1 then
           var gaps := Gaps(SortTimes(Times(acts)));
           GapAnomalies(gaps, Mean(gaps))
         else [])
  }

  /** `detect_anomalies`, given the timeline lookup. */
  function DetectAnomaliesOf(timeline: Option<Timeline>): AnomalyReport
  {
    if timeline.None? || timeline.value.activities.None? || timeline.value.activities.value == [] then
      InsufficientAnomalyData
    else
      var acts := timeline.value.activities.value;
      var found := FoundAnomalies(acts);
      var hourly := Tally.Tally(Hours(acts));
      Anomalies(|found|, found, acts[|acts| - 1].time, acts[0].time, |acts|, MeanCount(hourly),
        Common.Keys(Ranking.MostCommon(Tally.Tally(Locations(acts)), 3)),
        Common.Keys(Ranking.MostCommon(Tally.Tally(DetectionTypes(acts)), 3)))
  }

  method FlagHours(t: seq<(Hour, nat)>, mean: real, variance: real) returns (found: seq<Anomaly>)
    ensures found == TimeAnomalies(t, mean, variance)
  {
    found := [];
    var i := 0;
    while i < |t|
      invariant 0 <= i <= |t|
      invariant found == TimeAnomalies(t[..i], mean, variance)
    {
      assert t[..i + 1][..i] == t[..i];
      found := found + TimeFlag(t[i], mean, variance);
      i := i + 1;
    }
    assert t[..i] == t;
  }

  method FlagRare(t: seq<(string, nat)>, total: nat) returns (found: seq<Anomaly>)
    requires total > 0
    ensures found == RareAnomalies(t, total)
  {
    found := [];
    var i := 0;
    while i < |t|
      invariant 0 <= i <= |t|
      invariant found == RareAnomalies(t[..i], total)
    {
      assert t[..i + 1][..i] == t[..i];
      found := found + RareFlag(t[i], total);
      i := i + 1;
    }
    assert t[..i] == t;
  }

  /** The loop `for i in range(len(timestamps) - 1)`. */
  method GapLoop(ts: seq<int>) returns (gaps: seq<real>)
    requires ts != []
    ensures gaps == Gaps(ts)
  {
    gaps := [];
    var i := 0;
    while i < |ts| - 1
      invariant 0 <= i < |ts|
      invariant gaps == Gaps(ts[..i + 1])
    {
      assert ts[..i + 2][..i + 1] == ts[..i + 1];
      gaps := gaps + [Abs(ts[i] - ts[i + 1]) as real / 3600.0];
      i := i + 1;
    }
    assert ts[..i + 1] == ts;
  }

  method FlagGaps(gaps: seq<real>, average: real) returns (found: seq<Anomaly>)
    ensures found == GapAnomalies(gaps, average)
  {
    found := [];
    var i := 0;
    while i < |gaps|
      invariant 0 <= i <= |gaps|
      invariant found == GapAnomalies(gaps[..i], average)
    {
      assert gaps[..i + 1][..i] == gaps[..i];
      if gaps[i] > average * 3.0 {
        found := found + [UnusualGap(gaps[i], average)];
      }
      i := i + 1;
    }
    assert gaps[..i] == gaps;
  }

  /** The whole analysis: baseline loop, then the three rules in order. */
  method DetectAnomalies(timeline: Option<Timeline>) returns (r: AnomalyReport)
    ensures r == DetectAnomaliesOf(timeline)
  {
    if timeline.None? || timeline.value.activities.None? || timeline.value.activities.value == [] {
      return InsufficientAnomalyData;
    }
    var acts := timeline.value.activities.value;
    var hourly, locations, types := Baseline(acts);
    var mean := MeanCount(hourly);
    var found := FlagHours(hourly, mean, Variance(hourly));
    var rare := FlagRare(locations, |acts|);
    found := found + rare;
    if |acts| > 1 {
      var gaps := GapLoop(SortTimes(Times(acts)));
      var long := FlagGaps(gaps, Mean(gaps));
      found := found + long;
    }
    assert found == FoundAnomalies(acts);
    r := Anomalies(|found|, found, acts[|acts| - 1].time, acts[0].time, |acts|, mean,
      Common.Keys(Ranking.MostCommon(locations, 3)), Common.Keys(Ranking.MostCommon(types, 3)));
  }

  /** The analysis fails exactly when there are no activities; otherwise it
      reports every anomaly found, the activity count and the time span from
      the last activity listed to the first. */
  lemma AnomalyReportShape(timeline: Option<Timeline>)
    ensures DetectAnomaliesOf(timeline) == InsufficientAnomalyData <==>
      timeline.None? || timeline.value.activities.None? || timeline.value.activities.value == []
    ensures DetectAnomaliesOf(timeline).Anomalies? ==>
      var acts := timeline.value.activities.value;
      var r := DetectAnomaliesOf(timeline);
      r.anomaliesDetected == |r.anomalies| && r.totalActivities == |acts| && |r.mostCommonLocations| <= 3
      && r.periodStart == acts[|acts| - 1].time && r.periodEnd == acts[0].time
  {
  }

  /** The average hourly activity is the number of activities divided by the
      number of distinct hours. */
  lemma AverageHourly(hours: seq<Hour>)
    requires hours != []
    ensures MeanCount(Tally.Tally(hours)) == |hours| as real / |Tally.Distinct(hours)| as real
  {
    var t := Tally.Tally(hours);
    Tally.TallyTotal(hours);
    Tally.TallyKeys(hours);
    assert |Common.Keys(t)| == |t|;
    assert t != [] by {
      Tally.DistinctMembers(hours);
      assert hours[0] in hours;
    }
  }

  lemma DivTimes(a: real, b: real)
    requires b != 0.0
    ensures (a / b) * b == a
  {
  }

  lemma MulLe(a: real, b: real, x: real)
    requires a <= b && x >= 0.0
    ensures a * x <= b * x
  {
  }

  lemma MulLt(a: real, b: real, x: real)
    requires a < b && x > 0.0
    ensures a * x < b * x
  {
  }

  lemma {:induction false} NoVarianceNoFlags(t: seq<(Hour, nat)>, mean: real, variance: real)
    requires variance <= 0.0
    ensures TimeAnomalies(t, mean, variance) == []
  {
    if t != [] {
      NoVarianceNoFlags(t[..|t| - 1], mean, variance);
    }
  }

  /** Each flagged hour deviates by more than twice the standard deviation,
      so the flagged hours use up at least four variances of the squared
      deviation each. */
  lemma {:induction false} FlaggedDeviation(t: seq<(Hour, nat)>, mean: real, variance: real)
    ensures Repeat(|TimeAnomalies(t, mean, variance)|, 4.0 * variance) <= SquaredDeviation(t, mean)
  {
    if t == [] {
    } else {
      var init, last := t[..|t| - 1], t[|t| - 1];
      FlaggedDeviation(init, mean, variance);
      FlagStep(t, mean, variance);
      CountStep(|TimeAnomalies(init, mean, variance)|, |TimeAnomalies(t, mean, variance)|, 4.0 * variance,
        SquaredDeviation(init, mean), Square(last.1 as real - mean));
    }
  }

  /** The last hour adds its squared deviation to the total and is flagged
      only when that exceeds four variances. */
  lemma FlagStep(t: seq<(Hour, nat)>, mean: real, variance: real)
    requires t != []
    ensures var init, d := t[..|t| - 1], Square(t[|t| - 1].1 as real - mean);
      var n := |TimeAnomalies(init, mean, variance)|;
      && SquaredDeviation(t, mean) == SquaredDeviation(init, mean) + d
      && (|TimeAnomalies(t, mean, variance)| == n
          || (|TimeAnomalies(t, mean, variance)| == n + 1 && d > 4.0 * variance))
  {
    var flag := TimeFlag(t[|t| - 1], mean, variance);
    assert |flag| == 0 || (|flag| == 1 && Square(t[|t| - 1].1 as real - mean) > 4.0 * variance);
  }

  /** `n` copies of `w` added up. */
  function Repeat(n: nat, w: real): real
  {
    if n == 0 then 0.0 else Repeat(n - 1, w) + w
  }

  lemma {:induction false} RepeatIsProduct(n: nat, w: real)
    ensures Repeat(n, w) == (n as real) * w
  {
    if n > 0 {
      RepeatIsProduct(n - 1, w);
      assert (n as real) * w == ((n - 1) as real) * w + w;
    }
  }

  /** One more deviation `d`, flagged only when it exceeds `w`, keeps the
      flagged share within the running total. */
  lemma CountStep(n: nat, flagged: nat, w: real, total: real, d: real)
    requires Repeat(n, w) <= total && d >= 0.0
    requires flagged == n || (flagged == n + 1 && d > w)
    ensures Repeat(flagged, w) <= total + d
  {
  }

  /** The counting step of Chebyshev's bound: `n` deviations of more than
      four variances each fit in `k - 1` variances only if 4n <= k - 1. */
  lemma ChebyshevCount(n: nat, k: nat, v: real, sq: real)
    requires k > 1 && v > 0.0 && v * (k - 1) as real == sq
    requires Repeat(n, 4.0 * v) <= sq
    ensures 4 * n <= k - 1
  {
    RepeatIsProduct(n, 4.0 * v);
    assert (n as real) * (4.0 * v) == (4 * n) as real * v;
    if 4 * n > k - 1 {
      MulLt((k - 1) as real, (4 * n) as real, v);
    }
  }

  /** Chebyshev's bound: fewer than a quarter of the hours seen can be flagged
      as unusual, so none are flagged with fewer than five distinct hours. */
  lemma FewUnusualHours(t: seq<(Hour, nat)>)
    requires t != []
    ensures 4 * |TimeAnomalies(t, MeanCount(t), Variance(t))| <= |t| - 1
  {
    var mean, v := MeanCount(t), Variance(t);
    if v <= 0.0 {
      NoVarianceNoFlags(t, mean, v);
    } else {
      var sq := SquaredDeviation(t, mean);
      FlaggedDeviation(t, mean, v);
      DivTimes(sq, (|t| - 1) as real);
      ChebyshevCount(|TimeAnomalies(t, mean, v)|, |t|, v, sq);
    }
  }

  /** A flagged gap exceeds three average gaps, and the flagged ones together
      make up at most the total; when any is flagged, strictly less. */
  lemma {:induction false} FlaggedGaps(gaps: seq<real>, average: real)
    requires forall i :: 0 <= i < |gaps| ==> gaps[i] >= 0.0
    ensures Repeat(|GapAnomalies(gaps, average)|, 3.0 * average) <= Sum(gaps)
    ensures GapAnomalies(gaps, average) != [] ==> Repeat(|GapAnomalies(gaps, average)|, 3.0 * average) < Sum(gaps)
  {
    if gaps != [] {
      var init, last := gaps[..|gaps| - 1], gaps[|gaps| - 1];
      FlaggedGaps(init, average);
      var n, flagged := |GapAnomalies(init, average)|, |GapAnomalies(gaps, average)|;
      assert flagged == n || (flagged == n + 1 && last > 3.0 * average);
      GapStep(n, flagged, 3.0 * average, Sum(init), last);
    }
  }

  /** One more gap `g`, flagged only when it exceeds `w`: the flagged share
      stays within the running total, strictly once something is flagged. */
  lemma GapStep(n: nat, flagged: nat, w: real, total: real, g: real)
    requires Repeat(n, w) <= total && (n > 0 ==> Repeat(n, w) < total) && g >= 0.0
    requires flagged == n || (flagged == n + 1 && g > w)
    ensures Repeat(flagged, w) <= total + g
    ensures flagged > 0 ==> Repeat(flagged, w) < total + g
  {
  }

  lemma {:induction false} SumNonNegative(s: seq<real>)
    requires forall i :: 0 <= i < |s| ==> s[i] >= 0.0
    ensures Sum(s) >= 0.0
  {
    if s != [] {
      SumNonNegative(s[..|s| - 1]);
    }
  }

  /** The counting step of Markov's bound: `n > 0` values of more than three
      averages each fit in a total of `k` averages only if 3n < k. */
  lemma MarkovCount(n: nat, k: nat, avg: real, total: real)
    requires k > 0 && avg * k as real == total && total >= 0.0
    requires Repeat(n, 3.0 * avg) <= total
    requires n > 0 ==> Repeat(n, 3.0 * avg) < total
    ensures 3 * n < k
  {
    RepeatIsProduct(n, 3.0 * avg);
    if avg < 0.0 {
      MulLt(avg, 0.0, k as real);
    }
    assert (n as real) * (3.0 * avg) == (3 * n) as real * avg;
    if n > 0 && 3 * n >= k {
      MulLe(k as real, (3 * n) as real, avg);
    }
  }

  /** Markov's bound: fewer than a third of the gaps can be more than three
      times the average gap. */
  lemma FewLongGaps(gaps: seq<real>)
    requires gaps != []
    requires forall i :: 0 <= i < |gaps| ==> gaps[i] >= 0.0
    ensures 3 * |GapAnomalies(gaps, Mean(gaps))| < |gaps|
  {
    var avg := Mean(gaps);
    FlaggedGaps(gaps, avg);
    SumNonNegative(gaps);
    DivTimes(Sum(gaps), |gaps| as real);
    MarkovCount(|GapAnomalies(gaps, avg)|, |gaps|, avg, Sum(gaps));
  }

  /** Over timestamps sorted earliest first, the gaps add up to the time
      between the first and the last, in hours. */
  lemma {:induction false} GapsSpan(ts: seq<int>)
    requires ts != []
    requires forall i, j :: 0 <= i < j < |ts| ==> ts[i] <= ts[j]
    ensures Sum(Gaps(ts)) * 3600.0 == (ts[|ts| - 1] - ts[0]) as real
  {
    if |ts| >= 2 {
      var init := ts[..|ts| - 1];
      GapsSpan(init);
      assert Gaps(ts)[..|Gaps(ts)| - 1] == Gaps(init);
    }
  }

  /** The exact-arithmetic form of `count / total < 0.05`. */
  lemma RatioBelowTwentieth(count: nat, total: nat)
    requires total > 0
    ensures (count as real) / (total as real) < 0.05 <==> 20 * count < total
  {
    var q := (count as real) / (total as real);
    DivTimes(count as real, total as real);
    if q < 0.05 {
      MulLt(q, 0.05, total as real);
    } else {
      MulLe(0.05, q, total as real);
    }
  }

  /** The rare-location entries are exactly the flagged tally entries. */
  lemma {:induction false} RareEntries(t: seq<(string, nat)>, total: nat)
    requires total > 0
    ensures forall a :: a in RareAnomalies(t, total) ==>
      a.RareLocation? && (a.location, a.count) in t && 1 < a.count && 20 * a.count < total
    ensures forall e :: e in t && 1 < e.1 && 20 * e.1 < total ==> RareLocation(e.0, e.1) in RareAnomalies(t, total)
  {
    if t != [] {
      var init := t[..|t| - 1];
      var e := t[|t| - 1];
      RareEntries(init, total);
      RatioBelowTwentieth(e.1, total);
      assert t == init + [e];
    }
  }

  /** A location is reported as rare exactly when it was visited more than
      once but in fewer than one activity in twenty; reporting one therefore
      takes more than forty activities. */
  lemma RareMeaning(acts: seq<Activity>, loc: string)
    requires acts != []
    ensures var c := Tally.Count(Locations(acts), loc);
      RareLocation(loc, c) in RareAnomalies(Tally.Tally(Locations(acts)), |acts|) <==> 1 < c && 20 * c < |acts|
    ensures forall a :: a in RareAnomalies(Tally.Tally(Locations(acts)), |acts|) ==>
      a.RareLocation? && a.count == Tally.Count(Locations(acts), a.location) && |acts| > 40
  {
    var ls := Locations(acts);
    var t := Tally.Tally(ls);
    var c := Tally.Count(ls, loc);
    RareEntries(t, |acts|);
    Tally.TallyCounts(ls);
    Tally.TallyKeys(ls);
    Tally.DistinctMembers(ls);
    forall e | e in t ensures e.1 == Tally.Count(ls, e.0) {
      var i :| 0 <= i < |t| && t[i] == e;
      Tally.LookupAt(t, i);
    }
    if 1 < c {
      assert loc in ls by {
        if loc !in ls {
          CountAbsent(ls, loc);
        }
      }
      assert loc in Common.Keys(t);
      var i :| 0 <= i < |t| && Common.Keys(t)[i] == loc;
      assert t[i] == (loc, c) by { Tally.LookupAt(t, i); }
    }
  }

  lemma {:induction false} CountAbsent<K>(s: seq<K>, x: K)
    requires x !in s
    ensures Tally.Count(s, x) == 0
  {
    if s != [] {
      CountAbsent(s[..|s| - 1], x);
    }
  }

  /** A location missing from `most_common_locations` was visited no more
      often than each of the three that are listed. */
  lemma CommonLocationsAreTop(timeline: Option<Timeline>, loc: string)
    requires DetectAnomaliesOf(timeline).Anomalies?
    requires loc in Locations(timeline.value.activities.value)
    requires loc !in DetectAnomaliesOf(timeline).mostCommonLocations
    ensures var ls := Locations(timeline.value.activities.value);
      var listed := DetectAnomaliesOf(timeline).mostCommonLocations;
      |listed| == 3 && forall i :: 0 <= i < 3 ==> Tally.Count(ls, listed[i]) >= Tally.Count(ls, loc)
  {
    Ranking.TopOfTally(Locations(timeline.value.activities.value), 3, loc);
  }

  // ---------------------------------------------------------------------
  // infer_missing_data
  // ---------------------------------------------------------------------

  /** The profile fields the inference reads. */
  datatype Profile = Profile(department: Option<string>, email: Option<string>)

  /** One inferred field, with the figures its evidence quotes. */
  datatype Inference =
    | Department(value: string)
    | TypicalActiveHours(slots: seq<string>, dataPoints: nat)
    | PrimaryLocations(locations: seq<string>, visits: nat)
    | LikelyRole(labBookings: nat, activities: nat)

  /** The fixed confidence of each rule; all lie above the 0.6 threshold the
      report announces. */
  function InferenceConfidence(i: Inference): (c: real)
    ensures 0.6 < c < 1.0
    ensures i.PrimaryLocations? <==> c == 0.9
  {
    match i
    case Department(_) => 0.7
    case TypicalActiveHours(_, _) => 0.85
    case PrimaryLocations(_, _) => 0.9
    case LikelyRole(_, _) => 0.75
  }

  /** The department rule: only for a missing department and a non-empty
      email, "eng" checked before "sci", case-insensitively. */
  function DepartmentFromEmail(profile: Profile): seq<Inference>
  {
    if !Truthy(profile.department) && Truthy(profile.email) then
      var e := Lower(profile.email.value);
      if Contains(e, "eng") then [Department("Engineering")]
      else if Contains(e, "sci") then [Department("Science")]
      else []
    else []
  }

  /** The slot label of an hour, `HH:00-HH:00`, wrapping 23 to 00. */
  function SlotLabel(h: Hour): (slot: string)
    ensures |slot| == 11
  {
    Pad2(h) + ":00-" + Pad2((h + 1) % 24) + ":00"
  }

  /** Reads a two-digit hour back from the front of a label. */
  function LeadingHour(slot: string): int
    requires |slot| >= 2
  {
    (slot[0] as int - '0' as int) * 10 + (slot[1] as int - '0' as int)
  }

  /** A slot label names its hour and the next one, so different hours get
      different labels. */
  lemma SlotRoundTrip(h: Hour)
    ensures LeadingHour(SlotLabel(h)) == h
    ensures LeadingHour(SlotLabel(h)[6..]) == (h + 1) % 24
    ensures SlotLabel(h)[2..6] == ":00-" && SlotLabel(h)[8..] == ":00"
  {
    var l := SlotLabel(h);
    var next := (h + 1) % 24;
    assert l[0] == DigitChar(h / 10) && l[1] == DigitChar(h % 10);
    assert l[6] == DigitChar(next / 10) && l[7] == DigitChar(next % 10);
  }

  function Slots(peak: seq<(Hour, nat)>): (labels: seq<string>)
    ensures |labels| == |peak| && forall i :: 0 <= i < |peak| ==> labels[i] == SlotLabel(peak[i].0)
  {
    seq(|peak|, i requires 0 <= i < |peak| => SlotLabel(peak[i].0))
  }

  /** The schedule and location rules over a non-empty timeline: the three
      busiest hours (a stable sort by count, which is `most_common(3)`) and
      the two most visited locations with their total visits. */
  function ScheduleInferences(hourCounts: seq<(Hour, nat)>, acts: seq<Activity>): seq<Inference>
  {
    var peak := Ranking.MostCommon(hourCounts, 3);
    var primary := Ranking.MostCommon(Tally.Tally(Locations(acts)), 2);
    (if peak != [] then [TypicalActiveHours(Slots(peak), |acts|)] else [])
    + (if primary != [] then [PrimaryLocations(Common.Keys(primary), Tally.Total(primary))] else [])
  }

  /** The role rule: lab bookings in more than 30% of the activities. */
  function RoleInferences(acts: seq<Activity>): seq<Inference>
  {
    var labs := Tally.Count(DetectionTypes(acts), "lab_bookings");
    if labs as real > |acts| as real * 0.3 then [LikelyRole(labs, |acts|)] else []
  }

  datatype InferenceReport =
    | EntityNotFound
    | Inferred(inferencesCount: nat, inferences: seq<Inference>)

  function TimelineActivities(timeline: Option<Timeline>): seq<Activity>
  {
    if timeline.Some? && timeline.value.activities.Some? then timeline.value.activities.value else []
  }

  /** `infer_missing_data`, given the profile and timeline lookups. */
  function InferMissingDataOf(profile: Option<Profile>, timeline: Option<Timeline>): InferenceReport
  {
    if profile.None? then EntityNotFound
    else
      var acts := TimelineActivities(timeline);
      var found := DepartmentFromEmail(profile.value) + ActivityInferences(acts);
      Inferred(|found|, found)
  }

  /** The inferences drawn from the activities, which need at least one. */
  function ActivityInferences(acts: seq<Activity>): seq<Inference>
  {
    if acts != [] then ScheduleInferences(Tally.Tally(Hours(acts)), acts) + RoleInferences(acts) else []
  }

  /** The activities never yield a department. */
  lemma NoDepartmentFromActivities(acts: seq<Activity>)
    ensures var all := ActivityInferences(acts);
      forall i :: 0 <= i < |all| ==> !all[i].Department?
  {
    if acts != [] {
      ScheduleShape(acts);
      var sched := ScheduleInferences(Tally.Tally(Hours(acts)), acts);
      var role := RoleInferences(acts);
      assert |role| <= 1 && (role != [] ==> role[0].LikelyRole?);
      var all := ActivityInferences(acts);
      assert all == sched + role;
      forall i | 0 <= i < |all|
        ensures !all[i].Department?
      {
        if i < 2 {
          assert all[i] == sched[i];
        } else {
          assert all[i] == role[i - 2];
        }
      }
    }
  }


  /** The loop that counts activities per hour. */
  method CountHours(acts: seq<Activity>) returns (hourCounts: seq<(Hour, nat)>)
    ensures hourCounts == Tally.Tally(Hours(acts))
  {
    hourCounts := [];
    var i := 0;
    while i < |acts|
      invariant 0 <= i <= |acts|
      invariant hourCounts == Tally.Tally(Hours(acts[..i]))
    {
      hourCounts := Tally.Bump(hourCounts, acts[i].hour);
      assert acts[..i + 1][..i] == acts[..i];
      assert Hours(acts[..i + 1])[..i] == Hours(acts[..i]);
      i := i + 1;
    }
    assert acts[..i] == acts;
  }

  method InferMissingData(profile: Option<Profile>, timeline: Option<Timeline>) returns (r: InferenceReport)
    ensures r == InferMissingDataOf(profile, timeline)
  {
    if profile.None? {
      return EntityNotFound;
    }
    var found := DepartmentFromEmail(profile.value);
    var acts := TimelineActivities(timeline);
    if acts != [] {
      var hourCounts := CountHours(acts);
      found := found + ScheduleInferences(hourCounts, acts);
    }
    if acts != [] {
      found := found + RoleInferences(acts);
    }
    r := Inferred(|found|, found);
  }

  /** Without a profile nothing is inferred; without activities only the
      department rule can fire. The count is the number of inferences. */
  lemma InferenceOutcome(profile: Option<Profile>, timeline: Option<Timeline>)
    ensures InferMissingDataOf(profile, timeline) == EntityNotFound <==> profile.None?
    ensures InferMissingDataOf(profile, timeline).Inferred? ==>
      InferMissingDataOf(profile, timeline).inferencesCount == |InferMissingDataOf(profile, timeline).inferences|
    ensures profile.Some? && TimelineActivities(timeline) == [] ==>
      |InferMissingDataOf(profile, timeline).inferences| <= 1
  {
  }

  /** The department inference, if any, comes first and is the only one. */
  lemma DepartmentFirst(p: Profile, timeline: Option<Timeline>)
    ensures var r := InferMissingDataOf(Some(p), timeline);
      var d := DepartmentFromEmail(p);
      |d| <= 1 && d <= r.inferences && forall i :: |d| <= i < |r.inferences| ==> !r.inferences[i].Department?
  {
    NoDepartmentFromActivities(TimelineActivities(timeline));
    NoDepartmentAfter(DepartmentFromEmail(p), ActivityInferences(TimelineActivities(timeline)));
  }

  lemma NoDepartmentAfter(d: seq<Inference>, rest: seq<Inference>)
    requires forall i :: 0 <= i < |rest| ==> !rest[i].Department?
    ensures d <= d + rest
    ensures forall i :: |d| <= i < |d + rest| ==> !(d + rest)[i].Department?
  {
    forall i | |d| <= i < |d + rest|
      ensures !(d + rest)[i].Department?
    {
      assert (d + rest)[i] == rest[i - |d|];
    }
  }

  /** The email test of the department rule, lower-casing first. */
  predicate EmailMentions(p: Profile, needle: string)
  {
    Truthy(p.email) && Contains(Lower(p.email.value), needle)
  }

  /** The department is inferred exactly when it is missing and the
      lower-cased email contains "eng" or "sci"; it is Engineering exactly
      when "eng" occurs, whatever else does. */
  lemma DepartmentRule(p: Profile, timeline: Option<Timeline>)
    ensures var r := InferMissingDataOf(Some(p), timeline);
      (|r.inferences| > 0 && r.inferences[0].Department?) <==>
        !Truthy(p.department) && (EmailMentions(p, "eng") || EmailMentions(p, "sci"))
    ensures var r := InferMissingDataOf(Some(p), timeline);
      (|r.inferences| > 0 && r.inferences[0] == Department("Engineering")) <==>
        !Truthy(p.department) && EmailMentions(p, "eng")
  {
    DepartmentFirst(p, timeline);
  }

  lemma DepartmentExamples()
    ensures InferMissingDataOf(Some(Profile(None, Some("Ann@SCI.eng"))), None)
      == Inferred(1, [Department("Engineering")])
    ensures InferMissingDataOf(Some(Profile(Some("Physics"), Some("eng"))), None) == Inferred(0, [])
  {
    var e := Lower("Ann@SCI.eng");
    assert e == "ann@sci.eng";
    assert OccursAt(e, "eng", 8);
  }

  /** A non-empty timeline always yields the active-hours and then the
      primary-location inference. */
  lemma ScheduleShape(acts: seq<Activity>)
    requires acts != []
    ensures var s := ScheduleInferences(Tally.Tally(Hours(acts)), acts);
      |s| == 2 && s[0].TypicalActiveHours? && s[1].PrimaryLocations? && s[0].dataPoints == |acts|
      && s[0].slots == Slots(Ranking.MostCommon(Tally.Tally(Hours(acts)), 3))
      && s[1].locations == Common.Keys(Ranking.MostCommon(Tally.Tally(Locations(acts)), 2))
  {
    HourTallyNonEmpty(acts);
    var ls := Locations(acts);
    Tally.TallyKeys(ls);
    Tally.DistinctMembers(ls);
    assert ls[0] in ls;
  }

  /** Between one and three hours are reported, each an hour at which
      something happened, with its true number of activities. */
  lemma PeakHours(acts: seq<Activity>)
    requires acts != []
    ensures var peak := Ranking.MostCommon(Tally.Tally(Hours(acts)), 3);
      1 <= |peak| <= 3
      && forall i :: 0 <= i < |peak| ==> peak[i].0 in Hours(acts) && peak[i].1 == Tally.Count(Hours(acts), peak[i].0)
  {
    HourTallyNonEmpty(acts);
    Ranking.MostCommonOfTally(Hours(acts), 3);
  }

  /** One or two visited locations are reported, and the visits quoted are
      their true counts added up. */
  lemma PrimaryVisits(acts: seq<Activity>)
    requires acts != []
    ensures var primary := Ranking.MostCommon(Tally.Tally(Locations(acts)), 2);
      var ls := Locations(acts);
      1 <= |primary| <= 2
      && (forall i :: 0 <= i < |primary| ==> primary[i].0 in ls)
      && Tally.Total(primary) == Tally.Count(ls, primary[0].0)
           + (if |primary| == 2 then Tally.Count(ls, primary[1].0) else 0)
  {
    var ls := Locations(acts);
    Tally.TallyNonEmpty(ls);
    Ranking.MostCommonOfTally(ls, 2);
    Tally.TotalOfPair(Ranking.MostCommon(Tally.Tally(ls), 2));
  }

  /** The reported hours are the busiest: an hour that occurs without being
      reported means three hours were reported, each at least as busy. */
  lemma PeakHoursAreBusiest(acts: seq<Activity>, h: Hour)
    requires h in Hours(acts)
    requires SlotLabel(h) !in Slots(Ranking.MostCommon(Tally.Tally(Hours(acts)), 3))
    ensures var peak := Ranking.MostCommon(Tally.Tally(Hours(acts)), 3);
      |peak| == 3 && forall i :: 0 <= i < 3 ==> Tally.Count(Hours(acts), peak[i].0) >= Tally.Count(Hours(acts), h)
  {
    var peak := Ranking.MostCommon(Tally.Tally(Hours(acts)), 3);
    forall i | 0 <= i < |peak| ensures peak[i].0 != h {
      assert Slots(peak)[i] == SlotLabel(peak[i].0);
    }
    assert h !in Common.Keys(peak);
    Ranking.TopOfTally(Hours(acts), 3, h);
  }

  /** The role is inferred exactly when lab bookings exceed 3/10 of the
      activities. */
  lemma RoleRule(acts: seq<Activity>)
    ensures var labs := Tally.Count(DetectionTypes(acts), "lab_bookings");
      (RoleInferences(acts) == [LikelyRole(labs, |acts|)] <==> 10 * labs > 3 * |acts|)
      && (RoleInferences(acts) == [] <==> 10 * labs <= 3 * |acts|)
  {
  }

  // ---------------------------------------------------------------------
  // The timeline lookup as the source writes it
  // ---------------------------------------------------------------------

  /** The static methods `DatabaseService` defines (backend/database.py). */
  const DatabaseServiceMethods: set<string> := {
    "get_all_profiles", "get_profile_by_entity_id", "search_profiles",
    "get_recent_swipes", "get_recent_wifi_logs", "get_lab_bookings",
    "get_library_checkouts", "get_notes", "get_cctv_frames", "get_face_embedding",
    "resolve_entity", "get_entity_activity_timeline", "get_security_stats",
    "get_dashboard_stats"}

  /** A call `DatabaseService.<name>(...)`: a defined method returns its
      result, any other name raises AttributeError. */
  datatype Call<T> = Returned(value: T) | Raised(message: string)

  function CallDatabaseService<T>(name: string, result: T): (c: Call<T>)
    ensures c.Returned? <==> name in DatabaseServiceMethods
    ensures c.Returned? ==> c.value == result
  {
    if name in DatabaseServiceMethods then Returned(result)
    else Raised(AttributeErrorMessage(name))
  }

  /** Python's message for a class attribute that does not exist. */
  function AttributeErrorMessage(name: string): string
  {
    "type object 'DatabaseService' has no attribute '" + name + "'"
  }

  /** What an analysis hands back: the `{"error": str(e)}` of its `except`
      clause, or its own result. */
  datatype Outcome<R> = ErrorResult(error: string) | Completed(result: R)

  const TimelineLookup := "get_entity_timeline"

  /** `predict_next_location` as written: the timeline comes from
      `DatabaseService.get_entity_timeline`; `timeline` is what a lookup of
      that name would return. */
  function PredictNextLocationAsWritten(timeline: Option<Timeline>, currentHour: Hour): Outcome<LocationForecast>
  {
    var call := CallDatabaseService(TimelineLookup, timeline);
    if call.Raised? then ErrorResult(call.message) else Completed(PredictNextLocation(call.value, currentHour))
  }

  /** `detect_anomalies` as written. */
  function DetectAnomaliesAsWritten(timeline: Option<Timeline>): Outcome<AnomalyReport>
  {
    var call := CallDatabaseService(TimelineLookup, timeline);
    if call.Raised? then ErrorResult(call.message) else Completed(DetectAnomaliesOf(call.value))
  }

  /** `infer_missing_data` as written: the profile lookup succeeds and the
      timeline lookup after it raises, before the profile is examined. */
  function InferMissingDataAsWritten(profile: Option<Profile>, timeline: Option<Timeline>): Outcome<InferenceReport>
  {
    var profileCall := CallDatabaseService("get_profile_by_entity_id", profile);
    var call := CallDatabaseService(TimelineLookup, timeline);
    if profileCall.Raised? then ErrorResult(profileCall.message)
    else if call.Raised? then ErrorResult(call.message)
    else Completed(InferMissingDataOf(profileCall.value, call.value))
  }

  const TimelineLookupError := AttributeErrorMessage(TimelineLookup)

  /** `DatabaseService` defines the profile lookup but not the timeline
      lookup the analyses call. */
  lemma LookupNames()
    ensures "get_profile_by_entity_id" in DatabaseServiceMethods
    ensures TimelineLookup !in DatabaseServiceMethods
    ensures CallDatabaseService(TimelineLookup, 0) == Raised(TimelineLookupError)
  {
    assert TimelineLookup !in DatabaseServiceMethods;
  }

  /** As written, every analysis answers with the AttributeError's message,
      whatever the entity, its profile and its activities: no prediction,
      anomaly or inference is ever produced. */
  lemma AnalysesAsWrittenAlwaysErr(profile: Option<Profile>, timeline: Option<Timeline>, currentHour: Hour)
    ensures PredictNextLocationAsWritten(timeline, currentHour) == ErrorResult(TimelineLookupError)
    ensures DetectAnomaliesAsWritten(timeline) == ErrorResult(TimelineLookupError)
    ensures InferMissingDataAsWritten(profile, timeline) == ErrorResult(TimelineLookupError)
  {
    LookupNames();
  }

  /** The keys of the dictionary `get_entity_activity_timeline` returns
      (backend/database.py). */
  const ActivityTimelineKeys: set<string> := {
    "entity_id", "period_days", "swipes", "wifi_logs", "lab_bookings",
    "library_checkouts", "total_activities"}

  /** Reading a timeline dictionary with `timeline.get("activities")` and
      `timeline["current_location"]`: a key the dictionary lacks reads as
      absent. */
  function ReadTimeline(keys: set<string>, activities: seq<Activity>, current: string): (t: Timeline)
    ensures t.activities.Some? <==> "activities" in keys
    ensures t.currentLocation.Some? <==> "current_location" in keys
  {
    Timeline(if "activities" in keys then Some(activities) else None,
             if "current_location" in keys then Some(current) else None)
  }

  /** Calling the lookup `DatabaseService` does define would not be enough:
      its dictionary has no `activities` key, so prediction and anomaly
      detection report insufficient data and inference finds nothing beyond
      the email rule. */
  lemma DefinedLookupLacksActivities(acts: seq<Activity>, current: string, p: Profile, currentHour: Hour)
    ensures var t := Some(ReadTimeline(ActivityTimelineKeys, acts, current));
      PredictNextLocation(t, currentHour) == PredictFailed(InsufficientData)
      && DetectAnomaliesOf(t) == InsufficientAnomalyData
      && InferMissingDataOf(Some(p), t) == Inferred(|DepartmentFromEmail(p)|, DepartmentFromEmail(p))
  {
    assert "activities" !in ActivityTimelineKeys;
    var t := Some(ReadTimeline(ActivityTimelineKeys, acts, current));
    assert TimelineActivities(t) == [];
    assert ActivityInferences([]) == [];
    assert DepartmentFromEmail(p) + [] == DepartmentFromEmail(p);
  }
}
